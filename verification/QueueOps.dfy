/**
 The single changes the kernel makes to a process table: rewriting one descriptor,
 linking one on a queue, unlinking one. Each comes with the condition under which it
 keeps the queue invariant.
 */
module QueueOps {
  import opened Descriptors
  import opened ProcTable
  import opened Detach

  function Put(tb: Table, j: Slot, b: Proc): Table
    requires j < |tb.procs|
  {
    tb.(procs := tb.procs[j := b])
  }

  ghost predicate OnSenders(tb: Table, j: Slot) {
    exists o :: 0 <= o < |tb.procs| && j in tb.procs[o].plist
  }

  /** p_link of j is on a senders' queue or on a proxy queue. */
  ghost predicate LinkedP(tb: Table, j: Slot) {
    j in tb.outq || OnSenders(tb, j)
  }

  ghost predicate LinkedM(tb: Table, j: Slot) {
    exists o :: 0 <= o < |tb.procs| && j in tb.procs[o].mlist
  }

  ghost predicate LinkedU(tb: Table, j: Slot) {
    exists o :: 0 <= o < |tb.procs| && j in tb.procs[o].ulist
  }

  /** A running process is on no queue. */
  lemma RunningUnlinked(tb: Table, j: Slot)
    requires QueueInv(tb) && j < |tb.procs|
    ensures Sending !in tb.procs[j].rts && RmtOper !in tb.procs[j].rts ==> !LinkedP(tb, j)
    ensures WaitMigr !in tb.procs[j].rts ==> !LinkedM(tb, j)
    ensures WaitUnbind !in tb.procs[j].rts ==> !LinkedU(tb, j)
    ensures tb.procs[j].Free() ==> !LinkedP(tb, j) && !LinkedM(tb, j) && !LinkedU(tb, j)
  {
  }

  /** b may replace descriptor j: its own queues are kept, and what its links promise still holds. */
  ghost predicate Replaces(tb: Table, j: Slot, b: Proc)
    requires j < |tb.procs|
  {
    var a := tb.procs[j];
    && b.plist == a.plist && b.mlist == a.mlist && b.ulist == a.ulist && OwnerOk(tb, b)
    && b.endpoint == a.endpoint
    && (b.Free() ==> !LinkedP(tb, j) && !LinkedM(tb, j) && !LinkedU(tb, j))
    && (b.IsRemote() && !a.IsRemote() ==> !LinkedM(tb, j) && !LinkedU(tb, j))
    && (OnSenders(tb, j) ==> Sending in b.rts && b.sendto == a.sendto)
    && (j in tb.outq ==> RmtOper in b.rts && b.proxy != NONE)
    && (LinkedM(tb, j) ==> WaitMigr in b.rts && b.waitmigr == a.waitmigr)
    && (LinkedU(tb, j) ==> WaitUnbind in b.rts && b.waitunbind == a.waitunbind)
  }

  lemma PutKeepsSenders(tb: Table, j: Slot, b: Proc)
    requires QueueInv(tb) && j < |tb.procs| && Replaces(tb, j, b)
    ensures SendersOk(Put(tb, j, b)) && OutqOk(Put(tb, j, b))
  {
  }

  lemma PutKeepsWaiters(tb: Table, j: Slot, b: Proc)
    requires QueueInv(tb) && j < |tb.procs| && Replaces(tb, j, b)
    ensures MigrWaitersOk(Put(tb, j, b)) && UnbindWaitersOk(Put(tb, j, b))
  {
    var t := Put(tb, j, b);
    forall o, x: Slot | 0 <= o < |t.procs| && x in t.procs[o].mlist
      ensures && BoundSlot(t, x) && x != o && t.procs[x].IsLocal()
              && WaitMigr in t.procs[x].rts && t.procs[x].waitmigr == t.procs[o].endpoint
    {
      assert x in tb.procs[o].mlist;
    }
    forall o, x: Slot | 0 <= o < |t.procs| && x in t.procs[o].ulist
      ensures && BoundSlot(t, x) && x != o && t.procs[x].IsLocal()
              && WaitUnbind in t.procs[x].rts && t.procs[x].waitunbind == t.procs[o].endpoint
    {
      assert x in tb.procs[o].ulist;
    }
  }

  lemma PutKeeps(tb: Table, j: Slot, b: Proc)
    requires QueueInv(tb) && j < |tb.procs| && Replaces(tb, j, b)
    ensures QueueInv(Put(tb, j, b))
  {
    PutKeepsSenders(tb, j, b);
    PutKeepsWaiters(tb, j, b);
    var t := Put(tb, j, b);
    forall o | 0 <= o < |t.procs| ensures OwnerOk(t, t.procs[o]) {
      assert OwnerOk(tb, tb.procs[o]);
    }
  }

  // ---- linking ----

  function PushP(tb: Table, o: Slot, x: Slot): Table
    requires o < |tb.procs|
  {
    Put(tb, o, tb.procs[o].(plist := tb.procs[o].plist + [x]))
  }

  function PushM(tb: Table, o: Slot, x: Slot): Table
    requires o < |tb.procs|
  {
    Put(tb, o, tb.procs[o].(mlist := tb.procs[o].mlist + [x]))
  }

  function PushU(tb: Table, o: Slot, x: Slot): Table
    requires o < |tb.procs|
  {
    Put(tb, o, tb.procs[o].(ulist := tb.procs[o].ulist + [x]))
  }

  /** The owners after one list of descriptor o was extended by an unlisted member. */
  lemma PushKeepsOwners(tb: Table, o: Slot, b: Proc)
    requires QueueInv(tb) && o < |tb.procs| && OwnerOk(tb, b)
    requires b.endpoint == tb.procs[o].endpoint
    ensures OwnersOk(Put(tb, o, b)) && EndpointsOk(Put(tb, o, b))
  {
  }

  lemma PushPKeeps(tb: Table, o: Slot, x: Slot)
    requires QueueInv(tb) && o < |tb.procs| && BoundSlot(tb, x) && x != o
    requires !tb.procs[o].Free() && tb.procs[o].IsLocal()
    requires !LinkedP(tb, x) && Sending in tb.procs[x].rts && tb.procs[x].sendto == tb.procs[o].endpoint
    ensures QueueInv(PushP(tb, o, x))
  {
    assert OwnerOk(tb, tb.procs[o]);
    NoDupAppend(tb.procs[o].plist, x);
    var t := PushP(tb, o, x);
    PushKeepsOwners(tb, o, t.procs[o]);
    forall i, y: Slot | 0 <= i < |t.procs| && y in t.procs[i].plist
      ensures && BoundSlot(t, y) && y != i && y !in t.outq
              && Sending in t.procs[y].rts && t.procs[y].sendto == t.procs[i].endpoint
    {
      assert y in tb.procs[i].plist || (i == o && y == x);
    }
    PushRest(tb, o, t.procs[o]);
  }

  /** Changing only the lists of o leaves the other kinds of queue as they were. */
  lemma PushRest(tb: Table, o: Slot, b: Proc)
    requires QueueInv(tb) && o < |tb.procs|
    requires b == tb.procs[o].(plist := b.plist, mlist := b.mlist, ulist := b.ulist)
    ensures OutqOk(Put(tb, o, b))
    ensures b.plist == tb.procs[o].plist ==> SendersOk(Put(tb, o, b))
    ensures b.mlist == tb.procs[o].mlist ==> MigrWaitersOk(Put(tb, o, b))
    ensures b.ulist == tb.procs[o].ulist ==> UnbindWaitersOk(Put(tb, o, b))
  {
    var t := Put(tb, o, b);
    forall y: Slot | y < |tb.procs| ensures t.procs[y] == tb.procs[y].(plist := t.procs[y].plist, mlist := t.procs[y].mlist, ulist := t.procs[y].ulist) {
    }
  }

  lemma PushMKeeps(tb: Table, o: Slot, x: Slot)
    requires QueueInv(tb) && o < |tb.procs| && BoundSlot(tb, x) && x != o && !tb.procs[o].Free()
    requires !LinkedM(tb, x) && tb.procs[x].IsLocal()
    requires WaitMigr in tb.procs[x].rts && tb.procs[x].waitmigr == tb.procs[o].endpoint
    ensures QueueInv(PushM(tb, o, x))
  {
    assert OwnerOk(tb, tb.procs[o]);
    NoDupAppend(tb.procs[o].mlist, x);
    var t := PushM(tb, o, x);
    PushKeepsOwners(tb, o, t.procs[o]);
    forall i, y: Slot | 0 <= i < |t.procs| && y in t.procs[i].mlist
      ensures && BoundSlot(t, y) && y != i && t.procs[y].IsLocal()
              && WaitMigr in t.procs[y].rts && t.procs[y].waitmigr == t.procs[i].endpoint
    {
      assert y in tb.procs[i].mlist || (i == o && y == x);
    }
    PushRest(tb, o, t.procs[o]);
  }

  lemma PushUKeeps(tb: Table, o: Slot, x: Slot)
    requires QueueInv(tb) && o < |tb.procs| && BoundSlot(tb, x) && x != o && !tb.procs[o].Free()
    requires !LinkedU(tb, x) && tb.procs[x].IsLocal()
    requires WaitUnbind in tb.procs[x].rts && tb.procs[x].waitunbind == tb.procs[o].endpoint
    ensures QueueInv(PushU(tb, o, x))
  {
    assert OwnerOk(tb, tb.procs[o]);
    NoDupAppend(tb.procs[o].ulist, x);
    var t := PushU(tb, o, x);
    PushKeepsOwners(tb, o, t.procs[o]);
    forall i, y: Slot | 0 <= i < |t.procs| && y in t.procs[i].ulist
      ensures && BoundSlot(t, y) && y != i && t.procs[y].IsLocal()
              && WaitUnbind in t.procs[y].rts && t.procs[y].waitunbind == t.procs[i].endpoint
    {
      assert y in tb.procs[i].ulist || (i == o && y == x);
    }
    PushRest(tb, o, t.procs[o]);
  }

  function PushOut(tb: Table, x: Slot): Table {
    tb.(outq := tb.outq + [x])
  }

  lemma PushOutKeeps(tb: Table, x: Slot)
    requires QueueInv(tb) && BoundSlot(tb, x) && !LinkedP(tb, x)
    requires RmtOper in tb.procs[x].rts && tb.procs[x].proxy != NONE
    ensures QueueInv(PushOut(tb, x))
  {
    NoDupAppend(tb.outq, x);
    var t := PushOut(tb, x);
    forall o | 0 <= o < |t.procs| ensures OwnerOk(t, t.procs[o]) {
      assert OwnerOk(tb, tb.procs[o]);
    }
  }

  // ---- unlinking ----

  /** Every list of every descriptor, each without p where the flag says so. */
  function Dropping(tb: Table, p: Slot, fromP: bool, fromM: bool, fromU: bool): (r: Table)
    ensures |r.procs| == |tb.procs|
    ensures fromP ==> !LinkedP(r, p)
    ensures fromM ==> !LinkedM(r, p)
    ensures fromU ==> !LinkedU(r, p)
  {
    tb.(procs := seq(|tb.procs|, j requires 0 <= j < |tb.procs| =>
                       var z := tb.procs[j];
                       z.(plist := if fromP then Without(z.plist, p) else z.plist,
                          mlist := if fromM then Without(z.mlist, p) else z.mlist,
                          ulist := if fromU then Without(z.ulist, p) else z.ulist)),
        outq := if fromP then Without(tb.outq, p) else tb.outq)
  }

  lemma DroppingKeeps(tb: Table, p: Slot, fromP: bool, fromM: bool, fromU: bool)
    requires QueueInv(tb)
    ensures QueueInv(Dropping(tb, p, fromP, fromM, fromU))
  {
    var t := Dropping(tb, p, fromP, fromM, fromU);
    forall o | 0 <= o < |t.procs| ensures OwnerOk(t, t.procs[o]) {
      assert OwnerOk(tb, tb.procs[o]);
    }
    DroppingKeepsLinks(tb, t);
  }

  /** t holds no link that tb does not. */
  ghost predicate Fewer(tb: Table, t: Table) {
    && |t.procs| == |tb.procs|
    && (forall j :: 0 <= j < |tb.procs| ==>
          && t.procs[j] == tb.procs[j].(plist := t.procs[j].plist, mlist := t.procs[j].mlist, ulist := t.procs[j].ulist)
          && (forall x: Slot :: x in t.procs[j].plist ==> x in tb.procs[j].plist)
          && (forall x: Slot :: x in t.procs[j].mlist ==> x in tb.procs[j].mlist)
          && (forall x: Slot :: x in t.procs[j].ulist ==> x in tb.procs[j].ulist))
    && NoDup(t.outq) && (forall x: Slot :: x in t.outq ==> x in tb.outq)
  }

  lemma DroppingKeepsLinks(tb: Table, t: Table)
    requires QueueInv(tb) && Fewer(tb, t)
    ensures SendersOk(t) && MigrWaitersOk(t) && UnbindWaitersOk(t) && OutqOk(t)
  {
  }

  // ---- binding a free slot ----

  lemma BindKeeps(tb: Table, i: Slot, b: Proc)
    requires QueueInv(tb) && i < |tb.procs| && tb.procs[i].Free()
    requires b.plist == [] && b.mlist == [] && b.ulist == [] && OwnerOk(tb, b)
    requires SlotOf(tb.nrTasks, b.endpoint) == i
    ensures QueueInv(Put(tb, i, b))
  {
    RunningUnlinked(tb, i);
    var t := Put(tb, i, b);
    forall o | 0 <= o < |t.procs| ensures OwnerOk(t, t.procs[o]) {
      assert OwnerOk(tb, tb.procs[o]);
    }
    assert OwnerOk(tb, tb.procs[i]);
    BindKeepsLinks(tb, i, b);
  }

  lemma BindKeepsLinks(tb: Table, i: Slot, b: Proc)
    requires QueueInv(tb) && i < |tb.procs| && !LinkedP(tb, i) && !LinkedM(tb, i) && !LinkedU(tb, i)
    requires b.plist == [] && b.mlist == [] && b.ulist == []
    ensures var t := Put(tb, i, b); SendersOk(t) && MigrWaitersOk(t) && UnbindWaitersOk(t) && OutqOk(t)
  {
    var t := Put(tb, i, b);
    assert forall j :: 0 <= j < |tb.procs| && j != i ==> t.procs[j] == tb.procs[j];
  }

  // ---- flushing the queues of a migrating process ----

  /** flush_migr_list never takes its "wrong endpoint" arm. */
  lemma FlushMigrMatches(tb: Table, p: Slot, x: Slot)
    requires QueueInv(tb) && p < |tb.procs| && x in tb.procs[p].mlist
    ensures x < |tb.procs| && tb.procs[x].waitmigr == tb.procs[p].endpoint
    ensures var y := After(tb.net, MigrDone, tb.procs[p].endpoint)(tb.procs[x]);
            WaitMigr !in y.rts && y.waitmigr == NONE && (y.sem > tb.procs[x].sem <==> y.rts == {})
  {
  }

  /** Outcome of flush_sending_list for one sender x. */
  datatype FlushOutcome = Replayed(woken: bool) | SentBack(queued: bool) | AckDropped

  ghost predicate FlushedTo(net: Net, x: Proc, y: Proc, out: FlushOutcome) {
    match out
    case Replayed(woken) =>
      && x.IsLocal() && y.rts == x.rts - {Sending, Receiving} && y.getfrom == NONE && y.sendto == NONE
      && (woken <==> y.rts == {})
      && y.sem == (if woken then x.sem + 1 else x.sem) && (woken ==> y.rcode == EMOLMIGRATE)
    case SentBack(queued) =>
      && x.IsRemote() && !HasAck(x.cmd.cmd) && y.rts == x.rts + {RmtOper}
      && y.cmd.cmd == x.cmd.cmd + CMD_ACKNOWLEDGE && y.cmd.src == x.cmd.dst && y.cmd.dst == x.endpoint
      && (y.cmd.dst == x.cmd.src <==> x.endpoint == x.cmd.src)
      && y.cmd.dnode == x.nodeid && y.cmd.rcode == EMOLMIGRATE
      && (queued <==> x.nodeid in net.route) && (queued ==> y.proxy == net.route[x.nodeid])
    case AckDropped =>
      x.IsRemote() && HasAck(x.cmd.cmd) && y == x
  }

  lemma FlushOne(net: Net, ep: int, x: Proc) returns (out: FlushOutcome)
    ensures FlushedTo(net, x, After(net, SendersReplay, ep)(x), out)
    ensures out.SentBack? && out.queued <==> Joins(net, SendersReplay)(x)
  {
    if x.IsLocal() {
      out := Replayed(x.rts - {Sending, Receiving} == {});
    } else if HasAck(x.cmd.cmd) {
      out := AckDropped;
    } else {
      out := FlushOutcome.SentBack(x.nodeid in net.route);
    }
  }

  /** flush_sending_list conserves senders: the queue ends empty, every member ends in
      exactly one of the three outcomes, the ones handed to a proxy are appended to its
      queue in order, and no other descriptor changes. */
  lemma FlushConserves(tb: Table, p: Slot)
    requires p < |tb.procs| && ListOk(tb, p, tb.procs[p].plist)
    ensures
      var t, q := Drained(tb, SendersReplay, p), tb.procs[p].plist;
      && |t.procs| == |tb.procs| && t.procs[p] == tb.procs[p].(plist := [])
      && (forall j :: 0 <= j < |tb.procs| && j != p ==>
            if j in q then exists out :: FlushedTo(tb.net, tb.procs[j], t.procs[j], out)
            else t.procs[j] == tb.procs[j])
      && t.outq == tb.outq + Pick(tb.procs, q, Joins(tb.net, SendersReplay))
  {
    var t, q := Drained(tb, SendersReplay, p), tb.procs[p].plist;
    forall j | 0 <= j < |tb.procs| && j in q && j != p
      ensures exists out :: FlushedTo(tb.net, tb.procs[j], t.procs[j], out)
    {
      var out := FlushOne(tb.net, tb.procs[p].endpoint, tb.procs[j]);
      assert t.procs[j] == After(tb.net, SendersReplay, tb.procs[p].endpoint)(tb.procs[j]);
      assert FlushedTo(tb.net, tb.procs[j], t.procs[j], out);
    }
  }

  /** The three outcomes exclude each other. */
  lemma OutcomesExclusive(net: Net, x: Proc, y: Proc, a: FlushOutcome, b: FlushOutcome)
    requires FlushedTo(net, x, y, a) && FlushedTo(net, x, y, b)
    ensures a == b
  {
  }

  lemma MigrDoneEffect(net: Net, ep: int, x: Proc)
    ensures
      var y := After(net, MigrDone, ep)(x);
      && Frame(x, y) && x.rts - {WaitMigr} <= y.rts <= x.rts
      && y.sendto == x.sendto && y.waitunbind == x.waitunbind && y.proxy == x.proxy
  {
  }

  lemma MigrDoneKeeps(tb: Table, p: Slot)
    requires QueueInv(tb) && p < |tb.procs| && ListsOk(tb, p)
    ensures QueueInv(Drained(tb, MigrDone, p))
  {
    var t := Drained(tb, MigrDone, p);
    PickNone(tb.procs, tb.procs[p].mlist, Joins(tb.net, MigrDone));
    forall j: Slot | j < |tb.procs| && j != p
      ensures MigrFlushed(tb, p, j, t.procs[j])
    {
      MigrDoneEffect(tb.net, tb.procs[p].endpoint, tb.procs[j]);
    }
    FlushedMigrKeeps(tb, t, p);
  }

  /** Descriptor j after p's migration queue was flushed. */
  ghost predicate MigrFlushed(tb: Table, p: Slot, j: Slot, b: Proc)
    requires p < |tb.procs| && j < |tb.procs|
  {
    var a := tb.procs[j];
    && Frame(a, b) && a.rts - {WaitMigr} <= b.rts <= a.rts
    && b.sendto == a.sendto && b.waitunbind == a.waitunbind && b.proxy == a.proxy
    && (j !in tb.procs[p].mlist ==> b == a)
  }

  lemma FlushedMigrKeepsWaiters(tb: Table, t: Table, p: Slot)
    requires QueueInv(tb) && p < |tb.procs|
    requires t == tb.(procs := t.procs) && |t.procs| == |tb.procs|
    requires t.procs[p] == tb.procs[p].(mlist := [])
    requires forall j: Slot :: j < |tb.procs| && j != p ==> MigrFlushed(tb, p, j, t.procs[j])
    ensures MigrWaitersOk(t) && UnbindWaitersOk(t)
  {
    forall o, x: Slot | 0 <= o < |t.procs| && x in t.procs[o].mlist
      ensures && BoundSlot(t, x) && x != o && t.procs[x].IsLocal()
              && WaitMigr in t.procs[x].rts && t.procs[x].waitmigr == t.procs[o].endpoint
    {
      assert x in tb.procs[o].mlist;
      assert x in tb.procs[p].mlist ==> o == p;
    }
    forall o, x: Slot | 0 <= o < |t.procs| && x in t.procs[o].ulist
      ensures && BoundSlot(t, x) && x != o && t.procs[x].IsLocal()
              && WaitUnbind in t.procs[x].rts && t.procs[x].waitunbind == t.procs[o].endpoint
    {
      assert x in tb.procs[o].ulist;
    }
  }

  lemma FlushedMigrKeeps(tb: Table, t: Table, p: Slot)
    requires QueueInv(tb) && p < |tb.procs|
    requires t == tb.(procs := t.procs) && |t.procs| == |tb.procs|
    requires t.procs[p] == tb.procs[p].(mlist := [])
    requires forall j: Slot :: j < |tb.procs| && j != p ==> MigrFlushed(tb, p, j, t.procs[j])
    ensures QueueInv(t)
  {
    forall o | 0 <= o < |t.procs| ensures OwnerOk(t, t.procs[o]) {
      assert OwnerOk(tb, tb.procs[o]);
    }
    forall o, x: Slot | 0 <= o < |t.procs| && x in t.procs[o].plist
      ensures && BoundSlot(t, x) && x != o && x !in t.outq
              && Sending in t.procs[x].rts && t.procs[x].sendto == t.procs[o].endpoint
    {
      assert x in tb.procs[o].plist;
    }
    FlushedMigrKeepsWaiters(tb, t, p);
  }

  /** Descriptor j after p's senders were told to replay. */
  ghost predicate SendersFlushed(tb: Table, p: Slot, j: Slot, b: Proc)
    requires p < |tb.procs| && j < |tb.procs|
  {
    var a := tb.procs[j];
    && Frame(a, b) && a.rts - {Sending, Receiving} <= b.rts <= a.rts + {RmtOper}
    && b.waitmigr == a.waitmigr && b.waitunbind == a.waitunbind
    && (j !in tb.procs[p].plist ==> b == a)
    && (Joins(tb.net, SendersReplay)(a) && j in tb.procs[p].plist
        ==> RmtOper in b.rts && b.proxy == tb.net.route[a.nodeid])
  }

  lemma SendersReplayKeeps(tb: Table, p: Slot)
    requires QueueInv(tb) && p < |tb.procs| && ListsOk(tb, p)
    ensures QueueInv(Drained(tb, SendersReplay, p))
  {
    var t := Drained(tb, SendersReplay, p);
    var q := tb.procs[p].plist;
    var joined := Pick(tb.procs, q, Joins(tb.net, SendersReplay));
    NoDupConcat(tb.outq, joined);
    assert OwnerOk(tb, tb.procs[p]);
    forall j: Slot | j < |tb.procs| && j != p
      ensures SendersFlushed(tb, p, j, t.procs[j])
    {
      AfterFrame(tb.net, SendersReplay, tb.procs[p].endpoint, tb.procs[j]);
    }
    FlushedSendersKeeps(tb, t, p, joined);
  }

  lemma FlushedSendersKeepsWaiters(tb: Table, t: Table, p: Slot, joined: seq<Slot>)
    requires QueueInv(tb) && p < |tb.procs|
    requires t == tb.(procs := t.procs, outq := tb.outq + joined) && |t.procs| == |tb.procs|
    requires t.procs[p] == tb.procs[p].(plist := []) && NoDup(t.outq)
    requires forall j: Slot :: j < |tb.procs| && j != p ==> SendersFlushed(tb, p, j, t.procs[j])
    requires forall x: Slot :: x in joined ==> x in tb.procs[p].plist && Joins(tb.net, SendersReplay)(tb.procs[x])
    ensures MigrWaitersOk(t) && UnbindWaitersOk(t)
  {
    forall o, x: Slot | 0 <= o < |t.procs| && x in t.procs[o].mlist
      ensures && BoundSlot(t, x) && x != o && t.procs[x].IsLocal()
              && WaitMigr in t.procs[x].rts && t.procs[x].waitmigr == t.procs[o].endpoint
    {
      assert x in tb.procs[o].mlist;
    }
    forall o, x: Slot | 0 <= o < |t.procs| && x in t.procs[o].ulist
      ensures && BoundSlot(t, x) && x != o && t.procs[x].IsLocal()
              && WaitUnbind in t.procs[x].rts && t.procs[x].waitunbind == t.procs[o].endpoint
    {
      assert x in tb.procs[o].ulist;
    }
  }

  lemma FlushedSendersKeeps(tb: Table, t: Table, p: Slot, joined: seq<Slot>)
    requires QueueInv(tb) && p < |tb.procs|
    requires t == tb.(procs := t.procs, outq := tb.outq + joined) && |t.procs| == |tb.procs|
    requires t.procs[p] == tb.procs[p].(plist := []) && NoDup(t.outq)
    requires forall j: Slot :: j < |tb.procs| && j != p ==> SendersFlushed(tb, p, j, t.procs[j])
    requires forall x: Slot :: x in joined ==> x in tb.procs[p].plist && Joins(tb.net, SendersReplay)(tb.procs[x])
    ensures QueueInv(t)
  {
    forall o | 0 <= o < |t.procs| ensures OwnerOk(t, t.procs[o]) {
      assert OwnerOk(tb, tb.procs[o]);
    }
    forall o, x: Slot | 0 <= o < |t.procs| && x in t.procs[o].plist
      ensures && BoundSlot(t, x) && x != o && x !in t.outq
              && Sending in t.procs[x].rts && t.procs[x].sendto == t.procs[o].endpoint
    {
      assert x in tb.procs[o].plist;
      assert x !in tb.procs[p].plist;
    }
    FlushedSendersKeepsWaiters(tb, t, p, joined);
  }
}
