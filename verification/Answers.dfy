/**
 What every other process learns when a process is unbound: the return code a local one wakes
 up with, and the acknowledgement a remote one is sent, stated on the table before and after.
 */
module Answers {
  import opened Descriptors
  import opened ProcTable
  import opened Detach
  import opened UnbindInv

  /** Process a of slot j waits for a message of x, and its own send is over or was to x. */
  predicate Orphaned(x: Proc, j: Slot, a: Proc) {
    !a.Free() && Receiving in a.rts && a.getfrom == x.endpoint && (Sending !in a.rts || j in x.plist)
  }

  function Count(b: bool): nat {
    if b then 1 else 0
  }

  /** The flags of waits that end with x. */
  function Ended(x: Proc, j: Slot): set<RtsFlag> {
    (if j in x.plist then {Sending} else {}) + (if j in x.mlist then {WaitMigr} else {})
    + (if j in x.ulist then {WaitUnbind} else {})
  }

  /** The code a local process of slot j finds: that of the last queue it was taken from. */
  function CodeFor(x: Proc, j: Slot, a: Proc): int {
    if j in x.ulist then OK
    else if j in x.mlist then EMOLNOTBIND
    else if Orphaned(x, j, a) then EMOLSRCDIED
    else if j in x.plist then EMOLDSTDIED
    else a.rcode
  }

  /** The acknowledgement of a remote process of slot j in the name of x: of its request if it
      waits for an answer, else of its message. */
  function AckFor(net: Net, x: Proc, j: Slot, a: Proc): Cmd {
    if Orphaned(x, j, a) then Cmd(CMD_SNDREC_ACK, a.dcid, x.endpoint, a.endpoint, net.local, a.nodeid, EMOLSRCDIED)
    else if j in x.plist then Cmd(CMD_SEND_ACK, a.dcid, x.endpoint, a.endpoint, net.local, a.nodeid, EMOLDSTDIED)
    else a.cmd
  }

  predicate Acked(x: Proc, j: Slot, a: Proc) {
    j in x.plist || Orphaned(x, j, a)
  }

  /** Descriptor a of slot j after p was unbound, lists aside. */
  ghost predicate Informed(tb: Table, p: Slot, j: Slot, b: Proc)
    requires p < |tb.procs| && j < |tb.procs|
  {
    var x, a := tb.procs[p], tb.procs[j];
    && b.notify == (if a.Free() then a.notify else a.notify - {x.sid})
    && (a.IsLocal() ==>
          && b.rts == a.rts - Ended(x, j) && b.rcode == CodeFor(x, j, a)
          && b.sem == a.sem + Count(j in x.plist) + Count(Orphaned(x, j, a)) + Count(j in x.mlist) + Count(j in x.ulist)
          && b.waitmigr == (if j in x.mlist then NONE else a.waitmigr)
          && b.waitunbind == (if j in x.ulist then NONE else a.waitunbind)
          && b.cmd == a.cmd && b.proxy == a.proxy)
    && (a.IsRemote() ==>
          && b.rts == a.rts - Ended(x, j) - (if Orphaned(x, j, a) then {Receiving} else {})
                      + (if Acked(x, j, a) then {RmtOper} else {})
          && b.cmd == AckFor(tb.net, x, j, a) && b.rcode == a.rcode && b.sem == a.sem
          && b.proxy == (if Acked(x, j, a) && a.nodeid in tb.net.route then tb.net.route[a.nodeid] else a.proxy)
          && b.waitmigr == a.waitmigr && b.waitunbind == a.waitunbind)
    && b == a.(rts := b.rts, notify := b.notify, rcode := b.rcode, sem := b.sem, cmd := b.cmd, proxy := b.proxy,
               waitmigr := b.waitmigr, waitunbind := b.waitunbind, plist := b.plist, mlist := b.mlist, ulist := b.ulist)
  }

  // ---- the two halves of the clean-up, on one descriptor ----

  /** After the first two passes. */
  ghost predicate HalfInformed(tb: Table, p: Slot, j: Slot, b: Proc)
    requires p < |tb.procs| && j < |tb.procs|
  {
    var x, a := tb.procs[p], tb.procs[j];
    && b.notify == (if a.Free() then a.notify else a.notify - {x.sid})
    && (a.IsLocal() ==>
          && b.rts == a.rts - (if j in x.plist then {Sending} else {})
          && b.rcode == (if Orphaned(x, j, a) then EMOLSRCDIED else if j in x.plist then EMOLDSTDIED else a.rcode)
          && b.sem == a.sem + Count(j in x.plist) + Count(Orphaned(x, j, a)) && b.cmd == a.cmd && b.proxy == a.proxy)
    && (a.IsRemote() ==>
          && b.rts == a.rts - (if j in x.plist then {Sending} else {}) - (if Orphaned(x, j, a) then {Receiving} else {})
                      + (if Acked(x, j, a) then {RmtOper} else {})
          && b.cmd == AckFor(tb.net, x, j, a) && b.rcode == a.rcode && b.sem == a.sem
          && b.proxy == (if Acked(x, j, a) && a.nodeid in tb.net.route then tb.net.route[a.nodeid] else a.proxy))
    && b == a.(rts := b.rts, notify := b.notify, rcode := b.rcode, sem := b.sem, cmd := b.cmd, proxy := b.proxy)
  }

  /** d is a after the pass over the senders' queue of x. */
  ghost predicate Died(net: Net, x: Proc, j: Slot, a: Proc, d: Proc) {
    if j !in x.plist then d == a
    else if a.IsLocal() then d == a.(rts := a.rts - {Sending}, rcode := EMOLDSTDIED, sem := a.sem + 1)
    else d == a.(rts := a.rts - {Sending} + {RmtOper},
                 cmd := Cmd(CMD_SEND_ACK, a.dcid, x.endpoint, a.endpoint, net.local, a.nodeid, EMOLDSTDIED),
                 proxy := if a.nodeid in net.route then net.route[a.nodeid] else a.proxy)
  }

  lemma DiedAnswer(tb: Table, p: Slot, j: Slot)
    requires ListsOk(tb, p) && j < |tb.procs| && j != p
    ensures Died(tb.net, tb.procs[p], j, tb.procs[j], Drained(tb, SendersDied, p).procs[j])
  {
    if j in tb.procs[p].plist {
      DiedOne(tb.net, tb.procs[p], j, tb.procs[j]);
    }
  }

  lemma DiedOne(net: Net, x: Proc, j: Slot, a: Proc)
    requires j in x.plist
    ensures Died(net, x, j, a, After(net, SendersDied, x.endpoint)(a))
  {
  }

  /** b is d after the pass over all other descriptors. */
  ghost predicate Gone(net: Net, x: Proc, d: Proc, b: Proc) {
    var n := d.notify - {x.sid};
    if d.Free() then b == d
    else if !(Receiving in d.rts && d.getfrom == x.endpoint && Sending !in d.rts) then b == d.(notify := n)
    else if d.IsLocal() then b == d.(notify := n, rcode := EMOLSRCDIED, sem := d.sem + 1)
    else b == d.(notify := n, rts := d.rts - {Receiving} + {RmtOper},
                 cmd := Cmd(CMD_SNDREC_ACK, d.dcid, x.endpoint, d.endpoint, net.local, d.nodeid, EMOLSRCDIED),
                 proxy := if d.nodeid in net.route then net.route[d.nodeid] else d.proxy)
  }

  lemma GoneAnswer(net: Net, x: Proc, nrSys: nat, d: Proc)
    requires forall i :: i in d.notify ==> i < nrSys
    ensures Gone(net, x, d, Noticed(net, x.endpoint, x.sid, nrSys)(d))
  {
    assert x.sid !in d.notify ==> d.notify - {x.sid} == d.notify;
  }

  lemma BothPasses(tb: Table, p: Slot, j: Slot, d: Proc, b: Proc)
    requires p < |tb.procs| && j < |tb.procs| && (j in tb.procs[p].plist ==> !tb.procs[j].Free())
    requires Died(tb.net, tb.procs[p], j, tb.procs[j], d) && Gone(tb.net, tb.procs[p], d, b)
    ensures HalfInformed(tb, p, j, b)
  {
    var x, a := tb.procs[p], tb.procs[j];
    if a.IsRemote() && Orphaned(x, j, a) {
      assert b.rts == a.rts - (if j in x.plist then {Sending} else {}) - {Receiving} + {RmtOper};
    }
  }

  lemma AnsweredInforms(tb: Table, p: Slot, j: Slot)
    requires QueueInv(tb) && ListsOk(tb, p) && j < |tb.procs| && j != p
    ensures |Answered(tb, p).procs| == |tb.procs| && HalfInformed(tb, p, j, Answered(tb, p).procs[j])
  {
    var d := Drained(tb, SendersDied, p);
    DiedAnswer(tb, p, j);
    assert OwnerOk(tb, tb.procs[j]);
    GoneAnswer(tb.net, tb.procs[p], tb.nrSys, d.procs[j]);
    assert j in Others(|tb.procs|, p);
    BothPasses(tb, p, j, d.procs[j], Answered(tb, p).procs[j]);
  }

  /** b is a after the waiting queues of x were emptied, lists aside. */
  ghost predicate Released(x: Proc, j: Slot, a: Proc, b: Proc) {
    var m, u := j in x.mlist, j in x.ulist;
    && b.rts == a.rts - (if m then {WaitMigr} else {}) - (if u then {WaitUnbind} else {})
    && b.waitmigr == (if m then NONE else a.waitmigr) && b.waitunbind == (if u then NONE else a.waitunbind)
    && b.rcode == (if u then OK else if m then EMOLNOTBIND else a.rcode) && b.sem == a.sem + Count(m) + Count(u)
    && b == a.(rts := b.rts, waitmigr := b.waitmigr, waitunbind := b.waitunbind, rcode := b.rcode, sem := b.sem,
               plist := b.plist, mlist := b.mlist, ulist := b.ulist)
  }

  lemma MigrAnswer(tb: Table, p: Slot, j: Slot)
    requires p < |tb.procs| && ListOk(tb, p, tb.procs[p].mlist) && j < |tb.procs| && j != p
    requires j in tb.procs[p].mlist ==> tb.procs[j].IsLocal()
    ensures
      var a := tb.procs[j];
      Drained(tb, MigrWaitersDied, p).procs[j]
      == if j in tb.procs[p].mlist
         then a.(rts := a.rts - {WaitMigr}, waitmigr := NONE, rcode := EMOLNOTBIND, sem := a.sem + 1) else a
  {
  }

  lemma UnbindAnswer(tb: Table, p: Slot, j: Slot)
    requires p < |tb.procs| && ListOk(tb, p, tb.procs[p].ulist) && j < |tb.procs| && j != p
    requires j in tb.procs[p].ulist ==> tb.procs[j].IsLocal()
    ensures
      var a := tb.procs[j];
      Drained(tb, UnbindWaiters, p).procs[j]
      == if j in tb.procs[p].ulist
         then a.(rts := a.rts - {WaitUnbind}, waitunbind := NONE, rcode := OK, sem := a.sem + 1) else a
  {
  }

  /** A remote member of a waiting queue is acknowledged; the queue invariant allows none. */
  lemma RemoteWaiterAnswer(tb: Table, kind: DrainKind, p: Slot, j: Slot)
    requires kind in {MigrWaitersDied, UnbindWaiters} && p < |tb.procs| && ListOk(tb, p, QueueOf(kind, tb.procs[p]))
    requires j in QueueOf(kind, tb.procs[p]) && tb.procs[j].IsRemote()
    ensures
      var a, rc := tb.procs[j], if kind.MigrWaitersDied? then EMOLNOTBIND else OK;
      Drained(tb, kind, p).procs[j].cmd == Cmd(CMD_SEND_ACK, a.dcid, tb.procs[p].endpoint, a.endpoint, tb.net.local, a.nodeid, rc)
  {
  }

  /** The process itself, before its slot is reset: it waits for nothing any more and nobody waits
      for it. */
  lemma EmptiedSelf(tb: Table, p: Slot)
    requires ListsOk(tb, p)
    ensures
      var x, b := tb.procs[p], Emptied(tb, p).procs[p];
      && b.rts == x.rts - {RmtOper, Sending, WaitMigr, WaitUnbind} && b.mlist == [] && b.ulist == [] && b.plist == x.plist
      && b.proxy == (if RmtOper in x.rts then NONE else x.proxy) && b.sendto == (if Sending in x.rts then NONE else x.sendto)
      && b.waitmigr == (if WaitMigr in x.rts then NONE else x.waitmigr)
      && b.waitunbind == (if WaitUnbind in x.rts then NONE else x.waitunbind)
  {
    HalfEmptiedSelf(tb, p);
  }

  lemma HalfEmptiedSelf(tb: Table, p: Slot)
    requires ListsOk(tb, p)
    ensures
      var x := tb.procs[p];
      HalfEmptied(tb, p).procs[p]
      == x.(rts := x.rts - {RmtOper, Sending} - {WaitMigr} - {WaitUnbind}, proxy := if RmtOper in x.rts then NONE else x.proxy,
            sendto := if Sending in x.rts then NONE else x.sendto, waitmigr := if WaitMigr in x.rts then NONE else x.waitmigr,
            waitunbind := if WaitUnbind in x.rts then NONE else x.waitunbind, mlist := [])
  {
    var c := CutP(tb, p);
    CutPSelf(tb, p);
    var m := CutM(c, p);
    CutMSelf(c, p);
    CutUSelf(Drained(m, MigrWaitersDied, p), p);
  }

  lemma CutPSelf(tb: Table, p: Slot)
    requires ListsOk(tb, p)
    ensures
      var x := tb.procs[p];
      CutP(tb, p).procs[p]
      == x.(rts := x.rts - {RmtOper, Sending}, proxy := if RmtOper in x.rts then NONE else x.proxy,
            sendto := if Sending in x.rts then NONE else x.sendto)
  {
  }

  lemma CutMSelf(tb: Table, p: Slot)
    requires p < |tb.procs| && p !in tb.procs[p].mlist
    ensures
      var x := tb.procs[p];
      CutM(tb, p).procs[p] == x.(rts := x.rts - {WaitMigr}, waitmigr := if WaitMigr in x.rts then NONE else x.waitmigr)
  {
    assert WaitMigr !in tb.procs[p].rts ==> tb.procs[p].rts - {WaitMigr} == tb.procs[p].rts;
  }

  lemma CutUSelf(tb: Table, p: Slot)
    requires p < |tb.procs| && p !in tb.procs[p].ulist
    ensures
      var x := tb.procs[p];
      CutU(tb, p).procs[p] == x.(rts := x.rts - {WaitUnbind}, waitunbind := if WaitUnbind in x.rts then NONE else x.waitunbind)
  {
    assert WaitUnbind !in tb.procs[p].rts ==> tb.procs[p].rts - {WaitUnbind} == tb.procs[p].rts;
  }

  lemma ReleasedTwice(x: Proc, j: Slot, a: Proc, c: Proc, h: Proc, b: Proc, e: Proc)
    requires c == a.(plist := c.plist, mlist := c.mlist) && b == h.(ulist := b.ulist)
    requires h == if j in x.mlist then c.(rts := c.rts - {WaitMigr}, waitmigr := NONE, rcode := EMOLNOTBIND, sem := c.sem + 1) else c
    requires e == if j in x.ulist then b.(rts := b.rts - {WaitUnbind}, waitunbind := NONE, rcode := OK, sem := b.sem + 1) else b
    ensures Released(x, j, a, e)
  {
  }

  /** What leaving the unbinding queue does to others. */
  lemma CutUAt(tb: Table, p: Slot, j: Slot)
    requires p < |tb.procs| && j < |tb.procs| && j != p
    ensures var a, b := tb.procs[j], CutU(tb, p).procs[j]; b == a.(ulist := b.ulist)
  {
  }

  lemma EmptiedInforms(tb: Table, p: Slot, j: Slot)
    requires ListsOk(tb, p) && j < |tb.procs| && j != p
    requires j in tb.procs[p].mlist || j in tb.procs[p].ulist ==> tb.procs[j].IsLocal()
    ensures Released(tb.procs[p], j, tb.procs[j], Emptied(tb, p).procs[j])
  {
    CutAt(tb, p, j);
    var c := CutM(CutP(tb, p), p);
    MigrAnswer(c, p, j);
    var h := Drained(c, MigrWaitersDied, p);
    CutUAt(h, p, j);
    UnbindAnswer(CutU(h, p), p, j);
    ReleasedTwice(tb.procs[p], j, tb.procs[j], c.procs[j], h.procs[j], CutU(h, p).procs[j], Emptied(tb, p).procs[j]);
  }

  lemma Inform(tb: Table, p: Slot, j: Slot, c: Proc, b: Proc)
    requires p < |tb.procs| && j < |tb.procs| && HalfInformed(tb, p, j, c) && Released(tb.procs[p], j, c, b)
    requires j in tb.procs[p].mlist || j in tb.procs[p].ulist ==> tb.procs[j].IsLocal()
    ensures Informed(tb, p, j, b)
  {
  }

  /** do_unbind, seen by any other process: which waits end, with which code or acknowledgement,
      and that nothing else of its descriptor changes. */
  lemma UnbindInforms(tb: Table, p: Slot, j: Slot)
    requires QueueInv(tb) && p < |tb.procs| && j < |tb.procs| && j != p
    ensures ListsOk(tb, p) && |Unbound(tb, p).procs| == |tb.procs|
    ensures Informed(tb, p, j, Unbound(tb, p).procs[j])
    ensures
      var a, b := tb.procs[j], Unbound(tb, p).procs[j];
      b.plist == Without(a.plist, p) && b.mlist == Without(a.mlist, p) && b.ulist == Without(a.ulist, p)
  {
    InvGivesAnsweredLists(tb, p);
    UnboundAt(tb, p, j);
    AnsweredInforms(tb, p, j);
    var t := Answered(tb, p);
    EmptiedInforms(t, p, j);
    InformAt(tb, p, j, t);
  }

  lemma InformAt(tb: Table, p: Slot, j: Slot, t: Table)
    requires ListsOk(tb, p) && j < |tb.procs| && j != p && t == Answered(tb, p) && ListsOk(t, p)
    requires HalfInformed(tb, p, j, t.procs[j]) && Released(t.procs[p], j, t.procs[j], Emptied(t, p).procs[j])
    requires j in tb.procs[p].mlist || j in tb.procs[p].ulist ==> tb.procs[j].IsLocal()
    ensures |Unbound(tb, p).procs| == |tb.procs| && Informed(tb, p, j, Unbound(tb, p).procs[j])
  {
    Inform(tb, p, j, t.procs[j], Emptied(t, p).procs[j]);
  }

  /** Who is on a proxy queue afterwards: who was, and the remote processes just acknowledged whose
      node has a proxy. */
  lemma UnbindQueues(tb: Table, p: Slot, j: Slot)
    requires QueueInv(tb) && p < |tb.procs| && j < |tb.procs| && j != p
    ensures ListsOk(tb, p)
    ensures
      var x, a := tb.procs[p], tb.procs[j];
      j in Unbound(tb, p).outq <==> j in tb.outq || (a.IsRemote() && a.nodeid in tb.net.route && Acked(x, j, a))
  {
    InvGivesLists(tb, p);
    UnboundOutq(tb, p);
    SourceAcksMember(tb, p, j);
  }
}
