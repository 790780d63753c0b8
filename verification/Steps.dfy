/**
 What one step of a DC does to the SENDING and SLOT_FREE flags of any descriptor: only a send
 of its own opens a send, and only binding, unbinding and a failing proxy change which slots
 are free.
 */
module Steps {
  import opened Descriptors
  import opened ProcTable
  import opened Detach
  import opened QueueOps
  import opened QueueRuns

  /** b is no longer sending, or still sends to where a did. */
  ghost predicate NoNewSend(a: Proc, b: Proc) {
    Sending in b.rts ==> Sending in a.rts && a.sendto == b.sendto && (a.IsRemote() ==> b.IsRemote())
  }

  /** b is no local process unless a was, on the same node. */
  ghost predicate NotMoved(a: Proc, b: Proc) {
    b.IsLocal() ==> a.IsLocal() && b.nodeid == a.nodeid
  }

  ghost predicate Kept(a: Proc, b: Proc) {
    NoNewSend(a, b) && b.Free() == a.Free() && NotMoved(a, b)
  }

  /** No descriptor opens a send, none is freed, none is bound and none comes to this node. */
  ghost predicate Quiet(tb: Table, t: Table) {
    |t.procs| == |tb.procs|
    && forall j {:trigger Kept(tb.procs[j], t.procs[j])} :: 0 <= j < |tb.procs| ==> Kept(tb.procs[j], t.procs[j])
  }

  lemma QuietTwice(tb: Table, t: Table, u: Table)
    requires Quiet(tb, t) && Quiet(t, u)
    ensures Quiet(tb, u)
  {
    forall j | 0 <= j < |tb.procs| ensures Kept(tb.procs[j], u.procs[j]) {
      assert Kept(tb.procs[j], t.procs[j]) && Kept(t.procs[j], u.procs[j]);
    }
  }

  lemma AfterQuiet(net: Net, kind: DrainKind, ep: int, x: Proc)
    ensures Kept(x, After(net, kind, ep)(x))
  {
  }

  lemma DrainQuiet(tb: Table, kind: DrainKind, p: Slot)
    requires p < |tb.procs| && ListOk(tb, p, QueueOf(kind, tb.procs[p]))
    ensures Quiet(tb, Drained(tb, kind, p))
  {
    forall j | 0 <= j < |tb.procs| ensures Kept(tb.procs[j], Drained(tb, kind, p).procs[j]) {
      AfterQuiet(tb.net, kind, tb.procs[p].endpoint, tb.procs[j]);
    }
  }

  lemma TellQuiet(net: Net, ep: int, r: Proc)
    ensures Kept(r, TellReceiver(net, ep, r))
  {
  }

  lemma NoticedQuiet(net: Net, ep: int, sid: nat, nrSys: nat, r: Proc)
    ensures Kept(r, Noticed(net, ep, sid, nrSys)(r))
  {
    TellQuiet(net, ep, DropNotify(sid, nrSys, r));
  }

  lemma AnsweredQuiet(tb: Table, p: Slot)
    requires ListsOk(tb, p)
    ensures Quiet(tb, Answered(tb, p))
  {
    DrainQuiet(tb, SendersDied, p);
    var t := Drained(tb, SendersDied, p);
    forall j | 0 <= j < |t.procs| ensures Kept(t.procs[j], NoticedAll(t, p).procs[j]) {
      NoticedQuiet(t.net, t.procs[p].endpoint, t.procs[p].sid, t.nrSys, t.procs[j]);
    }
    QuietTwice(tb, t, NoticedAll(t, p));
  }

  lemma CutPQuiet(tb: Table, p: Slot)
    requires p < |tb.procs|
    ensures Quiet(tb, CutP(tb, p))
  {
  }

  lemma CutMQuiet(tb: Table, p: Slot)
    requires p < |tb.procs|
    ensures Quiet(tb, CutM(tb, p))
  {
  }

  lemma CutUQuiet(tb: Table, p: Slot)
    requires p < |tb.procs|
    ensures Quiet(tb, CutU(tb, p))
  {
  }

  lemma HalfEmptiedQuiet(tb: Table, p: Slot)
    requires ListsOk(tb, p)
    ensures Quiet(tb, HalfEmptied(tb, p))
  {
    var c := CutP(tb, p);
    CutPQuiet(tb, p);
    var a := CutM(c, p);
    CutMQuiet(c, p);
    QuietTwice(tb, c, a);
    DrainQuiet(a, MigrWaitersDied, p);
    var b := Drained(a, MigrWaitersDied, p);
    QuietTwice(tb, a, b);
    CutUQuiet(b, p);
    QuietTwice(tb, b, CutU(b, p));
  }

  lemma EmptiedQuiet(tb: Table, p: Slot)
    requires ListsOk(tb, p)
    ensures Quiet(tb, Emptied(tb, p))
  {
    HalfEmptiedQuiet(tb, p);
    var h := HalfEmptied(tb, p);
    DrainQuiet(h, UnbindWaiters, p);
    QuietTwice(tb, h, Drained(h, UnbindWaiters, p));
  }

  /** A change of one descriptor that neither puts it into SENDING nor frees or binds it. */
  lemma PutQuiet(tb: Table, p: Slot, z: Proc)
    requires p < |tb.procs| && Kept(tb.procs[p], z)
    ensures Quiet(tb, Put(tb, p, z))
  {
  }

  lemma DroppingQuiet(tb: Table, p: Slot, fromP: bool, fromM: bool, fromU: bool)
    ensures Quiet(tb, Dropping(tb, p, fromP, fromM, fromU))
  {
  }

  lemma TakenQuiet(t: Table, u: Table, y: Slot)
    requires |u.procs| == |t.procs| && y < |t.procs| && u.procs == t.procs[y := u.procs[y]]
    requires
      var a, b := t.procs[y], u.procs[y];
      b == a || (Sending !in b.rts && b.Free() == a.Free() && b.IsRemote() == a.IsRemote() && b.nodeid == a.nodeid)
    ensures Quiet(t, u)
  {
  }

  /** do_unbind frees its slot and is quiet otherwise. */
  lemma UnboundQuiet(tb: Table, p: Slot)
    requires ListsOk(tb, p)
    ensures |Unbound(tb, p).procs| == |tb.procs| && Unbound(tb, p).procs[p].rts == {SlotFree}
    ensures forall j {:trigger Kept(tb.procs[j], Unbound(tb, p).procs[j])} ::
              0 <= j < |tb.procs| && j != p ==> Kept(tb.procs[j], Unbound(tb, p).procs[j])
  {
    AnsweredQuiet(tb, p);
    var a := Answered(tb, p);
    EmptiedQuiet(a, p);
    QuietTwice(tb, a, Emptied(a, p));
    UnboundLast(tb, p, Emptied(a, p));
  }

  lemma UnboundLast(tb: Table, p: Slot, e: Table)
    requires ListsOk(tb, p) && e == Emptied(Answered(tb, p), p) && Quiet(tb, e)
    ensures |Unbound(tb, p).procs| == |tb.procs| && Unbound(tb, p).procs[p].rts == {SlotFree}
    ensures forall j {:trigger Kept(tb.procs[j], Unbound(tb, p).procs[j])} ::
              0 <= j < |tb.procs| && j != p ==> Kept(tb.procs[j], Unbound(tb, p).procs[j])
  {
    assert Unbound(tb, p).procs == e.procs[p := InitProc(e.procs[p], tb.dcid)];
    forall j | 0 <= j < |tb.procs| && j != p ensures Kept(tb.procs[j], Unbound(tb, p).procs[j]) {
      assert Kept(tb.procs[j], e.procs[j]);
    }
  }

  // ---- steps that open a send ----

  ghost predicate Opened(a: Proc, b: Proc, ep: int) {
    && Sending !in a.rts && Sending in b.rts && b.sendto == ep
    && b.IsRemote() == a.IsRemote() && b.Free() == a.Free() && b.nodeid == a.nodeid
  }

  /** Quiet but for x, which may open a send to endpoint ep. */
  ghost predicate Opens(tb: Table, t: Table, x: Slot, ep: int) {
    |t.procs| == |tb.procs|
    && forall j {:trigger Kept(tb.procs[j], t.procs[j])} :: 0 <= j < |tb.procs| ==>
         Kept(tb.procs[j], t.procs[j]) || (j == x && Opened(tb.procs[j], t.procs[j], ep))
  }

  lemma RemoteSendOpens(tb: Table, x: Slot, d: Slot, rec: bool, cmd: nat)
    requires x < |tb.procs| && d < |tb.procs| && x != d && tb.procs[d].nodeid in tb.net.route
    requires Sending !in tb.procs[x].rts
    ensures Opens(tb, RemoteSend(tb, x, d, rec, cmd), x, tb.procs[d].endpoint)
  {
  }

  lemma SendOnOpens(tb: Table, x: Slot, d: Slot, rec: bool)
    requires x < |tb.procs| && d < |tb.procs| && x != d && Sending !in tb.procs[x].rts
    ensures Opens(tb, SendOn(tb, x, d, rec), x, tb.procs[d].endpoint)
  {
    if tb.procs[d].IsRemote() && tb.procs[d].nodeid in tb.net.route {
      RemoteSendOpens(tb, x, d, rec, if rec then CMD_SNDREC_MSG else CMD_SEND_MSG);
    }
  }

  lemma SendToOpens(tb: Table, x: Slot, d: Slot, rec: bool)
    requires x < |tb.procs| && d < |tb.procs| && Sending !in tb.procs[x].rts
    ensures Opens(tb, SendTo(tb, x, d, rec), x, tb.procs[d].endpoint)
  {
    if x != d {
      SendOnOpens(tb, x, d, rec);
    }
  }

  lemma WarnOpens(tb: Table, c: Slot, w: Slot)
    requires c < |tb.procs| && w < |tb.procs|
    ensures Opens(tb, Warn(tb, c, w), c, tb.procs[w].endpoint)
  {
    var s := tb.procs[c];
    if Ready(s) && c != w {
      SendOnOpens(tb, c, w, true);
      var t := Put(tb, c, s.(getfrom := tb.procs[w].endpoint));
      SendOnOpens(t, c, w, false);
      WarnedOpens(tb, t, SendOn(t, c, w, false), c, tb.procs[w].endpoint);
    }
  }

  lemma WarnedOpens(tb: Table, t: Table, u: Table, c: Slot, ep: int)
    requires c < |tb.procs| && t == Put(tb, c, tb.procs[c].(getfrom := ep)) && Opens(t, u, c, ep)
    ensures Opens(tb, u, c, ep)
  {
    forall j | 0 <= j < |tb.procs| ensures Kept(tb.procs[j], u.procs[j]) || (j == c && Opened(tb.procs[j], u.procs[j], ep)) {
      assert Kept(t.procs[j], u.procs[j]) || (j == c && Opened(t.procs[j], u.procs[j], ep));
    }
  }

  lemma NotifyOpens(tb: Table, x: Slot, d: Slot)
    requires x < |tb.procs| && d < |tb.procs|
    ensures Opens(tb, Notify(tb, x, d), x, tb.procs[d].endpoint)
  {
    if Ready(tb.procs[x]) && x != d && tb.procs[d].nodeid in tb.net.route {
      RemoteSendOpens(tb, x, d, false, CMD_NTFY_MSG);
    }
  }

  lemma ArriveOpens(tb: Table, r: Slot, d: Slot, rec: bool)
    requires r < |tb.procs| && d < |tb.procs|
    ensures Opens(tb, Arrive(tb, r, d, rec), r, tb.procs[d].endpoint)
    ensures Arrive(tb, r, d, rec) != tb ==> tb.procs[r].IsRemote()
  {
  }

  /** The process that may open a send in step e, and to whom. */
  predicate IsSend(e: Event) {
    e.EvSend? || e.EvResend? || e.EvNotify? || e.EvWarn?
  }

  function Sender(e: Event): Slot
    requires IsSend(e) || e.EvArrive?
  {
    if e.EvArrive? then e.r else if e.EvWarn? then e.c else e.x
  }

  function Dest(e: Event): Slot
    requires IsSend(e) || e.EvArrive?
  {
    if e.EvWarn? then e.w else e.d
  }

  lemma StepOpens(tb: Table, e: Event)
    requires (IsSend(e) || e.EvArrive?) && Sender(e) < |tb.procs| && Dest(e) < |tb.procs|
    ensures Opens(tb, Step(tb, e), Sender(e), tb.procs[Dest(e)].endpoint)
    ensures e.EvArrive? && Step(tb, e) != tb ==> tb.procs[Sender(e)].IsRemote()
  {
    match e
    case EvSend(x, d, rec) => if tb.procs[x].rts == {} { SendToOpens(tb, x, d, rec); }
    case EvResend(x, d, rec) => if Ready(tb.procs[x]) { SendToOpens(tb, x, d, rec); }
    case EvNotify(x, d) => NotifyOpens(tb, x, d);
    case EvWarn(c, w) => WarnOpens(tb, c, w);
    case EvArrive(r, d, rec) => ArriveOpens(tb, r, d, rec);
  }

  // ---- quiet steps ----

  lemma ReceiveQuiet(tb: Table, x: Slot, ep: int)
    requires x < |tb.procs|
    ensures Quiet(tb, Receive(tb, x, ep))
  {
    var me := tb.procs[x];
    if me.rts == {} {
      var hit := FirstFrom(tb, me.plist, ep);
      var bit := FirstBit(me.notify, 0, tb.nrSys);
      if bit < tb.nrSys {
        PutQuiet(tb, x, me.(notify := me.notify - {bit}));
      } else if hit == [] {
        PutQuiet(tb, x, me.(rts := {Receiving}, getfrom := ep));
      } else {
        var y := hit[0];
        assert y in hit;
        var t, u := Dropping(tb, y, true, false, false), Receive(tb, x, ep);
        DroppingQuiet(tb, y, true, false, false);
        TakenQuiet(t, u, y);
        QuietTwice(tb, t, u);
      }
    }
  }

  lemma LeaveQuiet(tb: Table, p: Slot, node: int)
    requires ListsOk(tb, p)
    ensures Quiet(tb, LeaveNode(tb, p, node))
  {
    var x := tb.procs[p];
    if Migrate in x.rts && x.IsLocal() {
      var a := Put(tb, p, BecomeRemote(x, node));
      PutQuiet(tb, p, BecomeRemote(x, node));
      DrainQuiet(a, SendersReplay, p);
      var b := Drained(a, SendersReplay, p);
      DrainQuiet(b, MigrDone, p);
      QuietTwice(tb, a, b);
      QuietTwice(tb, b, Drained(b, MigrDone, p));
    }
  }

  lemma ThawQuiet(tb: Table, p: Slot, node: int)
    requires ListsOk(tb, p)
    ensures Quiet(tb, Thaw(tb, p, node))
  {
    var x := tb.procs[p];
    if !x.Free() && x.IsRemote() {
      var z := x.(rts := x.rts - {Migrate}, misc := x.misc - {NeedMigr}, nodeid := node);
      PutQuiet(tb, p, z);
      DrainQuiet(Put(tb, p, z), MigrDone, p);
      QuietTwice(tb, Put(tb, p, z), Drained(Put(tb, p, z), MigrDone, p));
    }
  }

  lemma RollBackQuiet(tb: Table, p: Slot)
    requires ListsOk(tb, p)
    ensures Quiet(tb, RollBack(tb, p))
  {
    var x := tb.procs[p];
    var z := x.(rts := x.rts - {Migrate}, misc := x.misc - {NeedMigr});
    PutQuiet(tb, p, z);
    if !x.Free() && x.IsLocal() {
      DrainQuiet(Put(tb, p, z), MigrDone, p);
      var t := Drained(Put(tb, p, z), MigrDone, p);
      QuietTwice(tb, Put(tb, p, z), t);
      PutQuiet(t, p, Up(t.procs[p], OK));
      QuietTwice(tb, t, Put(t, p, Up(t.procs[p], OK)));
    }
  }

  lemma GiveUpQuiet(tb: Table, x: Slot, rmt: bool, rec: bool)
    requires x < |tb.procs|
    ensures Quiet(tb, GiveUp(tb, x, rmt, rec))
  {
    var s := tb.procs[x];
    if !(s.Free() || (RmtOper in s.rts && !rmt) || (Receiving in s.rts && !rec)) {
      var t := if Sending in s.rts then Dropping(tb, x, true, false, false) else tb;
      DroppingQuiet(tb, x, true, false, false);
      PutQuiet(t, x, GivenUp(t.procs[x], rmt, rec));
      QuietTwice(tb, t, GiveUp(tb, x, rmt, rec));
    }
  }

  lemma TimeoutQuiet(tb: Table, x: Slot)
    requires x < |tb.procs|
    ensures Quiet(tb, UnbindTimeout(tb, x))
  {
  }

  lemma ProxyTakeQuiet(tb: Table, x: Slot)
    ensures Quiet(tb, ProxyTake(tb, x))
  {
  }

  lemma FlushSenderQuiet(tb: Table, x: Slot, node: int)
    ensures Quiet(tb, FlushSender(tb, x, node))
  {
  }

  lemma FlushReceiversQuiet(tb: Table, node: int)
    ensures Quiet(tb, FlushReceivers(tb, node))
  {
    forall j | 0 <= j < |tb.procs| ensures Kept(tb.procs[j], FlushReceivers(tb, node).procs[j]) {
      UnheardAt(tb, node, tb.procs[j]);
    }
  }

  /** The proxy turning x down: quiet unless that slot was free. */
  lemma ProxyFailQuiet(tb: Table, x: Slot, rcode: int)
    ensures |ProxyFail(tb, x, rcode).procs| == |tb.procs|
    ensures forall j :: 0 <= j < |tb.procs| ==> NoNewSend(tb.procs[j], ProxyFail(tb, x, rcode).procs[j])
    ensures !Raises(tb, x) ==> Quiet(tb, ProxyFail(tb, x, rcode))
    ensures Raises(tb, x) ==>
              var t := ProxyFail(tb, x, rcode);
              !t.procs[x].Free() && forall j :: 0 <= j < |tb.procs| && j != x ==> t.procs[j].Free() == tb.procs[j].Free()
  {
  }

  /** The slot x on a proxy queue is free: its flags would be reset to those of a running process. */
  predicate Raises(tb: Table, x: Slot) {
    x in tb.outq && x < |tb.procs| && tb.procs[x].Free()
  }

  lemma IpcQuiet(tb: Table, e: Event)
    requires e.EvReceive? || e.EvReceiveExit? || e.EvProxyTake? || e.EvSendAck?
    ensures Quiet(tb, Step(tb, e))
  {
    var n := |tb.procs|;
    match e
    case EvReceive(x, ep) => if x < n { ReceiveQuiet(tb, x, ep); }
    case EvReceiveExit(_) =>
    case EvProxyTake(x) => ProxyTakeQuiet(tb, x);
    case EvSendAck(_, _, _) =>
  }

  lemma WaitQuiet(tb: Table, e: Event)
    requires IsWait(e) && !e.EvBind? && !e.EvAutobind?
    ensures Quiet(tb, Step(tb, e))
  {
    match e
    case EvUnbindTimeout(x) => if x < |tb.procs| { TimeoutQuiet(tb, x); }
    case EvRollback(p) => if ListsOk(tb, p) { RollBackQuiet(tb, p); }
    case EvThaw(p, node) => if ListsOk(tb, p) { ThawQuiet(tb, p, node); }
    case EvFlushSender(x, node) => FlushSenderQuiet(tb, x, node);
    case _ =>
  }

  lemma WokenQuiet(tb: Table, x: Slot)
    requires x < |tb.procs|
    ensures Quiet(tb, UnbindWoken(tb, x))
  {
  }

  lemma ExitQuiet(tb: Table, e: Event)
    requires e.EvUnbindWoken? || e.EvGiveUp? || e.EvFlushReceivers?
    ensures Quiet(tb, Step(tb, e))
  {
    match e
    case EvGiveUp(x, rmt, rec) => if x < |tb.procs| { GiveUpQuiet(tb, x, rmt, rec); }
    case EvFlushReceivers(node) => FlushReceiversQuiet(tb, node);
    case EvUnbindWoken(x) => if x < |tb.procs| { WokenQuiet(tb, x); }
  }

  lemma HardQuiet(tb: Table, e: Event)
    requires e.EvLeave? || e.EvRewire?
    ensures Quiet(tb, Step(tb, e))
  {
    if e.EvLeave? && ListsOk(tb, e.p) {
      LeaveQuiet(tb, e.p, e.node);
    }
  }

  /** Steps that open no send, bind and free no slot and bring no process to this node. */
  predicate IsQuiet(e: Event) {
    || e.EvReceive? || e.EvReceiveExit? || e.EvProxyTake? || e.EvSendAck?
    || (IsWait(e) && !e.EvBind? && !e.EvAutobind?)
    || e.EvUnbindWoken? || e.EvGiveUp? || e.EvFlushReceivers? || e.EvLeave? || e.EvRewire?
  }

  lemma StepQuiet(tb: Table, e: Event)
    requires IsQuiet(e)
    ensures Quiet(tb, Step(tb, e))
  {
    if IsIpc(e) {
      IpcQuiet(tb, e);
    } else if IsWait(e) {
      WaitQuiet(tb, e);
    } else if e.EvLeave? || e.EvRewire? {
      HardQuiet(tb, e);
    } else {
      ExitQuiet(tb, e);
    }
  }

  /** A process coming to this node runs, in the slot it had. */
  lemma EnterSends(tb: Table, p: Slot, l: Slot)
    requires l < |tb.procs|
    ensures
      var t := Step(tb, EvEnter(p));
      && |t.procs| == |tb.procs| && NoNewSend(tb.procs[l], t.procs[l]) && t.procs[l].Free() == tb.procs[l].Free()
      && (t.procs[l] == tb.procs[l] || t.procs[l].nodeid == tb.net.local)
  {
  }

  lemma BindSends(tb: Table, e: Event, l: Slot)
    requires (e.EvBind? || e.EvAutobind?) && l < |tb.procs|
    ensures |Step(tb, e).procs| == |tb.procs| && NoNewSend(tb.procs[l], Step(tb, e).procs[l])
  {
  }

  lemma UnbindOfSends(tb: Table, p: Slot, l: Slot)
    requires l < |tb.procs|
    ensures |UnbindOf(tb, p).procs| == |tb.procs| && NoNewSend(tb.procs[l], UnbindOf(tb, p).procs[l])
  {
    if ListsOk(tb, p) && !tb.procs[p].Free() {
      UnboundQuiet(tb, p);
      if l != p {
        assert Kept(tb.procs[l], Unbound(tb, p).procs[l]);
      }
    }
  }

  lemma UnbindSends(tb: Table, p: Slot, l: Slot)
    requires l < |tb.procs|
    ensures |Step(tb, EvUnbind(p)).procs| == |tb.procs| && NoNewSend(tb.procs[l], Step(tb, EvUnbind(p)).procs[l])
  {
    UnbindOfSends(tb, p, l);
  }

  /** Every step but binding, unbinding and a failing proxy leaves the same slots free. */
  lemma StepFree(tb: Table, e: Event, j: Slot)
    requires j < |tb.procs| && !e.EvBind? && !e.EvAutobind? && !e.EvUnbind? && !e.EvProxyFail?
    ensures |Step(tb, e).procs| == |tb.procs| && Step(tb, e).procs[j].Free() == tb.procs[j].Free()
  {
    if IsSend(e) || e.EvArrive? {
      if Sender(e) < |tb.procs| && Dest(e) < |tb.procs| {
        StepOpens(tb, e);
        assert Kept(tb.procs[j], Step(tb, e).procs[j]) || Opened(tb.procs[j], Step(tb, e).procs[j], tb.procs[Dest(e)].endpoint);
      }
    } else if e.EvEnter? {
      EnterSends(tb, e.p, j);
    } else {
      StepQuiet(tb, e);
      assert Kept(tb.procs[j], Step(tb, e).procs[j]);
    }
  }

  // ---- where local processes live ----

  /** Every bound local process names this node as its own. */
  ghost predicate AtHome(tb: Table, x: Proc) {
    !x.Free() && x.IsLocal() ==> x.nodeid == tb.net.local
  }

  ghost predicate Homed(tb: Table) {
    forall j :: 0 <= j < |tb.procs| ==> AtHome(tb, tb.procs[j])
  }

  lemma HereKept(tb: Table, e: Event)
    ensures Step(tb, e).net.local == tb.net.local
  {
  }

  lemma StepSameSize(tb: Table, e: Event)
    ensures |Step(tb, e).procs| == |tb.procs|
  {
    if |tb.procs| > 0 {
      if e.EvBind? || e.EvAutobind? {
        BindSends(tb, e, 0);
      } else if e.EvUnbind? {
        UnbindSends(tb, e.p, 0);
      } else if e.EvProxyFail? {
        ProxyFailQuiet(tb, e.x, e.rcode);
      } else {
        StepFree(tb, e, 0);
      }
    }
  }

  lemma UnbindAtHome(tb: Table, p: Slot, j: Slot)
    requires j < |tb.procs| && AtHome(tb, tb.procs[j])
    ensures |UnbindOf(tb, p).procs| == |tb.procs| && AtHome(tb, UnbindOf(tb, p).procs[j])
  {
    if ListsOk(tb, p) && !tb.procs[p].Free() {
      UnboundQuiet(tb, p);
      if j != p {
        assert Kept(tb.procs[j], Unbound(tb, p).procs[j]);
      }
    }
  }

  lemma StepAtHome(tb: Table, e: Event, j: Slot)
    requires QueueInv(tb) && j < |tb.procs| && AtHome(tb, tb.procs[j])
    ensures |Step(tb, e).procs| == |tb.procs| && AtHome(tb, Step(tb, e).procs[j])
  {
    if IsSend(e) || e.EvArrive? {
      if Sender(e) < |tb.procs| && Dest(e) < |tb.procs| {
        StepOpens(tb, e);
        assert Kept(tb.procs[j], Step(tb, e).procs[j]) || Opened(tb.procs[j], Step(tb, e).procs[j], tb.procs[Dest(e)].endpoint);
      }
    } else if e.EvUnbind? {
      UnbindAtHome(tb, e.p, j);
    } else if e.EvEnter? {
      EnterSends(tb, e.p, j);
    } else if e.EvProxyFail? {
      ProxyFailQuiet(tb, e.x, e.rcode);
      assert Kept(tb.procs[j], ProxyFail(tb, e.x, e.rcode).procs[j]);
    } else if IsQuiet(e) {
      StepQuiet(tb, e);
      assert Kept(tb.procs[j], Step(tb, e).procs[j]);
    }
  }

  /** In every run the bound local processes are those of this node. */
  lemma {:induction false} EveryRunHomed(ts: seq<Table>, es: seq<Event>, k: nat)
    requires IsRun(ts, es) && Fresh(ts[0]) && k < |ts|
    ensures Homed(ts[k])
  {
    if k > 0 {
      EveryRunHomed(ts, es, k - 1);
      EveryRunKeepsQueues(ts, es, k - 1);
      HereKept(ts[k - 1], es[k - 1]);
      StepSameSize(ts[k - 1], es[k - 1]);
      forall j: Slot | j < |ts[k].procs| ensures AtHome(ts[k], ts[k].procs[j]) {
        StepAtHome(ts[k - 1], es[k - 1], j);
      }
    }
  }

  /** So no disconnection of another node breaks the queues: the flushes of both proxies keep the
      invariant in every run. */
  lemma DisconnectionKeepsQueues(ts: seq<Table>, es: seq<Event>, k: nat, node: int, x: Slot)
    requires IsRun(ts, es) && Fresh(ts[0]) && k < |ts| && node != ts[k].net.local
    ensures Legal(ts[k], EvFlushReceivers(node)) && QueueInv(FlushReceivers(ts[k], node))
    ensures QueueInv(FlushSender(ts[k], x, node))
  {
    var t := ts[k];
    EveryRunKeepsQueues(ts, es, k);
    EveryRunHomed(ts, es, k);
    forall o, y: Slot | 0 <= o < |t.procs| && y in t.procs[o].plist ensures t.procs[o].nodeid != node {
      assert OwnerOk(t, t.procs[o]) && AtHome(t, t.procs[o]);
    }
    FlushReceiversKeepsInvIff(t, node);
    FlushSenderInv(t, x, node);
  }
}
