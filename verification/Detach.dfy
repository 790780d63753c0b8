/**
 What do_unbind leaves behind: the queue invariant of a process table, full
 detachment of the unbound process, and the exact condition under which the
 clean-up keeps the invariant.
 */
module Detach {
  import opened Descriptors
  import opened ProcTable

  // ---- the queue invariant ----

  /** The slot inside an endpoint is the slot that carries it. */
  ghost predicate EndpointsOk(tb: Table) {
    && tb.nrTasks <= NR_TASKS && |tb.procs| <= 256
    && (forall i :: 0 <= i < |tb.procs| ==> SlotOf(tb.nrTasks, tb.procs[i].endpoint) == i)
    && (forall n :: n in tb.net.route ==> tb.net.route[n] != NONE)
  }

  ghost predicate BoundSlot(tb: Table, x: Slot) {
    x < |tb.procs| && !tb.procs[x].Free()
  }

  /** A member of a senders' queue is blocked sending to the owner, and its link is on no proxy queue. */
  ghost predicate SendersOk(tb: Table) {
    forall o, x: Slot {:trigger x in tb.procs[o].plist} :: 0 <= o < |tb.procs| && x in tb.procs[o].plist ==>
      && BoundSlot(tb, x) && x != o && x !in tb.outq
      && Sending in tb.procs[x].rts && tb.procs[x].sendto == tb.procs[o].endpoint
  }

  /** A member of a migration queue is a local process waiting for the owner to migrate. */
  ghost predicate MigrWaitersOk(tb: Table) {
    forall o, x: Slot {:trigger x in tb.procs[o].mlist} :: 0 <= o < |tb.procs| && x in tb.procs[o].mlist ==>
      && BoundSlot(tb, x) && x != o && tb.procs[x].IsLocal()
      && WaitMigr in tb.procs[x].rts && tb.procs[x].waitmigr == tb.procs[o].endpoint
  }

  /** A member of an unbind queue is a local process waiting for the owner to unbind. */
  ghost predicate UnbindWaitersOk(tb: Table) {
    forall o, x: Slot {:trigger x in tb.procs[o].ulist} :: 0 <= o < |tb.procs| && x in tb.procs[o].ulist ==>
      && BoundSlot(tb, x) && x != o && tb.procs[x].IsLocal()
      && WaitUnbind in tb.procs[x].rts && tb.procs[x].waitunbind == tb.procs[o].endpoint
  }

  /** A descriptor on a proxy queue is there once and is marked as in a remote operation. */
  ghost predicate OutqOk(tb: Table) {
    && NoDup(tb.outq)
    && forall x: Slot :: x in tb.outq ==>
         BoundSlot(tb, x) && RmtOper in tb.procs[x].rts && tb.procs[x].proxy != NONE
  }

  ghost predicate OwnerOk(tb: Table, x: Proc) {
    && NoDup(x.plist) && NoDup(x.mlist) && NoDup(x.ulist)
    && (x.Free() ==> x.rts == {SlotFree} && x.plist == [] && x.mlist == [] && x.ulist == [])
    && (x.IsRemote() ==> x.plist == [])
    && (forall b :: b in x.notify ==> b < tb.nrSys)
  }

  ghost predicate OwnersOk(tb: Table) {
    forall o :: 0 <= o < |tb.procs| ==> OwnerOk(tb, tb.procs[o])
  }

  ghost predicate QueueInv(tb: Table) {
    EndpointsOk(tb) && OwnersOk(tb) && OutqOk(tb) && SendersOk(tb) && MigrWaitersOk(tb) && UnbindWaitersOk(tb)
  }

  lemma InvGivesLists(tb: Table, p: Slot)
    requires QueueInv(tb) && p < |tb.procs|
    ensures ListsOk(tb, p)
  {
  }

  // ---- what the clean-up does to one other descriptor ----

  /** b is a with only flags, targets, command, return code, pending notifications and wake-ups
      changed. */
  ghost predicate Frame(a: Proc, b: Proc) {
    && b.plist == a.plist && b.mlist == a.mlist && b.ulist == a.ulist
    && b.endpoint == a.endpoint && b.nodeid == a.nodeid && b.IsRemote() == a.IsRemote() && b.Free() == a.Free()
    && b.sem >= a.sem && b.notify <= a.notify && b.misc == a.misc && b.dcid == a.dcid && b.sid == a.sid
  }

  lemma AfterFrame(net: Net, kind: DrainKind, ep: int, x: Proc)
    ensures Frame(x, After(net, kind, ep)(x))
    ensures x.IsLocal() && kind in {SendersDied, MigrWaitersDied, UnbindWaiters}
            ==> After(net, kind, ep)(x).sem == x.sem + 1
  {
  }

  lemma TellFrame(net: Net, ep: int, x: Proc)
    ensures Frame(x, TellReceiver(net, ep, x))
    ensures TellReceiver(net, ep, x).sem == x.sem + if AwaitsMessageFrom(x, ep) && x.IsLocal() then 1 else 0
  {
  }

  lemma NoticedFrame(net: Net, ep: int, sid: nat, nrSys: nat, x: Proc)
    ensures var y := Noticed(net, ep, sid, nrSys)(x);
            && Frame(x, y) && (sid < nrSys && !x.Free() ==> sid !in y.notify)
            && y.sem == x.sem + if AwaitsMessageFrom(x, ep) && x.IsLocal() then 1 else 0
  {
    var d := DropNotify(sid, nrSys, x);
    TellFrame(net, ep, d);
  }

  lemma DrainAt(tb: Table, kind: DrainKind, p: Slot, j: Slot)
    requires p < |tb.procs| && ListOk(tb, p, QueueOf(kind, tb.procs[p])) && j < |tb.procs| && j != p
    ensures
      var a, t := tb.procs[j], Drained(tb, kind, p);
      && Frame(a, t.procs[j]) && (j !in QueueOf(kind, tb.procs[p]) ==> t.procs[j] == a)
      && (kind in {SendersDied, MigrWaitersDied, UnbindWaiters} && j in QueueOf(kind, tb.procs[p]) && a.IsLocal()
          ==> t.procs[j].sem == a.sem + 1)
      && t.procs[p] == WithQueue(kind, tb.procs[p], [])
  {
    AfterFrame(tb.net, kind, tb.procs[p].endpoint, tb.procs[j]);
  }

  lemma AnsweredAt(tb: Table, p: Slot, j: Slot)
    requires ListsOk(tb, p) && j < |tb.procs| && j != p
    ensures
      var x, a, b := tb.procs[p], tb.procs[j], Answered(tb, p).procs[j];
      && Frame(a, b)
      && (x.sid < tb.nrSys && !a.Free() ==> x.sid !in b.notify)
      && (a.IsLocal() ==> (b.sem > a.sem <==> j in x.plist || AwaitsMessageFrom(a, x.endpoint)))
  {
    var x, a := tb.procs[p], tb.procs[j];
    var d := Drained(tb, SendersDied, p).procs[j];
    DrainAt(tb, SendersDied, p, j);
    NoticedFrame(tb.net, x.endpoint, x.sid, tb.nrSys, d);
    assert j in Others(|tb.procs|, p);
  }

  /** The three lists of a, with p taken off those that x, the descriptor of p, waits on. */
  ghost predicate ListsCut(tb: Table, p: Slot, a: Proc, b: Proc)
    requires p < |tb.procs|
  {
    var x := tb.procs[p];
    && b.plist == (if CutsLink(tb, x) then Without(a.plist, p) else a.plist)
    && b.mlist == (if WaitMigr in x.rts then Without(a.mlist, p) else a.mlist)
    && b.ulist == (if WaitUnbind in x.rts then Without(a.ulist, p) else a.ulist)
  }

  lemma CutAt(tb: Table, p: Slot, j: Slot)
    requires p < |tb.procs| && j < |tb.procs| && j != p
    ensures
      var x, a, t := tb.procs[p], tb.procs[j], CutM(CutP(tb, p), p);
      var b := t.procs[j];
      && b == a.(plist := if CutsLink(tb, x) then Without(a.plist, p) else a.plist,
                 mlist := if WaitMigr in x.rts then Without(a.mlist, p) else a.mlist)
      && t.outq == (if CutsLink(tb, x) then Without(tb.outq, p) else tb.outq)
      && (WaitUnbind in t.procs[p].rts <==> WaitUnbind in x.rts)
      && t.procs[p].ulist == x.ulist && t.procs[p].endpoint == x.endpoint && t.net == tb.net
  {
  }

  // ---- which wait states survive ----

  /** From a to b at most the flags in drop were lost, at most RmtOper was gained, and
      the targets of the surviving waits are the same. */
  ghost predicate Waits(net: Net, a: Proc, b: Proc, drop: set<RtsFlag>) {
    && a.rts - drop <= b.rts <= a.rts + {RmtOper}
    && b.sendto == a.sendto && b.getfrom == a.getfrom
    && (WaitMigr in drop || b.waitmigr == a.waitmigr)
    && (WaitUnbind in drop || b.waitunbind == a.waitunbind)
    && (b.proxy == a.proxy || exists n :: n in net.route && b.proxy == net.route[n])
  }

  function Dropped(kind: DrainKind): set<RtsFlag> {
    match kind
    case SendersDied => {Sending}
    case MigrWaitersDied => {WaitMigr}
    case UnbindWaiters => {WaitUnbind}
    case MigrDone => {WaitMigr}
    case SendersReplay => {Sending, Receiving}
  }

  lemma EffectWaits(net: Net, kind: DrainKind, ep: int, x: Proc)
    requires kind in {SendersDied, MigrWaitersDied, UnbindWaiters}
    ensures
      var y := After(net, kind, ep)(x);
      && Waits(net, x, y, Dropped(kind))
      && (Joins(net, kind)(x) ==> RmtOper in y.rts && y.proxy == net.route[x.nodeid])
      && (x.IsLocal() ==> y.rts == x.rts - Dropped(kind))
  {
  }

  lemma TellWaits(net: Net, ep: int, sid: nat, nrSys: nat, x: Proc)
    ensures
      var y := Noticed(net, ep, sid, nrSys)(x);
      && Waits(net, x, y, if AwaitsMessageFrom(x, ep) && x.IsRemote() then {Receiving} else {})
      && (NoticeJoins(net, ep)(x) ==> RmtOper in y.rts && y.proxy == net.route[x.nodeid])
      && (x.Free() ==> y == x)
  {
  }

  lemma WaitsTwice(net: Net, a: Proc, b: Proc, c: Proc, d: set<RtsFlag>, e: set<RtsFlag>)
    requires Waits(net, a, b, d) && Waits(net, b, c, e)
    ensures Waits(net, a, c, d + e)
  {
  }

  /** What the first two passes do to the waits of another descriptor. */
  lemma AnsweredWaits(tb: Table, p: Slot, j: Slot)
    requires ListsOk(tb, p) && j < |tb.procs| && j != p
    ensures
      var x, a, b := tb.procs[p], tb.procs[j], Answered(tb, p).procs[j];
      && Waits(tb.net, a, b, {Receiving} + if j in x.plist then {Sending} else {})
      && (Sending in a.rts && j !in x.plist ==> Waits(tb.net, a, b, {}))
      && (a.Free() && j !in x.plist ==> b == a)
  {
    var x, a := tb.procs[p], tb.procs[j];
    var d := Drained(tb, SendersDied, p).procs[j];
    var dropped := if j in x.plist then {Sending} else {};
    EffectWaits(tb.net, SendersDied, x.endpoint, a);
    assert Waits(tb.net, a, d, dropped);
    TellWaits(tb.net, x.endpoint, x.sid, tb.nrSys, d);
    assert j in Others(|tb.procs|, p);
    var b := Answered(tb, p).procs[j];
    assert Waits(tb.net, d, b, {Receiving});
    WaitsTwice(tb.net, a, d, b, dropped, {Receiving});
    assert dropped + {Receiving} == {Receiving} + dropped;
  }

  lemma DrainWaits(tb: Table, kind: DrainKind, p: Slot, j: Slot)
    requires p < |tb.procs| && ListOk(tb, p, QueueOf(kind, tb.procs[p])) && j < |tb.procs| && j != p
    requires kind in {SendersDied, MigrWaitersDied, UnbindWaiters}
    ensures Waits(tb.net, tb.procs[j], Drained(tb, kind, p).procs[j],
                  if j in QueueOf(kind, tb.procs[p]) then Dropped(kind) else {})
    ensures j !in QueueOf(kind, tb.procs[p]) ==> Drained(tb, kind, p).procs[j] == tb.procs[j]
  {
    EffectWaits(tb.net, kind, tb.procs[p].endpoint, tb.procs[j]);
  }

  lemma HalfEmptiedAt(tb: Table, p: Slot, j: Slot)
    requires ListsOk(tb, p) && j < |tb.procs| && j != p
    ensures
      var x, a, u := tb.procs[p], tb.procs[j], HalfEmptied(tb, p);
      var b := u.procs[j];
      && ListsCut(tb, p, a, b) && Frame(a.(plist := b.plist, mlist := b.mlist, ulist := b.ulist), b)
      && (a.IsLocal() ==> (b.sem > a.sem <==> j in x.mlist))
      && Waits(tb.net, a, b, if j in x.mlist then {WaitMigr} else {})
      && (j !in x.mlist ==> b.rts == a.rts)
  {
    CutAt(tb, p, j);
    var t := CutM(CutP(tb, p), p);
    DrainAt(t, MigrWaitersDied, p, j);
    DrainWaits(t, MigrWaitersDied, p, j);
  }

  /** What the rest of the clean-up does to another descriptor. */
  lemma EmptiedAt(tb: Table, p: Slot, j: Slot)
    requires ListsOk(tb, p) && j < |tb.procs| && j != p
    ensures
      var x, a, b := tb.procs[p], tb.procs[j], Emptied(tb, p).procs[j];
      && ListsCut(tb, p, a, b) && Frame(a.(plist := b.plist, mlist := b.mlist, ulist := b.ulist), b)
      && (a.IsLocal() ==> (b.sem > a.sem <==> j in x.mlist || j in x.ulist))
      && Waits(tb.net, a, b, (if j in x.mlist then {WaitMigr} else {}) + (if j in x.ulist then {WaitUnbind} else {}))
      && (j !in x.mlist && j !in x.ulist ==> b.rts == a.rts)
  {
    HalfEmptiedAt(tb, p, j);
    var x, a, u := tb.procs[p], tb.procs[j], HalfEmptied(tb, p);
    DrainAt(u, UnbindWaiters, p, j);
    DrainWaits(u, UnbindWaiters, p, j);
    WaitsTwice(tb.net, a, u.procs[j], Emptied(tb, p).procs[j],
               if j in x.mlist then {WaitMigr} else {}, if j in x.ulist then {WaitUnbind} else {});
  }

  // ---- full detachment ----

  lemma InvGivesAnsweredLists(tb: Table, p: Slot)
    requires QueueInv(tb) && p < |tb.procs|
    ensures ListsOk(tb, p) && ListsOk(Answered(tb, p), p)
  {
  }

  /** If p is on the senders' queue of j, the clean-up finds the link. */
  lemma LinkFound(tb: Table, p: Slot, j: Slot)
    requires QueueInv(tb) && p < |tb.procs| && j < |tb.procs| && j != p
    requires ListsOk(tb, p)
    ensures p in tb.procs[j].plist ==> CutsLink(Answered(tb, p), Answered(tb, p).procs[p])
    ensures p in tb.outq ==> CutsLink(Answered(tb, p), Answered(tb, p).procs[p])
  {
    if p in tb.procs[j].plist {
      assert OwnerOk(tb, tb.procs[j]);
      AnsweredAt(tb, p, j);
    }
  }

  /** What wakes a local process j, of descriptor a, when x unbinds: it is on one of x's queues,
      or it waits for a message of x and is not still sending. */
  predicate WokenBy(x: Proc, j: Slot, a: Proc) {
    || j in x.plist || j in x.mlist || j in x.ulist
    || (!a.Free() && Receiving in a.rts && a.getfrom == x.endpoint && Sending !in a.rts)
  }

  /** How b, the later value of descriptor j, differs from its value in tb: it lost p from
      its queues and nothing else, it does not hold p's notify bit, and, if local, it was woken
      exactly if p wakes it. */
  ghost predicate DetachedFrom(tb: Table, p: Slot, j: Slot, b: Proc)
    requires p < |tb.procs| && j < |tb.procs|
  {
    var x, a := tb.procs[p], tb.procs[j];
    && b.plist == Without(a.plist, p) && b.mlist == Without(a.mlist, p) && b.ulist == Without(a.ulist, p)
    && b.endpoint == a.endpoint && b.IsRemote() == a.IsRemote() && b.Free() == a.Free()
    && b.notify <= a.notify && (!a.Free() ==> x.sid !in b.notify)
    && (a.IsLocal() ==> (b.sem > a.sem <==> WokenBy(x, j, a)))
  }

  /** The facts about the two halves of the clean-up, put together. */
  lemma Combine(tb: Table, t: Table, p: Slot, j: Slot, b: Proc)
    requires p < |tb.procs| == |t.procs| && j < |tb.procs|
    requires t.procs[p] == tb.procs[p].(plist := [])
    requires
      var x, a, c := tb.procs[p], tb.procs[j], t.procs[j];
      && Frame(a, c)
      && (!a.Free() ==> x.sid !in c.notify)
      && (a.IsLocal() ==> (c.sem > a.sem <==> j in x.plist || AwaitsMessageFrom(a, x.endpoint)))
      && ListsCut(t, p, c, b) && Frame(c.(plist := b.plist, mlist := b.mlist, ulist := b.ulist), b)
      && (c.IsLocal() ==> (b.sem > c.sem <==> j in x.mlist || j in x.ulist))
      && (p in a.plist ==> CutsLink(t, t.procs[p]))
      && (p in a.mlist ==> WaitMigr in x.rts) && (p in a.ulist ==> WaitUnbind in x.rts)
    ensures DetachedFrom(tb, p, j, b)
  {
  }

  lemma UnboundAt(tb: Table, p: Slot, j: Slot)
    requires QueueInv(tb) && p < |tb.procs| && j < |tb.procs| && j != p && ListsOk(tb, p)
    ensures |Unbound(tb, p).procs| == |tb.procs|
    ensures DetachedFrom(tb, p, j, Unbound(tb, p).procs[j])
  {
    InvGivesAnsweredLists(tb, p);
    LinkFound(tb, p, j);
    AnsweredAt(tb, p, j);
    var t := Answered(tb, p);
    EmptiedAt(t, p, j);
    assert OwnerOk(tb, tb.procs[j]);
    Combine(tb, t, p, j, Emptied(t, p).procs[j]);
  }

  // ---- the proxy queue ----

  /** Remote senders of p that are answered EMOLDSTDIED. */
  function SendAcks(tb: Table, p: Slot): seq<Slot>
    requires p < |tb.procs|
  {
    Pick(tb.procs, tb.procs[p].plist, Joins(tb.net, SendersDied))
  }

  /** Remote receivers of p that are answered EMOLSRCDIED by the second pass. */
  function SourceAcks(tb: Table, p: Slot): seq<Slot>
    requires ListsOk(tb, p)
  {
    Pick(Drained(tb, SendersDied, p).procs, Others(|tb.procs|, p), NoticeJoins(tb.net, tb.procs[p].endpoint))
  }

  lemma HalfEmptiedOutq(tb: Table, p: Slot)
    requires ListsOk(tb, p)
    requires forall x: Slot :: x in tb.procs[p].mlist ==> tb.procs[x].IsLocal()
    ensures HalfEmptied(tb, p).outq
            == if CutsLink(tb, tb.procs[p]) then Without(tb.outq, p) else tb.outq
  {
    var t := CutM(CutP(tb, p), p);
    var q := tb.procs[p].mlist;
    forall x: Slot | x in q ensures t.procs[x].IsLocal() {
      CutAt(tb, p, x);
    }
    PickNone(t.procs, q, Joins(tb.net, MigrWaitersDied));
  }

  lemma EmptiedOutq(tb: Table, p: Slot)
    requires ListsOk(tb, p)
    requires forall x: Slot :: x in tb.procs[p].mlist || x in tb.procs[p].ulist ==> tb.procs[x].IsLocal()
    ensures Emptied(tb, p).outq
            == if CutsLink(tb, tb.procs[p]) then Without(tb.outq, p) else tb.outq
  {
    HalfEmptiedOutq(tb, p);
    var u := HalfEmptied(tb, p);
    forall x: Slot | x in tb.procs[p].ulist ensures u.procs[x].IsLocal() {
      HalfEmptiedAt(tb, p, x);
    }
    PickNone(u.procs, u.procs[p].ulist, Joins(tb.net, UnbindWaiters));
  }

  lemma UnboundOutq(tb: Table, p: Slot)
    requires QueueInv(tb) && p < |tb.procs| && ListsOk(tb, p)
    ensures Unbound(tb, p).outq == Without(tb.outq + SendAcks(tb, p) + SourceAcks(tb, p), p)
    ensures p !in SendAcks(tb, p) && p !in SourceAcks(tb, p)
  {
    var t := Answered(tb, p);
    InvGivesAnsweredLists(tb, p);
    assert t.outq == tb.outq + SendAcks(tb, p) + SourceAcks(tb, p);
    forall x: Slot | x in t.procs[p].mlist || x in t.procs[p].ulist ensures t.procs[x].IsLocal() {
      AnsweredAt(tb, p, x);
    }
    EmptiedOutq(t, p);
  }

  lemma OutqAfter(tb: Table, p: Slot)
    requires QueueInv(tb) && p < |tb.procs| && ListsOk(tb, p)
    ensures p !in Unbound(tb, p).outq
    ensures forall x: Slot :: x in tb.outq && x != p ==> x in Unbound(tb, p).outq
    ensures forall x: Slot :: x in SendAcks(tb, p) || x in SourceAcks(tb, p) ==> x in Unbound(tb, p).outq
  {
    UnboundOutq(tb, p);
  }

  lemma SlotFreed(tb: Table, p: Slot)
    requires ListsOk(tb, p)
    ensures |Unbound(tb, p).procs| == |tb.procs| && Unbound(tb, p).procs[p] == InitProc(tb.procs[p], tb.dcid)
  {
  }

  /** Full detachment: when do_unbind reaches its final clean-up, the slot is free with
      empty queues, p is on nobody's queue and no proxy queue, no bound process keeps its
      notify bit, the other queues lost nothing but p, and every remote process whose message
      or request p will not take any more waits for the sender proxy, if its node has one. A
      local process was woken exactly if it was queued on p, or waited for a message of p with
      its own send already over. */
  lemma FullDetachment(tb: Table, p: Slot)
    requires QueueInv(tb) && p < |tb.procs|
    ensures ListsOk(tb, p)
    ensures |Unbound(tb, p).procs| == |tb.procs| && Unbound(tb, p).procs[p] == InitProc(tb.procs[p], tb.dcid)
    ensures p !in Unbound(tb, p).outq
    ensures forall j :: 0 <= j < |tb.procs| && j != p ==>
              DetachedFrom(tb, p, j, Unbound(tb, p).procs[j])
    ensures forall x: Slot :: x in SendAcks(tb, p) || x in SourceAcks(tb, p) ==> x in Unbound(tb, p).outq
    ensures forall x: Slot :: x in tb.outq && x != p ==> x in Unbound(tb, p).outq
  {
    InvGivesLists(tb, p);
    OutqAfter(tb, p);
    SlotFreed(tb, p);
    forall j | 0 <= j < |tb.procs| && j != p ensures DetachedFrom(tb, p, j, Unbound(tb, p).procs[j]) {
      UnboundAt(tb, p, j);
    }
  }

  /** A local process that waits for a message of p is woken exactly if it is not still sending
      or is on a queue of p. */
  lemma ReceiverWokenIff(tb: Table, p: Slot, j: Slot)
    requires QueueInv(tb) && p < |tb.procs| && j < |tb.procs| && j != p
    requires !tb.procs[j].Free() && tb.procs[j].IsLocal()
    requires Receiving in tb.procs[j].rts && tb.procs[j].getfrom == tb.procs[p].endpoint
    ensures ListsOk(tb, p) && |Unbound(tb, p).procs| == |tb.procs|
    ensures
      var x, a, b := tb.procs[p], tb.procs[j], Unbound(tb, p).procs[j];
      b.sem > a.sem <==> Sending !in a.rts || j in x.plist || j in x.mlist || j in x.ulist
  {
    InvGivesLists(tb, p);
    UnboundAt(tb, p, j);
  }
}
