/**
 The exact condition under which the clean-up of do_unbind keeps the queue
 invariant: it fails when a remote process is still queued on the unbound one with a
 sendrec request, because it is then linked twice on the queue of the sender proxy.
 */
module UnbindInv {
  import opened Descriptors
  import opened ProcTable
  import opened Detach

  /** A remote process that sent p a sendrec request and is still queued on it (or whose
      link is already on a proxy queue): the second pass links it a second time. */
  ghost predicate LinkedTwice(tb: Table, p: Slot, x: Slot)
    requires p < |tb.procs| && x < |tb.procs|
  {
    var r := tb.procs[x];
    && x != p && !r.Free() && r.IsRemote() && r.nodeid in tb.net.route
    && Receiving in r.rts && r.getfrom == tb.procs[p].endpoint
    && (x in tb.procs[p].plist || (Sending !in r.rts && x in tb.outq))
  }

  ghost predicate DoubleAck(tb: Table, p: Slot)
    requires p < |tb.procs|
  {
    exists x: Slot :: x < |tb.procs| && LinkedTwice(tb, p, x)
  }

  lemma DiedEffect(net: Net, ep: int, r: Proc)
    ensures var y := After(net, SendersDied, ep)(r);
            && y.getfrom == r.getfrom && Sending !in y.rts && (Receiving in y.rts <==> Receiving in r.rts)
  {
  }

  lemma SourceAcksMember(tb: Table, p: Slot, x: Slot)
    requires QueueInv(tb) && p < |tb.procs| && ListsOk(tb, p) && x < |tb.procs| && x != p
    ensures x in SourceAcks(tb, p) <==>
              var r := tb.procs[x];
              && !r.Free() && r.IsRemote() && r.nodeid in tb.net.route
              && Receiving in r.rts && r.getfrom == tb.procs[p].endpoint
              && (x in tb.procs[p].plist || Sending !in r.rts)
  {
    assert x in Others(|tb.procs|, p);
    DrainAt(tb, SendersDied, p, x);
    DiedEffect(tb.net, tb.procs[p].endpoint, tb.procs[x]);
  }

  lemma AcksApart(tb: Table, p: Slot)
    requires QueueInv(tb) && p < |tb.procs| && ListsOk(tb, p)
    ensures NoDup(tb.outq + SendAcks(tb, p))
    ensures DoubleAck(tb, p) <==>
              exists x: Slot :: x in tb.outq + SendAcks(tb, p) && x in SourceAcks(tb, p)
  {
    assert OwnerOk(tb, tb.procs[p]);
    NoDupConcat(tb.outq, SendAcks(tb, p));
    forall x: Slot | x < |tb.procs| && x != p
      ensures LinkedTwice(tb, p, x) <==> x in tb.outq + SendAcks(tb, p) && x in SourceAcks(tb, p)
    {
      SourceAcksMember(tb, p, x);
    }
  }

  lemma OutqNoDup(tb: Table, p: Slot)
    requires QueueInv(tb) && p < |tb.procs| && ListsOk(tb, p)
    ensures NoDup(Unbound(tb, p).outq) <==> !DoubleAck(tb, p)
  {
    UnboundOutq(tb, p);
    AcksApart(tb, p);
    var a, b := tb.outq + SendAcks(tb, p), SourceAcks(tb, p);
    WithoutConcat(a, b, p);
    NoDupConcat(Without(a, p), b);
    assert Without(b, p) == b;
  }

  // ---- the other parts of the invariant always survive ----

  /** The waits of descriptor j that are not on p, unchanged in b. */
  ghost predicate KeepsWaits(tb: Table, p: Slot, j: Slot, b: Proc)
    requires p < |tb.procs| && j < |tb.procs|
  {
    var x, a := tb.procs[p], tb.procs[j];
    && (Sending in a.rts && j !in x.plist ==>
          Sending in b.rts && b.sendto == a.sendto && (Receiving in a.rts ==> Receiving in b.rts))
    && (WaitMigr in a.rts && j !in x.mlist ==> WaitMigr in b.rts && b.waitmigr == a.waitmigr)
    && (WaitUnbind in a.rts && j !in x.ulist ==> WaitUnbind in b.rts && b.waitunbind == a.waitunbind)
    && (RmtOper in a.rts ==> RmtOper in b.rts) && (a.proxy != NONE ==> b.proxy != NONE)
    && (a.Free() && j !in x.plist && j !in x.mlist && j !in x.ulist ==> b.rts == a.rts)
  }

  lemma CombineWaits(tb: Table, t: Table, p: Slot, j: Slot, b: Proc)
    requires p < |tb.procs| == |t.procs| && j < |tb.procs| && EndpointsOk(tb)
    requires
      var x, a, c := tb.procs[p], tb.procs[j], t.procs[j];
      && Waits(tb.net, a, c, {Receiving} + if j in x.plist then {Sending} else {})
      && (Sending in a.rts && j !in x.plist ==> Waits(tb.net, a, c, {}))
      && (a.Free() && j !in x.plist ==> c == a)
      && Waits(tb.net, c, b, (if j in x.mlist then {WaitMigr} else {}) + (if j in x.ulist then {WaitUnbind} else {}))
      && (j !in x.mlist && j !in x.ulist ==> b.rts == c.rts)
    ensures KeepsWaits(tb, p, j, b)
  {
  }

  lemma UnboundKeepsWaits(tb: Table, p: Slot, j: Slot)
    requires QueueInv(tb) && p < |tb.procs| && j < |tb.procs| && j != p && ListsOk(tb, p)
    ensures |Unbound(tb, p).procs| == |tb.procs|
    ensures KeepsWaits(tb, p, j, Unbound(tb, p).procs[j])
  {
    InvGivesAnsweredLists(tb, p);
    AnsweredWaits(tb, p, j);
    var t := Answered(tb, p);
    EmptiedAt(t, p, j);
    CombineWaits(tb, t, p, j, Emptied(t, p).procs[j]);
  }

  /** A descriptor that joins the proxy queue is marked as in a remote operation. */
  lemma JoinedMarked(tb: Table, p: Slot, j: Slot)
    requires QueueInv(tb) && p < |tb.procs| && j < |tb.procs| && ListsOk(tb, p)
    requires j in SendAcks(tb, p) || j in SourceAcks(tb, p)
    ensures j != p && !tb.procs[j].Free()
    ensures RmtOper in Answered(tb, p).procs[j].rts && Answered(tb, p).procs[j].proxy != NONE
  {
    var x, a := tb.procs[p], tb.procs[j];
    var d := Drained(tb, SendersDied, p).procs[j];
    assert j in Others(|tb.procs|, p);
    EffectWaits(tb.net, SendersDied, x.endpoint, a);
    TellWaits(tb.net, x.endpoint, x.sid, tb.nrSys, d);
    DrainAt(tb, SendersDied, p, j);
  }

  lemma OutqMarked(tb: Table, p: Slot, j: Slot)
    requires QueueInv(tb) && p < |tb.procs| && ListsOk(tb, p) && j in Unbound(tb, p).outq
    ensures |Unbound(tb, p).procs| == |tb.procs| && j != p && BoundSlot(tb, j)
    ensures RmtOper in Unbound(tb, p).procs[j].rts && Unbound(tb, p).procs[j].proxy != NONE
    ensures j in tb.outq || j in tb.procs[p].plist || Sending !in tb.procs[j].rts
  {
    SlotFreed(tb, p);
    UnboundOutq(tb, p);
    if j in tb.outq {
      UnboundKeepsWaits(tb, p, j);
    } else {
      JoinedMarked(tb, p, j);
      SourceAcksMember(tb, p, j);
      InvGivesAnsweredLists(tb, p);
      EmptiedAt(Answered(tb, p), p, j);
    }
  }

  /** t is tb after p was cut out of every queue of it. */
  ghost predicate CutOut(tb: Table, t: Table, p: Slot) {
    && p < |tb.procs| == |t.procs| && t.net == tb.net && t.nrTasks == tb.nrTasks && t.nrSys == tb.nrSys
    && t.procs[p] == InitProc(tb.procs[p], tb.dcid) && p !in t.outq
    && (forall j :: 0 <= j < |tb.procs| && j != p ==>
          DetachedFrom(tb, p, j, t.procs[j]) && KeepsWaits(tb, p, j, t.procs[j]))
    && (forall j: Slot :: j in t.outq ==>
          && BoundSlot(tb, j) && j != p && RmtOper in t.procs[j].rts && t.procs[j].proxy != NONE
          && (j in tb.outq || j in tb.procs[p].plist || Sending !in tb.procs[j].rts))
  }

  lemma UnboundCutOut(tb: Table, p: Slot)
    requires QueueInv(tb) && p < |tb.procs| && ListsOk(tb, p)
    ensures CutOut(tb, Unbound(tb, p), p)
  {
    SlotFreed(tb, p);
    OutqAfter(tb, p);
    forall j | 0 <= j < |tb.procs| && j != p
      ensures DetachedFrom(tb, p, j, Unbound(tb, p).procs[j]) && KeepsWaits(tb, p, j, Unbound(tb, p).procs[j])
    {
      UnboundAt(tb, p, j);
      UnboundKeepsWaits(tb, p, j);
    }
    var t := Unbound(tb, p);
    forall j: Slot | j in t.outq
      ensures && BoundSlot(tb, j) && j != p && RmtOper in t.procs[j].rts && t.procs[j].proxy != NONE
              && (j in tb.outq || j in tb.procs[p].plist || Sending !in tb.procs[j].rts)
    {
      OutqMarked(tb, p, j);
    }
  }

  lemma CutOutOwners(tb: Table, t: Table, p: Slot)
    requires QueueInv(tb) && CutOut(tb, t, p)
    ensures EndpointsOk(t) && OwnersOk(t)
  {
  }

  lemma CutOutSenders(tb: Table, t: Table, p: Slot)
    requires QueueInv(tb) && CutOut(tb, t, p)
    ensures SendersOk(t)
  {
  }

  lemma CutOutWaiters(tb: Table, t: Table, p: Slot)
    requires QueueInv(tb) && CutOut(tb, t, p)
    ensures MigrWaitersOk(t) && UnbindWaitersOk(t)
  {
    forall o, x: Slot | 0 <= o < |t.procs| && x in t.procs[o].mlist
      ensures && BoundSlot(t, x) && x != o && t.procs[x].IsLocal()
              && WaitMigr in t.procs[x].rts && t.procs[x].waitmigr == t.procs[o].endpoint
    {
      assert x in tb.procs[o].mlist;
      assert DetachedFrom(tb, p, x, t.procs[x]);
    }
    forall o, x: Slot | 0 <= o < |t.procs| && x in t.procs[o].ulist
      ensures && BoundSlot(t, x) && x != o && t.procs[x].IsLocal()
              && WaitUnbind in t.procs[x].rts && t.procs[x].waitunbind == t.procs[o].endpoint
    {
      assert x in tb.procs[o].ulist;
      assert DetachedFrom(tb, p, x, t.procs[x]);
    }
  }

  /** The clean-up of do_unbind keeps the queue invariant exactly when no remote process
      is linked twice on the queue of the sender proxy. */
  lemma UnbindKeepsInvIff(tb: Table, p: Slot)
    requires QueueInv(tb) && p < |tb.procs|
    ensures ListsOk(tb, p)
    ensures QueueInv(Unbound(tb, p)) <==> !DoubleAck(tb, p)
  {
    InvGivesLists(tb, p);
    var t := Unbound(tb, p);
    UnboundCutOut(tb, p);
    CutOutOwners(tb, t, p);
    CutOutSenders(tb, t, p);
    CutOutWaiters(tb, t, p);
    OutqNoDup(tb, p);
  }
}
