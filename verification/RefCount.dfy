/**
 The reference count of a DC over whole runs of its process table, and what it says about
 the moment the table is released.
 */
module RefCount {
  import opened Descriptors
  import opened ProcTable
  import opened Detach
  import opened UnbindInv
  import opened QueueOps
  import opened QueueRuns
  import opened Steps
  import opened Lifecycle

  /** The process table of a DC with dc_kref; enders are the do_dc_end calls under way, each with
      the slot it waits for. Counted besides: ends, the references dropped by do_dc_end; over, the
      binds into a slot in use; raised, the free slots a failing proxy turned into running ones. */
  datatype State = State(tb: Table, refs: int, released: bool, enders: seq<nat>, ends: nat, over: nat, raised: nat)

  datatype RefEvent =
    | RBind(oper: BindOper, i: Slot, node: int, task: Lookup, pair: PairCheck)
    | RAutobind(i: Slot, ep: int, node: int, maxNodes: nat, pair: PairCheck)
    | RUnbind(p: Slot, caller: Caller, sigRc: int)
    | REndBegin(caller: Caller)
    | REndWalk(k: nat)
    | RNodeEnd(node: int, caller: Caller)
    | RStep(e: Event)

  function BoundSlots(tb: Table): set<Slot> {
    set i: Slot | i < |tb.procs| && !tb.procs[i].Free()
  }

  /** DC_DECREF; dc_release clears the node map of the DC. */
  function Dec(s: State): State {
    var last := s.refs == 1;
    s.(refs := s.refs - 1, released := s.released || last, tb := if last then s.tb.(nodes := {}) else s.tb)
  }

  function BindStep(s: State, oper: BindOper, i: Slot, node: int, task: Lookup, pair: PairCheck): State
    requires i < |s.tb.procs|
  {
    var out := BindOutcome(s.tb, s.released, oper, i, node, task, pair);
    s.(tb := BindTable(s.tb, out, oper, i, node, task), refs := s.refs + (if out.Done? then 1 else 0),
       over := s.over + (if !out.Refused? && !s.tb.procs[i].Free() then 1 else 0))
  }

  function AutobindStep(s: State, i: Slot, ep: int, node: int, maxNodes: nat, pair: PairCheck): State
    requires i < |s.tb.procs|
  {
    var out := AutobindOutcome(s.tb, i, ep, node, maxNodes, pair);
    s.(tb := AutobindTable(s.tb, out, i, ep, node), refs := s.refs + (if out.Done? then 1 else 0))
  }

  function UnbindStep(s: State, p: Slot, caller: Caller, sigRc: int): (r: State)
    requires p < |s.tb.procs|
    ensures |r.tb.procs| == |s.tb.procs|
  {
    var t := s.(tb := UnbindTable(s.tb, p, caller, sigRc));
    if UnbindVerdict(s.tb, p, caller) in {DropBackup, CleanUp} then Dec(t) else t
  }

  /** The slots the loops of do_dc_end and of do_node_end leave alone; the first sends a signal to
      a local process or a backup. */
  function Spared(): Proc -> bool {
    (x: Proc) => x.Free() || x.IsLocal() || RmtBackup in x.misc
  }

  function Elsewhere(node: int): Proc -> bool {
    (x: Proc) => x.IsLocal() || x.nodeid != node
  }

  /** Such a loop at slot k. */
  function ClearOne(s: State, k: Slot, caller: Caller, keep: Proc -> bool): (r: State)
    requires k < |s.tb.procs|
    ensures |r.tb.procs| == |s.tb.procs|
  {
    if keep(s.tb.procs[k]) then s else UnbindStep(s, k, caller, OK)
  }

  function ClearFrom(s: State, k: nat, caller: Caller, keep: Proc -> bool): (r: State)
    ensures |r.tb.procs| == |s.tb.procs|
    decreases |s.tb.procs| - k
  {
    if k >= |s.tb.procs| || s.released then s else ClearFrom(ClearOne(s, k, caller, keep), k + 1, caller, keep)
  }

  function NodeGone(s: State, node: int, caller: Caller): State {
    var t := ClearFrom(s, 0, caller, Elsewhere(node));
    t.(tb := t.tb.(nodes := t.tb.nodes - {node}))
  }

  /** The first slot from k on that is in use, or the size of the table. */
  function FirstBound(tb: Table, k: nat): (r: nat)
    ensures k <= r
    ensures forall j: nat :: k <= j < r && j < |tb.procs| ==> tb.procs[j].Free()
    ensures r < |tb.procs| ==> !tb.procs[r].Free()
    decreases |tb.procs| - k
  {
    if k >= |tb.procs| || !tb.procs[k].Free() then k else FirstBound(tb, k + 1)
  }

  /** The second loop of do_dc_end while it holds the lock of the DC: on to the first slot in use,
      for which it waits with the DC unlocked; past the last slot it drops the DC's reference. */
  function EndWalk(s: State, k: nat): State
    requires k < |s.enders|
  {
    var at := FirstBound(s.tb, s.enders[k]);
    if at < |s.tb.procs| then s.(enders := s.enders[k := at])
    else Dec(s.(ends := s.ends + 1, enders := s.enders[..k] + s.enders[k + 1..]))
  }

  /** Once the table is released nothing happens to it any more. Binding and unbinding are the steps
      above, with their reference. */
  function RefStep(s: State, e: RefEvent): State {
    var n := |s.tb.procs|;
    if s.released then s else
      match e
      case RBind(oper, i, node, task, pair) => if i < n then BindStep(s, oper, i, node, task, pair) else s
      case RAutobind(i, ep, node, maxNodes, pair) => if i < n then AutobindStep(s, i, ep, node, maxNodes, pair) else s
      case RUnbind(p, caller, sigRc) => if p < n then UnbindStep(s, p, caller, sigRc) else s
      case REndBegin(caller) =>
        var t := ClearFrom(s, 0, caller, Spared());
        t.(enders := t.enders + [0])
      case REndWalk(k) => if k < |s.enders| then EndWalk(s, k) else s
      case RNodeEnd(node, caller) => NodeGone(s, node, caller)
      case RStep(ev) =>
        if ev.EvBind? || ev.EvAutobind? || ev.EvUnbind? then s
        else s.(tb := Step(s.tb, ev), raised := s.raised + if ev.EvProxyFail? && Raises(s.tb, ev.x) then 1 else 0)
  }

  function RefRun(tb: Table, es: seq<RefEvent>): State {
    if es == [] then State(tb, 1, false, [], 0, 0, 0) else RefStep(RefRun(tb, es[..|es| - 1]), es[|es| - 1])
  }

  // ---- the slots in use, step by step ----

  lemma SameSlots(tb: Table, t: Table)
    requires |t.procs| == |tb.procs| && forall j: Slot :: j < |tb.procs| ==> t.procs[j].Free() == tb.procs[j].Free()
    ensures BoundSlots(t) == BoundSlots(tb)
  {
  }

  /** Rewriting slot i counts it once if the new descriptor is bound, and no longer if it is free. */
  lemma Rewritten(tb: Table, i: Slot, b: Proc)
    requires i < |tb.procs|
    ensures
      |BoundSlots(Put(tb, i, b))|
      == |BoundSlots(tb)| + (if b.Free() then 0 else 1) - if tb.procs[i].Free() then 0 else 1
  {
    var s, t := BoundSlots(tb), BoundSlots(Put(tb, i, b));
    assert t - {i} == s - {i};
    assert (i in s <==> !tb.procs[i].Free()) && (i in t <==> !b.Free());
    OffByOne(s, i);
    OffByOne(t, i);
  }

  lemma OffByOne(s: set<Slot>, i: Slot)
    ensures |s| == |s - {i}| + if i in s then 1 else 0
  {
    assert s == (s - {i}) + if i in s then {i} else {};
  }

  /** The clean-up of do_unbind takes exactly its slot out of the slots in use. */
  lemma UnbindFreesOne(tb: Table, p: Slot)
    requires p < |tb.procs|
    ensures BoundSlots(Cleaned(tb, p)) == BoundSlots(tb) - {p}
  {
    var t := Cleaned(tb, p);
    if ListsOk(tb, p) {
      UnboundQuiet(tb, p);
      forall j: Slot | j < |tb.procs| && j != p ensures t.procs[j].Free() == tb.procs[j].Free() {
        assert Kept(tb.procs[j], Unbound(tb, p).procs[j]);
      }
    }
    OneLess(tb, t, p);
  }

  lemma OneLess(tb: Table, t: Table, p: Slot)
    requires p < |tb.procs| == |t.procs| && t.procs[p].Free()
    requires forall j: Slot :: j < |tb.procs| && j != p ==> t.procs[j].Free() == tb.procs[j].Free()
    ensures BoundSlots(t) == BoundSlots(tb) - {p}
  {
  }

  /** Every other step of the table keeps the slots in use, except that a proxy that turns down a
      free slot at the head of its queue makes it one in use. */
  lemma OtherStepsKeepSlots(tb: Table, e: Event)
    requires !e.EvBind? && !e.EvAutobind? && !e.EvUnbind?
    ensures
      BoundSlots(Step(tb, e)) == if e.EvProxyFail? && Raises(tb, e.x) then BoundSlots(tb) + {e.x} else BoundSlots(tb)
    ensures |Step(tb, e).procs| == |tb.procs|
  {
    if e.EvProxyFail? {
      ProxyFailQuiet(tb, e.x, e.rcode);
      if !Raises(tb, e.x) {
        forall j: Slot | j < |tb.procs| ensures Step(tb, e).procs[j].Free() == tb.procs[j].Free() {
          assert Kept(tb.procs[j], ProxyFail(tb, e.x, e.rcode).procs[j]);
        }
      }
    } else {
      StepSameSize(tb, e);
      forall j: Slot | j < |tb.procs| ensures Step(tb, e).procs[j].Free() == tb.procs[j].Free() {
        StepFree(tb, e, j);
      }
      SameSlots(tb, Step(tb, e));
    }
  }

  // ---- the count ----

  /** The count is one for the DC and one for each slot in use, plus the binds into used slots,
      less the ends and the slots raised; the table is released exactly at zero. */
  ghost predicate Exact(s: State) {
    && s.refs == 1 + |BoundSlots(s.tb)| + s.over - s.ends - s.raised
    && s.refs >= 0 && (s.released <==> s.refs == 0)
  }

  lemma DecExact(s: State, t: State)
    requires !s.released && s.refs >= 1 && t == Dec(s)
    requires s.refs - 1 == 1 + |BoundSlots(s.tb)| + s.over - s.ends - s.raised
    ensures Exact(t)
  {
    SameSlots(s.tb, t.tb);
  }

  lemma BindExact(s: State, oper: BindOper, i: Slot, node: int, task: Lookup, pair: PairCheck)
    requires Exact(s) && !s.released && i < |s.tb.procs|
    ensures Exact(BindStep(s, oper, i, node, task, pair))
  {
    var out := BindOutcome(s.tb, s.released, oper, i, node, task, pair);
    if !out.Refused? {
      var t := BindTable(s.tb, out, oper, i, node, task);
      assert t == Put(s.tb, i, t.procs[i]) && t.procs[i].Free() == !out.Done?;
      Rewritten(s.tb, i, t.procs[i]);
    }
  }

  lemma AutobindExact(s: State, i: Slot, ep: int, node: int, maxNodes: nat, pair: PairCheck)
    requires Exact(s) && !s.released && i < |s.tb.procs|
    ensures Exact(AutobindStep(s, i, ep, node, maxNodes, pair))
  {
    var out := AutobindOutcome(s.tb, i, ep, node, maxNodes, pair);
    if !out.Refused? {
      var t := AutobindTable(s.tb, out, i, ep, node);
      assert t == Put(s.tb, i, t.procs[i]) && t.procs[i].Free() == !out.Done?;
      Rewritten(s.tb, i, t.procs[i]);
    }
  }

  /** A verdict that takes the slot out of use drops its reference, any other changes neither. */
  lemma UnbindExact(s: State, p: Slot, caller: Caller, sigRc: int)
    requires Exact(s) && !s.released && p < |s.tb.procs|
    ensures Exact(UnbindStep(s, p, caller, sigRc))
  {
    match UnbindVerdict(s.tb, p, caller) {
      case CleanUp => CleanUpExact(s, p);
      case DropBackup => DropExact(s, p);
      case _ => SameSlots(s.tb, UnbindTable(s.tb, p, caller, sigRc));
    }
  }

  lemma CleanUpExact(s: State, p: Slot)
    requires Exact(s) && !s.released && p < |s.tb.procs| && !s.tb.procs[p].Free()
    ensures Exact(Dec(s.(tb := Cleaned(s.tb, p))))
  {
    UnbindFreesOne(s.tb, p);
    TakenOutExact(s, p, Cleaned(s.tb, p));
  }

  lemma DropExact(s: State, p: Slot)
    requires Exact(s) && !s.released && p < |s.tb.procs| && !s.tb.procs[p].Free()
    ensures Exact(Dec(s.(tb := Put(s.tb, p, InitProc(s.tb.procs[p], s.tb.dcid)))))
  {
    var t := Put(s.tb, p, InitProc(s.tb.procs[p], s.tb.dcid));
    OneLess(s.tb, t, p);
    TakenOutExact(s, p, t);
  }

  lemma TakenOutExact(s: State, p: Slot, t: Table)
    requires Exact(s) && !s.released && p in BoundSlots(s.tb) && BoundSlots(t) == BoundSlots(s.tb) - {p}
    ensures Exact(Dec(s.(tb := t)))
  {
    OffByOne(BoundSlots(s.tb), p);
    var u := s.(tb := t);
    DecExact(u, Dec(u));
  }

  lemma {:induction false} ClearExact(s: State, k: nat, caller: Caller, keep: Proc -> bool)
    requires Exact(s)
    ensures Exact(ClearFrom(s, k, caller, keep))
    decreases |s.tb.procs| - k
  {
    if k < |s.tb.procs| && !s.released {
      UnbindExact(s, k, caller, OK);
      ClearExact(ClearOne(s, k, caller, keep), k + 1, caller, keep);
    }
  }

  lemma StepExact(s: State, e: RefEvent)
    requires Exact(s)
    ensures Exact(RefStep(s, e))
  {
    var n := |s.tb.procs|;
    if !s.released {
      match e
      case RBind(oper, i, node, task, pair) => if i < n { BindExact(s, oper, i, node, task, pair); }
      case RAutobind(i, ep, node, maxNodes, pair) => if i < n { AutobindExact(s, i, ep, node, maxNodes, pair); }
      case RUnbind(p, caller, sigRc) => if p < n { UnbindExact(s, p, caller, sigRc); }
      case REndBegin(caller) => ClearExact(s, 0, caller, Spared());
      case RNodeEnd(node, caller) =>
        ClearExact(s, 0, caller, Elsewhere(node));
        SameSlots(ClearFrom(s, 0, caller, Elsewhere(node)).tb, NodeGone(s, node, caller).tb);
      case REndWalk(k) =>
        if k < |s.enders| && FirstBound(s.tb, s.enders[k]) >= n {
          var t := s.(ends := s.ends + 1, enders := s.enders[..k] + s.enders[k + 1..]);
          DecExact(t, Dec(t));
        }
      case RStep(ev) =>
        if !ev.EvBind? && !ev.EvAutobind? && !ev.EvUnbind? {
          OtherStepsKeepSlots(s.tb, ev);
        }
    }
  }

  /** In every run from a fresh DC the count is exact. */
  lemma {:induction false} CountIsExact(tb: Table, es: seq<RefEvent>)
    requires Fresh(tb)
    ensures Exact(RefRun(tb, es))
    decreases |es|
  {
    if es == [] {
      assert BoundSlots(tb) == {};
    } else {
      CountIsExact(tb, es[..|es| - 1]);
      StepExact(RefRun(tb, es[..|es| - 1]), es[|es| - 1]);
    }
  }

  /** dc_release frees the table with no slot in use exactly when the ends and the slots raised
      outnumber by one the binds into used slots. */
  lemma ReleasedEmptyIff(tb: Table, es: seq<RefEvent>)
    requires Fresh(tb) && RefRun(tb, es).released
    ensures var s := RefRun(tb, es); BoundSlots(s.tb) == {} <==> s.ends + s.raised == s.over + 1
  {
    CountIsExact(tb, es);
  }

  // ---- whom the ends of a node and of a DC unbind ----

  /** b is the process a in all that decides whether it may be unbound. */
  ghost predicate SameCase(a: Proc, b: Proc) {
    && b.Free() == a.Free() && b.IsRemote() == a.IsRemote() && (NoEndpoint in b.rts <==> NoEndpoint in a.rts)
    && b.misc == a.misc && b.dcid == a.dcid && b.nodeid == a.nodeid
  }

  lemma CleanedKeepsCase(tb: Table, p: Slot, j: Slot)
    requires p < |tb.procs| && j < |tb.procs| && j != p
    ensures SameCase(tb.procs[j], Cleaned(tb, p).procs[j])
  {
    if ListsOk(tb, p) {
      var t := Answered(tb, p);
      AnsweredKeepsCase(tb, p, j);
      EmptiedKeepsCase(t, p, j);
      UnboundElsewhere(tb, p, j);
    }
  }

  lemma AnsweredKeepsCase(tb: Table, p: Slot, j: Slot)
    requires ListsOk(tb, p) && j < |tb.procs| && j != p
    ensures SameCase(tb.procs[j], Answered(tb, p).procs[j])
  {
    AnsweredAt(tb, p, j);
    AnsweredWaits(tb, p, j);
  }

  lemma EmptiedKeepsCase(tb: Table, p: Slot, j: Slot)
    requires ListsOk(tb, p) && j < |tb.procs| && j != p
    ensures SameCase(tb.procs[j], Emptied(tb, p).procs[j])
  {
    EmptiedAt(tb, p, j);
  }

  lemma UnboundElsewhere(tb: Table, p: Slot, j: Slot)
    requires ListsOk(tb, p) && ListsOk(Answered(tb, p), p) && j < |tb.procs| && j != p
    ensures |Unbound(tb, p).procs| == |tb.procs| && Unbound(tb, p).procs[j] == Emptied(Answered(tb, p), p).procs[j]
  {
  }

  ghost predicate CallerOk(tb: Table, caller: Caller) {
    caller.Bound? ==> caller.dcid == tb.dcid && caller.pidMatches
  }

  /** The DC still holds its own reference. */
  ghost predicate Held(s: State) {
    Exact(s) && s.ends + s.raised <= s.over
  }

  /** A choice of processes to keep that leaves local ones alone. */
  ghost predicate Keeps(keep: Proc -> bool) {
    && (forall a: Proc :: a.IsLocal() ==> keep(a))
    && (forall a: Proc, b: Proc :: SameCase(a, b) ==> keep(a) == keep(b))
  }

  lemma ClearOneFrees(s: State, k: Slot, caller: Caller, keep: Proc -> bool, j: Slot)
    requires Held(s) && Keeps(keep) && CallerOk(s.tb, caller) && k < |s.tb.procs| && j < |s.tb.procs|
    ensures
      var t := ClearOne(s, k, caller, keep);
      && Held(t) && !t.released && t.tb.nodes == s.tb.nodes && t.tb.dcid == s.tb.dcid
      && (t.tb.procs[j].Free() <==>
            s.tb.procs[j].Free() || (j == k && !keep(s.tb.procs[j]) && MayAct(s.tb, j, caller)))
      && (!t.tb.procs[j].Free() ==> SameCase(s.tb.procs[j], t.tb.procs[j]))
  {
    if !keep(s.tb.procs[k]) {
      UnbindExact(s, k, caller, OK);
      VerdictMeans(s.tb, k, caller);
      UnbindHolds(s, k, caller);
      if j != k {
        CleanedKeepsCase(s.tb, k, j);
      }
    }
  }

  lemma UnbindHolds(s: State, k: Slot, caller: Caller)
    requires Held(s) && k < |s.tb.procs| && s.tb.procs[k].IsRemote()
    ensures
      var t := UnbindStep(s, k, caller, OK);
      && t.ends == s.ends && t.over == s.over && t.raised == s.raised && !t.released
      && t.tb == UnbindTable(s.tb, k, caller, OK) && t.tb.nodes == s.tb.nodes && t.tb.dcid == s.tb.dcid
  {
    var t := UnbindTable(s.tb, k, caller, OK);
    UnbindFrame(s.tb, k, caller);
    if UnbindVerdict(s.tb, k, caller) in {DropBackup, CleanUp} {
      OffByOne(BoundSlots(s.tb), k);
      DecHolds(s.(tb := t));
    }
  }

  lemma UnbindFrame(tb: Table, p: Slot, caller: Caller)
    requires p < |tb.procs|
    ensures var t := UnbindTable(tb, p, caller, OK); t.nodes == tb.nodes && t.dcid == tb.dcid
  {
    if UnbindVerdict(tb, p, caller) == CleanUp {
      CleanedFrame(tb, p);
    }
  }

  lemma DecHolds(s: State)
    requires !s.released && s.refs > 1
    ensures Dec(s) == s.(refs := s.refs - 1)
  {
  }

  lemma {:induction false} ClearFromFrees(s: State, k: nat, caller: Caller, keep: Proc -> bool, j: Slot)
    requires Held(s) && Keeps(keep) && CallerOk(s.tb, caller) && j < |s.tb.procs|
    ensures
      var t := ClearFrom(s, k, caller, keep);
      && Held(t) && t.tb.nodes == s.tb.nodes
      && (t.tb.procs[j].Free() <==>
            s.tb.procs[j].Free() || (j >= k && !keep(s.tb.procs[j]) && MayAct(s.tb, j, caller)))
    decreases |s.tb.procs| - k
  {
    if k < |s.tb.procs| {
      ClearOneFrees(s, k, caller, keep, j);
      ClearFromFrees(ClearOne(s, k, caller, keep), k + 1, caller, keep, j);
    }
  }

  /** The end of a node frees exactly the slots of its remote processes, backups included, that may
      be unbound; it takes the node out of the DC and drops one reference for each. */
  lemma NodeEndFreesIff(s: State, node: int, caller: Caller, j: Slot)
    requires Held(s) && CallerOk(s.tb, caller) && j < |s.tb.procs|
    ensures
      var t, x := NodeGone(s, node, caller), s.tb.procs[j];
      && |t.tb.procs| == |s.tb.procs| && t.tb.nodes == s.tb.nodes - {node} && !t.released
      && t.refs - |BoundSlots(t.tb)| == s.refs - |BoundSlots(s.tb)|
      && (t.tb.procs[j].Free() <==> x.Free() || (x.IsRemote() && x.nodeid == node && MayAct(s.tb, j, caller)))
  {
    ClearFromFrees(s, 0, caller, Elsewhere(node), j);
    ClearEnders(s, 0, caller, Elsewhere(node));
    SameSlots(ClearFrom(s, 0, caller, Elsewhere(node)).tb, NodeGone(s, node, caller).tb);
  }

  /** The first loop of the end of a DC frees exactly the slots of the remote processes that are no
      backups and may be unbound; then the end waits from the first slot on. */
  lemma EndFreesIff(s: State, caller: Caller, j: Slot)
    requires Held(s) && CallerOk(s.tb, caller) && j < |s.tb.procs|
    ensures
      var t, x := RefStep(s, REndBegin(caller)), s.tb.procs[j];
      && |t.tb.procs| == |s.tb.procs| && !t.released && t.enders == s.enders + [0]
      && t.refs - |BoundSlots(t.tb)| == s.refs - |BoundSlots(s.tb)|
      && (t.tb.procs[j].Free() <==> x.Free() || (x.IsRemote() && RmtBackup !in x.misc && MayAct(s.tb, j, caller)))
  {
    ClearFromFrees(s, 0, caller, Spared(), j);
    ClearEnders(s, 0, caller, Spared());
  }

  // ---- runs that keep the books balanced ----

  /** An unbind that is not of a backup and does not answer a queued sender twice. */
  ghost predicate PlainUnbind(tb: Table, p: Slot, caller: Caller)
    requires p < |tb.procs|
  {
    var v := UnbindVerdict(tb, p, caller);
    v != DropBackup && (v == CleanUp ==> Legal(tb, EvUnbind(p)))
  }

  ghost predicate PlainClear(s: State, k: nat, caller: Caller, keep: Proc -> bool)
    decreases |s.tb.procs| - k
  {
    k >= |s.tb.procs| || s.released
    || ((keep(s.tb.procs[k]) || PlainUnbind(s.tb, k, caller)) && PlainClear(ClearOne(s, k, caller, keep), k + 1, caller, keep))
  }

  ghost predicate Plain(s: State, e: RefEvent) {
    var n := |s.tb.procs|;
    match e
    case RBind(oper, i, _, _, _) => oper in {ReplicaBind, BkupBind} && i < n ==> s.tb.procs[i].Free()
    case RUnbind(p, caller, _) => p < n ==> PlainUnbind(s.tb, p, caller)
    case REndBegin(caller) => PlainClear(s, 0, caller, Spared())
    case RNodeEnd(node, caller) => PlainClear(s, 0, caller, Elsewhere(node))
    case RStep(ev) => Legal(s.tb, ev)
    case _ => true
  }

  ghost predicate PlainRun(tb: Table, es: seq<RefEvent>) {
    es == [] || (PlainRun(tb, es[..|es| - 1]) && Plain(RefRun(tb, es[..|es| - 1]), es[|es| - 1]))
  }

  ghost predicate Tame(s: State) {
    QueueInv(s.tb) && s.over == 0 && s.raised == 0
  }

  lemma DecTame(s: State)
    requires Tame(s)
    ensures Tame(Dec(s))
  {
    RewireInv(s.tb, {}, s.tb.net.route);
    assert Dec(s).tb == s.tb || Dec(s).tb == s.tb.(nodes := {}, net := s.tb.net.(route := s.tb.net.route));
  }

  lemma NodesTame(s: State, node: int)
    requires Tame(s)
    ensures Tame(s.(tb := s.tb.(nodes := s.tb.nodes - {node})))
  {
    RewireInv(s.tb, s.tb.nodes - {node}, s.tb.net.route);
    assert s.tb.(nodes := s.tb.nodes - {node})
        == s.tb.(nodes := s.tb.nodes - {node}, net := s.tb.net.(route := s.tb.net.route));
  }

  lemma BindTame(s: State, oper: BindOper, i: Slot, node: int, task: Lookup, pair: PairCheck)
    requires Tame(s) && i < |s.tb.procs| && Plain(s, RBind(oper, i, node, task, pair))
    ensures Tame(BindStep(s, oper, i, node, task, pair))
  {
    if s.tb.procs[i].Free() {
      BindKeeps(s.tb, i, InitProc(s.tb.procs[i], s.tb.dcid));
      BindKeeps(s.tb, i, BoundProc(s.tb, oper, i, node, task.Found? && task.leader));
    }
  }

  lemma AutobindTame(s: State, i: Slot, ep: int, node: int, maxNodes: nat, pair: PairCheck)
    requires Tame(s) && i < |s.tb.procs|
    ensures Tame(AutobindStep(s, i, ep, node, maxNodes, pair))
  {
    var out := AutobindOutcome(s.tb, i, ep, node, maxNodes, pair);
    if !out.Refused? {
      BindKeeps(s.tb, i, AutobindTable(s.tb, out, i, ep, node).procs[i]);
    }
  }

  lemma CleanUpInv(tb: Table, p: Slot, caller: Caller, sigRc: int)
    requires QueueInv(tb) && p < |tb.procs| && UnbindVerdict(tb, p, caller) == CleanUp && !DoubleAck(tb, p)
    ensures QueueInv(UnbindTable(tb, p, caller, sigRc))
  {
    InvGivesLists(tb, p);
    UnbindKeepsInvIff(tb, p);
  }

  lemma SignalInv(tb: Table, p: Slot, copying: bool, sigRc: int)
    requires QueueInv(tb) && p < |tb.procs|
    ensures QueueInv(Put(tb, p, Signalled(tb.procs[p], copying, sigRc)))
  {
    var x, y := tb.procs[p], Signalled(tb.procs[p], copying, sigRc);
    assert y.rts == x.rts || y.rts == x.rts + {Signaled};
    assert OwnerOk(tb, x);
    PutKeeps(tb, p, y);
  }

  lemma UnbindTame(s: State, p: Slot, caller: Caller, sigRc: int)
    requires Tame(s) && p < |s.tb.procs| && PlainUnbind(s.tb, p, caller)
    ensures Tame(UnbindStep(s, p, caller, sigRc))
  {
    var v := UnbindVerdict(s.tb, p, caller);
    if v == CleanUp {
      CleanUpInv(s.tb, p, caller, sigRc);
      DecTame(s.(tb := UnbindTable(s.tb, p, caller, sigRc)));
    } else if !v.Refuse? {
      SignalInv(s.tb, p, v == MarkCopying, sigRc);
    }
  }

  lemma {:induction false} ClearTame(s: State, k: nat, caller: Caller, keep: Proc -> bool)
    requires Tame(s) && PlainClear(s, k, caller, keep)
    ensures Tame(ClearFrom(s, k, caller, keep))
    decreases |s.tb.procs| - k
  {
    if k < |s.tb.procs| && !s.released {
      if !keep(s.tb.procs[k]) {
        UnbindTame(s, k, caller, OK);
      }
      ClearTame(ClearOne(s, k, caller, keep), k + 1, caller, keep);
    }
  }

  lemma PlainStepTame(s: State, e: RefEvent)
    requires Tame(s) && Plain(s, e)
    ensures Tame(RefStep(s, e))
  {
    var n := |s.tb.procs|;
    if !s.released {
      match e
      case RBind(oper, i, node, task, pair) => if i < n { BindTame(s, oper, i, node, task, pair); }
      case RAutobind(i, ep, node, maxNodes, pair) => if i < n { AutobindTame(s, i, ep, node, maxNodes, pair); }
      case RUnbind(p, caller, sigRc) => if p < n { UnbindTame(s, p, caller, sigRc); }
      case REndBegin(caller) => ClearTame(s, 0, caller, Spared());
      case RNodeEnd(node, caller) =>
        ClearTame(s, 0, caller, Elsewhere(node));
        NodesTame(ClearFrom(s, 0, caller, Elsewhere(node)), node);
      case REndWalk(k) => 
        if k < |s.enders| {
          DecTame(s.(ends := s.ends + 1, enders := s.enders[..k] + s.enders[k + 1..]));
        }
      case RStep(ev) => StepKeepsInvIff(s.tb, ev);
    }
  }

  function Begins(es: seq<RefEvent>): nat {
    if es == [] then 0 else Begins(es[..|es| - 1]) + if es[|es| - 1].REndBegin? then 1 else 0
  }

  lemma {:induction false} ClearEnders(s: State, k: nat, caller: Caller, keep: Proc -> bool)
    ensures var t := ClearFrom(s, k, caller, keep);
            t.enders == s.enders && t.ends == s.ends && t.over == s.over && t.raised == s.raised
    decreases |s.tb.procs| - k
  {
    if k < |s.tb.procs| && !s.released {
      ClearEnders(ClearOne(s, k, caller, keep), k + 1, caller, keep);
    }
  }

  /** Each do_dc_end drops the reference of the DC at most once. */
  lemma {:induction false} EndsAreBegun(tb: Table, es: seq<RefEvent>)
    ensures var s := RefRun(tb, es); s.ends + |s.enders| <= Begins(es)
    decreases |es|
  {
    if es != [] {
      EndsAreBegun(tb, es[..|es| - 1]);
      var s, e := RefRun(tb, es[..|es| - 1]), es[|es| - 1];
      if e.REndBegin? {
        ClearEnders(s, 0, e.caller, Spared());
      } else if e.RNodeEnd? {
        ClearEnders(s, 0, e.caller, Elsewhere(e.node));
      }
    }
  }

  lemma {:induction false} PlainRunTame(tb: Table, es: seq<RefEvent>)
    requires Fresh(tb) && PlainRun(tb, es)
    ensures Tame(RefRun(tb, es))
    decreases |es|
  {
    if es == [] {
      FreshInv(tb);
    } else {
      PlainRunTame(tb, es[..|es| - 1]);
      PlainStepTame(RefRun(tb, es[..|es| - 1]), es[|es| - 1]);
    }
  }

  /** With legal steps, no bind into a slot in use, no backup unbound and a single do_dc_end, the
      count is the DC's own reference plus the slots in use, and the table is released exactly
      when the DC has ended and no slot is in use. */
  lemma DisciplinedRun(tb: Table, es: seq<RefEvent>)
    requires Fresh(tb) && PlainRun(tb, es) && Begins(es) <= 1
    ensures
      var s := RefRun(tb, es);
      && QueueInv(s.tb) && s.refs == |BoundSlots(s.tb)| + (if s.ends == 0 then 1 else 0)
      && (s.released <==> s.ends == 1 && BoundSlots(s.tb) == {})
  {
    PlainRunTame(tb, es);
    CountIsExact(tb, es);
    EndsAreBegun(tb, es);
  }

  // ---- runs in which the books do not balance ----

  function SelfBindOf(tb: Table, i: Slot): RefEvent {
    RBind(SelfBind, i, tb.net.local, Found(false), PairCheck(OK, true))
  }

  lemma RunOne(tb: Table, es: seq<RefEvent>, e: RefEvent) returns (next: seq<RefEvent>)
    ensures RefRun(tb, next) == RefStep(RefRun(tb, es), e)
    ensures Begins(next) == Begins(es) + if e.REndBegin? then 1 else 0
  {
    next := es + [e];
    assert next[..|es|] == es;
  }

  /** s is a state of a running DC with its own node and the given slots in use. */
  ghost predicate At(tb: Table, s: State, used: set<Slot>) {
    && !s.released && s.tb.net == tb.net && s.tb.nodes == tb.nodes && s.tb.dcid == tb.dcid
    && |s.tb.procs| == |tb.procs| && BoundSlots(s.tb) == used
  }

  /** t counts the references as s does but for dr more and d more binds into used slots. */
  ghost predicate Books(s: State, t: State, dr: int, d: nat) {
    t.refs == s.refs + dr && t.over == s.over + d && t.enders == s.enders && t.ends == s.ends && t.raised == s.raised
  }

  lemma SelfBinds(tb: Table, s: State, used: set<Slot>, i: Slot)
    requires At(tb, s, used) && tb.net.local in tb.nodes && i < |tb.procs| && i !in used
    ensures var t := RefStep(s, SelfBindOf(tb, i));
            && At(tb, t, used + {i}) && Books(s, t, 1, 0)
            && OnlyProcess(tb, t.tb.procs[i]) && t.tb.outq == s.tb.outq
  {
    assert s.tb.procs[i].Free();
  }

  lemma BackupBinds(tb: Table, s: State, used: set<Slot>, i: Slot, node: int)
    requires At(tb, s, used) && node in tb.nodes && node != tb.net.local && i < |tb.procs|
    ensures var t := RefStep(s, RBind(BkupBind, i, node, Found(false), PairCheck(OK, true)));
            && At(tb, t, used + {i}) && t.tb.procs == s.tb.procs[i := t.tb.procs[i]] && t.tb.outq == s.tb.outq
            && Books(s, t, 1, if i in used then 1 else 0)
            && t.tb.procs[i].rts == {Remote} && t.tb.procs[i].misc == {RmtBackup} && t.tb.procs[i].dcid == tb.dcid
            && t.tb.procs[i].nodeid == node
  {
    assert i in used <==> !s.tb.procs[i].Free();
  }

  lemma BackupDropped(tb: Table, s: State, used: set<Slot>, i: Slot)
    requires At(tb, s, used) && s.refs > 1 && i in used
    requires var x := s.tb.procs[i];
             Remote in x.rts && x.rts <= {Remote, RmtOper} && x.misc == {RmtBackup} && x.dcid == tb.dcid && x.nodeid in tb.nodes
    ensures var t := RefStep(s, RUnbind(i, Nobody, OK)); At(tb, t, used - {i}) && Books(s, t, -1, 0)
    ensures var t := RefStep(s, RUnbind(i, Nobody, OK)).tb; t.procs[i].rts == {SlotFree} && t.outq == s.tb.outq
  {
    var b := Put(s.tb, i, InitProc(s.tb.procs[i], s.tb.dcid));
    assert UnbindVerdict(s.tb, i, Nobody) == DropBackup;
    OneLess(s.tb, b, i);
  }

  /** A process unbinding itself. */
  lemma SelfUnbound(tb: Table, s: State, used: set<Slot>, i: Slot)
    requires At(tb, s, used) && s.refs > 1 && i in used
    requires OnlyProcess(tb, s.tb.procs[i]) && tb.net.local in tb.nodes
    ensures var t := RefStep(s, RUnbind(i, Bound(i, tb.dcid, true), OK));
            At(tb, t, used - {i}) && Books(s, t, -1, 0)
  {
    CleansUp(tb, s, used, i, Bound(i, tb.dcid, true));
  }

  lemma CleansUp(tb: Table, s: State, used: set<Slot>, i: Slot, caller: Caller)
    requires At(tb, s, used) && s.refs > 1 && i in used && UnbindVerdict(s.tb, i, caller) == CleanUp
    ensures var t := UnbindStep(s, i, caller, OK); At(tb, t, used - {i}) && Books(s, t, -1, 0)
  {
    UnbindFreesOne(s.tb, i);
    CleanedFrame(s.tb, i);
    DecHolds(s.(tb := Cleaned(s.tb, i)));
  }

  lemma CleanedFrame(tb: Table, p: Slot)
    requires p < |tb.procs|
    ensures var t := Cleaned(tb, p); t.net == tb.net && t.nodes == tb.nodes && t.dcid == tb.dcid
  {
  }

  lemma NothingToClear(s: State, k: nat, caller: Caller)
    requires forall j: Slot :: j < |s.tb.procs| ==> Spared()(s.tb.procs[j])
    ensures ClearFrom(s, k, caller, Spared()) == s
    decreases |s.tb.procs| - k
  {
    if k < |s.tb.procs| && !s.released {
      NothingToClear(s, k + 1, caller);
    }
  }

  lemma EndBegun(tb: Table, s: State, used: set<Slot>)
    requires At(tb, s, used) && forall j :: j in used ==> s.tb.procs[j].IsLocal()
    ensures RefStep(s, REndBegin(Nobody)) == s.(enders := s.enders + [0])
  {
    forall j: Slot | j < |s.tb.procs| ensures Spared()(s.tb.procs[j]) {
      assert j in used <==> !s.tb.procs[j].Free();
    }
    NothingToClear(s, 0, Nobody);
  }

  lemma EndWaits(tb: Table, s: State, used: set<Slot>, k: nat, at: nat)
    requires At(tb, s, used) && k < |s.enders| && at in used && s.enders[k] <= at
    requires forall j :: j in used ==> at <= j || j < s.enders[k]
    ensures RefStep(s, REndWalk(k)) == s.(enders := s.enders[k := at])
  {
    var r := FirstBound(s.tb, s.enders[k]);
    assert !s.tb.procs[at].Free();
    assert r < |s.tb.procs| ==> r in used;
  }

  lemma EndPasses(tb: Table, s: State, used: set<Slot>, k: nat)
    requires At(tb, s, used) && k < |s.enders| && s.refs > 0 && forall j :: j in used ==> j < s.enders[k]
    ensures var t := RefStep(s, REndWalk(k));
            && BoundSlots(t.tb) == used && t.refs == s.refs - 1 && (t.released <==> t.refs == 0)
            && (t.refs > 0 ==> At(tb, t, used)) && t.enders == s.enders[..k] + s.enders[k + 1..]
            && t.over == s.over && t.raised == s.raised
  {
    var r := FirstBound(s.tb, s.enders[k]);
    assert r < |s.tb.procs| ==> r in used;
    SameSlots(s.tb, RefStep(s, REndWalk(k)).tb);
  }

  /** A backup bound over a process in use leaves a reference nobody drops: the backup unbound and
      the DC ended, no slot is in use and the table is still not released. */
  lemma BackupBindLeaks(tb: Table, i: Slot, node: int) returns (es: seq<RefEvent>)
    requires Fresh(tb) && i < |tb.procs| && {node, tb.net.local} <= tb.nodes && node != tb.net.local
    ensures
      var s := RefRun(tb, es);
      Begins(es) == 1 && BoundSlots(s.tb) == {} && s.enders == [] && s.refs == 1 && !s.released
  {
    es := UsedTwice(tb, i, node);
    BackupDropped(tb, RefRun(tb, es), {i}, i);
    es := RunOne(tb, es, RUnbind(i, Nobody, OK));
    EndBegun(tb, RefRun(tb, es), {});
    es := RunOne(tb, es, REndBegin(Nobody));
    EndPasses(tb, RefRun(tb, es), {}, 0);
    es := RunOne(tb, es, REndWalk(0));
  }

  lemma UsedTwice(tb: Table, i: Slot, node: int) returns (es: seq<RefEvent>)
    requires Fresh(tb) && i < |tb.procs| && {node, tb.net.local} <= tb.nodes && node != tb.net.local
    ensures
      var s := RefRun(tb, es);
      && Begins(es) == 0 && At(tb, s, {i}) && s.refs == 3 && s.enders == [] && s.tb.procs[i].rts == {Remote}
      && s.tb.procs[i].misc == {RmtBackup} && s.tb.procs[i].dcid == tb.dcid && s.tb.procs[i].nodeid == node
  {
    SelfBinds(tb, RefRun(tb, []), {}, i);
    es := RunOne(tb, [], SelfBindOf(tb, i));
    BackupBinds(tb, RefRun(tb, es), {i}, i, node);
    es := RunOne(tb, es, RBind(BkupBind, i, node, Found(false), PairCheck(OK, true)));
  }

  lemma TwoBegun(tb: Table) returns (es: seq<RefEvent>)
    requires Fresh(tb) && |tb.procs| >= 2 && tb.net.local in tb.nodes
    ensures var s := RefRun(tb, es);
            At(tb, s, {1}) && s.refs == 2 && s.over == s.raised == 0 && s.enders == [0, 0] && OnlyProcess(tb, s.tb.procs[1])
  {
    SelfBinds(tb, RefRun(tb, []), {}, 1);
    es := RunOne(tb, [], SelfBindOf(tb, 1));
    EndBegun(tb, RefRun(tb, es), {1});
    es := RunOne(tb, es, REndBegin(Nobody));
    EndBegun(tb, RefRun(tb, es), {1});
    es := RunOne(tb, es, REndBegin(Nobody));
  }

  ghost predicate OnlyProcess(tb: Table, x: Proc) {
    x.rts == {} && x.misc == {} && x.dcid == tb.dcid && x.nodeid == tb.net.local && x.notify == {} && x.plist == []
  }

  /** Two ends of the DC both wait for the process of slot 1. */
  lemma TwoWait(tb: Table) returns (es: seq<RefEvent>)
    requires Fresh(tb) && |tb.procs| >= 2 && tb.net.local in tb.nodes
    ensures var s := RefRun(tb, es);
            At(tb, s, {1}) && s.refs == 2 && s.over == s.raised == 0 && s.enders == [1, 1] && OnlyProcess(tb, s.tb.procs[1])
  {
    es := TwoBegun(tb);
    EndWaits(tb, RefRun(tb, es), {1}, 0, 1);
    es := RunOne(tb, es, REndWalk(0));
    EndWaits(tb, RefRun(tb, es), {1}, 1, 1);
    es := RunOne(tb, es, REndWalk(1));
  }

  /** While both wait the DC is unlocked: the process unbinds itself, another binds a slot both
      have passed, and the second end releases the table with that process bound. */
  lemma TwoEndsReleaseBound(tb: Table) returns (es: seq<RefEvent>)
    requires Fresh(tb) && |tb.procs| >= 2 && tb.net.local in tb.nodes
    ensures var s := RefRun(tb, es); s.released && BoundSlots(s.tb) == {0} && s.over == s.raised == 0
  {
    es := TwoWait(tb);
    SelfUnbound(tb, RefRun(tb, es), {1}, 1);
    es := RunOne(tb, es, RUnbind(1, Bound(1, tb.dcid, true), OK));
    SelfBinds(tb, RefRun(tb, es), {}, 0);
    es := RunOne(tb, es, SelfBindOf(tb, 0));
    EndPasses(tb, RefRun(tb, es), {0}, 0);
    es := RunOne(tb, es, REndWalk(0));
    EndPasses(tb, RefRun(tb, es), {0}, 0);
    es := RunOne(tb, es, REndWalk(0));
  }

  lemma ReceiverBlocks(tb: Table, x: Slot)
    requires x < |tb.procs| && tb.procs[x].rts == {} && tb.procs[x].notify == {} && tb.procs[x].plist == []
    ensures Step(tb, EvReceive(x, ANY)) == Put(tb, x, tb.procs[x].(rts := {Receiving}, getfrom := ANY))
  {
  }

  ghost predicate OneWaits(tb: Table, s: State, node: int) {
    && At(tb.(net := tb.net.(route := map[node := 0])), s, {1}) && s.refs == 2 && s.raised == 0 && s.tb.outq == []
    && 1 < |tb.procs| && s.tb.procs[1].rts == {Receiving} && s.tb.procs[1].getfrom == ANY
  }

  lemma WaitsAndRoutes(tb: Table, s: State, node: int)
    requires At(tb, s, {1}) && s.refs == 2 && s.raised == 0 && s.tb.outq == []
    requires 1 < |tb.procs| && OnlyProcess(tb, s.tb.procs[1])
    ensures OneWaits(tb, RefStep(RefStep(s, RStep(EvReceive(1, ANY))), RStep(EvRewire(tb.nodes, map[node := 0]))), node)
  {
    ReceiverBlocks(s.tb, 1);
    var t := Put(s.tb, 1, s.tb.procs[1].(rts := {Receiving}, getfrom := ANY));
    SameSlots(s.tb, t);
    var u := t.(nodes := tb.nodes, net := t.net.(route := map[node := 0]));
    SameSlots(t, u);
    assert RefStep(s, RStep(EvReceive(1, ANY))) == s.(tb := t);
    assert RefStep(s.(tb := t), RStep(EvRewire(tb.nodes, map[node := 0]))) == s.(tb := u);
  }

  /** Process 1 waits for any message, slot 0 is free and only node has a proxy. */
  lemma OneReceiving(tb: Table, node: int) returns (es: seq<RefEvent>)
    requires Fresh(tb) && |tb.procs| >= 2 && tb.net.local in tb.nodes
    ensures Begins(es) == 0 && OneWaits(tb, RefRun(tb, es), node)
  {
    SelfBinds(tb, RefRun(tb, []), {}, 1);
    es := RunOne(tb, [], SelfBindOf(tb, 1));
    WaitsAndRoutes(tb, RefRun(tb, es), node);
    es := RunOne(tb, es, RStep(EvReceive(1, ANY)));
    es := RunOne(tb, es, RStep(EvRewire(tb.nodes, map[node := 0])));
  }

  /** Slot 0 holds a backup and waits for the sender proxy with an acknowledgement. */
  lemma BackupQueued(tb: Table, node: int) returns (es: seq<RefEvent>)
    requires Fresh(tb) && |tb.procs| >= 2 && {node, tb.net.local} <= tb.nodes && node != tb.net.local
    ensures
      var s := RefRun(tb, es);
      && Begins(es) == 0 && !s.released && s.refs == 3 && s.raised == 0 && s.tb.outq == [0]
      && |s.tb.procs| == |tb.procs| && s.tb.nodes == tb.nodes && BoundSlots(s.tb) == {0, 1}
      && s.tb.procs[0].rts == {Remote, RmtOper} && s.tb.procs[0].misc == {RmtBackup}
      && s.tb.procs[0].dcid == tb.dcid == s.tb.dcid && s.tb.procs[0].nodeid == node
  {
    es := OneReceiving(tb, node);
    BackupBinds(tb.(net := tb.net.(route := map[node := 0])), RefRun(tb, es), {1}, 0, node);
    es := RunOne(tb, es, RBind(BkupBind, 0, node, Found(false), PairCheck(OK, true)));
    var t := RefRun(tb, es);
    OtherStepsKeepSlots(t.tb, EvArrive(0, 1, false));
    AckQueued(t.tb, node);
    es := RunOne(tb, es, RStep(EvArrive(0, 1, false)));
  }

  lemma AckQueued(tb: Table, node: int)
    requires |tb.procs| >= 2 && tb.net.route == map[node := 0] && tb.outq == []
    requires tb.procs[0].rts == {Remote} && tb.procs[0].nodeid == node
    requires tb.procs[1].rts == {Receiving} && tb.procs[1].getfrom == ANY
    ensures
      var t := Step(tb, EvArrive(0, 1, false));
      && t.outq == [0] && |t.procs| == |tb.procs| && t.nodes == tb.nodes && t.dcid == tb.dcid
      && t.procs[0].rts == {Remote, RmtOper} && t.procs[0].misc == tb.procs[0].misc
      && t.procs[0].dcid == tb.procs[0].dcid && t.procs[0].nodeid == node
  {
  }

  /** A backup unbound while it waits for the sender proxy, and turned down by it, ends up in use
      without a reference. */
  lemma ProxyRaisesFreed(tb: Table, node: int) returns (es: seq<RefEvent>)
    requires Fresh(tb) && |tb.procs| >= 2 && {node, tb.net.local} <= tb.nodes && node != tb.net.local
    ensures
      var s := RefRun(tb, es);
      Begins(es) == 0 && BoundSlots(s.tb) == {0, 1} && s.refs == 2 && s.tb.procs[0].IsLocal()
  {
    es := BackupQueued(tb, node);
    var s := RefRun(tb, es);
    BackupDropped(s.tb, s, {0, 1}, 0);
    es := RunOne(tb, es, RUnbind(0, Nobody, OK));
    RaisedRuns(RefRun(tb, es), EMOLNOTBIND);
    es := RunOne(tb, es, RStep(EvProxyFail(0, EMOLNOTBIND)));
  }

  lemma RaisedRuns(s: State, rcode: int)
    requires !s.released && s.tb.outq == [0] && |s.tb.procs| > 0 && s.tb.procs[0].rts == {SlotFree}
    ensures var t := RefStep(s, RStep(EvProxyFail(0, rcode)));
            && BoundSlots(t.tb) == BoundSlots(s.tb) + {0} && t.refs == s.refs
            && |t.tb.procs| == |s.tb.procs| && t.tb.procs[0].rts == {}
  {
    FreedTurnedDown(s.tb, rcode);
  }

  lemma FreedTurnedDown(tb: Table, rcode: int)
    requires tb.outq == [0] && |tb.procs| > 0 && tb.procs[0].rts == {SlotFree}
    ensures var t := Step(tb, EvProxyFail(0, rcode));
            |t.procs| == |tb.procs| && t.procs[0].rts == {} && BoundSlots(t) == BoundSlots(tb) + {0}
  {
    OtherStepsKeepSlots(tb, EvProxyFail(0, rcode));
    assert 0 in tb.outq;
    assert Step(tb, EvProxyFail(0, rcode)) == ProxyFail(tb, 0, rcode);
  }
}
