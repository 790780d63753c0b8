/**
 Binding and unbinding of a process as decisions on the process table: what mm_bind,
 do_autobind and do_unbind decide, and the table each decision leaves.
 */
module Lifecycle {
  import opened Descriptors
  import opened ProcTable
  import opened QueueOps
  import opened QueueRuns

  // ---- unbinding ----

  /** The task calling do_unbind: current->task_proc, if bound. */
  datatype Caller = Nobody | Bound(slot: Slot, dcid: int, pidMatches: bool)

  /** What do_unbind decides before it touches any queue. */
  datatype Verdict = Refuse(rc: int) | MarkCopying | SignalOwner | DropBackup | CleanUp

  function UnbindVerdict(tb: Table, p: Slot, caller: Caller): Verdict
    requires p < |tb.procs|
  {
    var x := tb.procs[p];
    if x.Free() then Refuse(EMOLNOTBIND)
    else if NoEndpoint in x.rts then Refuse(EMOLENDPOINT)
    else if ProxyProc in x.misc then Refuse(EMOLBADPROC)
    else if x.dcid != tb.dcid then Refuse(EMOLBADDCID)
    else if x.nodeid !in tb.nodes then Refuse(EMOLNODCNODE)
    else if caller.Bound? && caller.dcid != tb.dcid then Refuse(EMOLBADDCID)
    else if caller.Bound? && !caller.pidMatches then Refuse(EMOLBADPID)
    else if x.IsLocal() then
      if caller.Bound? && caller.slot == p then CleanUp
      else if OnCopy in x.rts then MarkCopying
      else SignalOwner
    else if RmtBackup in x.misc then DropBackup
    else CleanUp
  }

  /** The clean-up; where the queues of p are no proper lists its loops are not described, and
      only the slot is freed. */
  function Cleaned(tb: Table, p: Slot): (r: Table)
    requires p < |tb.procs|
    ensures |r.procs| == |tb.procs|
  {
    if ListsOk(tb, p) then Unbound(tb, p) else Put(tb, p, InitProc(tb.procs[p], tb.dcid))
  }

  /** A local process another one tries to unbind: marked if it is in a copy as the requester, else
      signalled and its wait ended. */
  function Signalled(x: Proc, copying: bool, sigRc: int): Proc {
    if copying then (if RmtOper in x.rts then x.(rts := x.rts + {Signaled}) else x)
    else if sigRc == OK && x.rts != {} then Up(x, EMOLSHUTDOWN)
    else x
  }

  /** The table do_unbind leaves; sigRc is what delivering SIGPIPE to the owner returned. */
  function UnbindTable(tb: Table, p: Slot, caller: Caller, sigRc: int): (r: Table)
    requires p < |tb.procs|
    ensures |r.procs| == |tb.procs|
  {
    var x := tb.procs[p];
    match UnbindVerdict(tb, p, caller)
    case Refuse(_) => tb
    case MarkCopying => Put(tb, p, Signalled(x, true, sigRc))
    case SignalOwner => Put(tb, p, Signalled(x, false, sigRc))
    case DropBackup => Put(tb, p, InitProc(x, tb.dcid))
    case CleanUp => Cleaned(tb, p)
  }

  /** The process and its caller are such that do_unbind may act at all. */
  predicate MayAct(tb: Table, p: Slot, caller: Caller)
    requires p < |tb.procs|
  {
    var x := tb.procs[p];
    && !x.Free() && NoEndpoint !in x.rts && ProxyProc !in x.misc && x.dcid == tb.dcid && x.nodeid in tb.nodes
    && (caller.Bound? ==> caller.dcid == tb.dcid && caller.pidMatches)
  }

  /** Who takes a slot out of use, and how: the process itself if it is local, anybody allowed
      to act if it is remote; a backup loses its slot without any clean-up of its queues. A local
      process that another one tries to unbind is marked if it is in a copy, and else signalled. */
  lemma VerdictMeans(tb: Table, p: Slot, caller: Caller)
    requires p < |tb.procs|
    ensures
      var v, x := UnbindVerdict(tb, p, caller), tb.procs[p];
      var own := caller.Bound? && caller.slot == p;
      && (v.Refuse? <==> !MayAct(tb, p, caller))
      && (v == CleanUp <==> MayAct(tb, p, caller) && (if x.IsLocal() then own else RmtBackup !in x.misc))
      && (v == DropBackup <==> MayAct(tb, p, caller) && x.IsRemote() && RmtBackup in x.misc)
      && (v == MarkCopying <==> MayAct(tb, p, caller) && x.IsLocal() && !own && OnCopy in x.rts)
      && (v == SignalOwner <==> MayAct(tb, p, caller) && x.IsLocal() && !own && OnCopy !in x.rts)
  {
  }

  /** A refusal names the first reason: the process is not bound, has no endpoint, is a proxy, is of
      another DC or on a node the DC does not have; then the same of the caller. */
  lemma RefusalNames(tb: Table, p: Slot, caller: Caller, rc: int)
    requires p < |tb.procs| && UnbindVerdict(tb, p, caller) == Refuse(rc)
    ensures
      var x := tb.procs[p];
      && (rc == EMOLNOTBIND <==> x.Free())
      && (rc == EMOLENDPOINT <==> !x.Free() && NoEndpoint in x.rts)
      && (rc == EMOLBADPROC <==> !x.Free() && NoEndpoint !in x.rts && ProxyProc in x.misc)
      && (rc == EMOLNODCNODE <==> x.rts !! {SlotFree, NoEndpoint} && ProxyProc !in x.misc && x.dcid == tb.dcid && x.nodeid !in tb.nodes)
      && (rc == EMOLBADPID ==> caller.Bound? && caller.dcid == tb.dcid && !caller.pidMatches)
      && (rc == EMOLBADDCID ==> x.dcid != tb.dcid || (caller.Bound? && caller.dcid != tb.dcid))
      && rc in {EMOLNOTBIND, EMOLENDPOINT, EMOLBADPROC, EMOLBADDCID, EMOLNODCNODE, EMOLBADPID}
  {
  }

  /** What each verdict leaves: a process in a copy is marked if it asked for the copy; one that is
      signalled ends its wait with EMOLSHUTDOWN if the signal was delivered; nobody else changes
      unless the slot is cleaned up. */
  lemma VerdictLeaves(tb: Table, p: Slot, caller: Caller, sigRc: int)
    requires p < |tb.procs|
    ensures
      var v, x, t := UnbindVerdict(tb, p, caller), tb.procs[p], UnbindTable(tb, p, caller, sigRc);
      && (v.Refuse? ==> t == tb)
      && (v == MarkCopying ==> t == Put(tb, p, if RmtOper in x.rts then x.(rts := x.rts + {Signaled}) else x))
      && (v == SignalOwner && sigRc != OK ==> t == tb)
      && (v == SignalOwner && sigRc == OK ==>
            t == Put(tb, p, if x.rts == {} then x else x.(rcode := EMOLSHUTDOWN, sem := x.sem + 1)))
      && (v == DropBackup ==> t == Put(tb, p, t.procs[p]) && t.procs[p].rts == {SlotFree})
      && (v == CleanUp && ListsOk(tb, p) ==> t == Unbound(tb, p))
  {
  }

  // ---- binding ----

  /** What mm_bind finds for the pid it is given. */
  datatype Lookup = Found(leader: bool) | NoTask | LeaderUnbound | LeaderElsewhere {
    function Rc(): int {
      match this
      case Found(_) => OK
      case NoTask => EMOLBADPROC
      case LeaderUnbound => EMOLGRPLEADER
      case LeaderElsewhere => EMOLBADPROC
    }
  }

  /** What lock_sr_proxies returns for the pair of a node, and whether both proxies are bound. */
  datatype PairCheck = PairCheck(lockRc: int, bothUp: bool)

  datatype BindOper = SelfBind | LclBind | ReplicaBind | RmtBind | BkupBind

  /** Refused: nothing happened. Failed: after the descriptor was initialised, so the slot is
      free. */
  datatype Outcome = Refused(rc: int) | Failed(rc: int) | Done

  /** mm_bind, after the range checks. The test that both proxies of a remote process's pair are
      bound has no effect, because its result is overwritten by that of the unlocking. */
  function BindOutcome(tb: Table, released: bool, oper: BindOper, i: Slot, node: int, task: Lookup, pair: PairCheck): Outcome
    requires i < |tb.procs|
  {
    var away := oper in {RmtBind, BkupBind};
    if away && node == tb.net.local then Refused(EMOLBADNODEID)
    else if released then Refused(EMOLDCNOTRUN)
    else if (if away then node else tb.net.local) !in tb.nodes then Refused(EMOLNODCNODE)
    else if !tb.procs[i].Free() && oper !in {ReplicaBind, BkupBind} then Refused(EMOLSLOTUSED)
    else if oper.RmtBind? then if pair.lockRc != OK then Failed(EMOLNOPROXY) else Done
    else if task.Found? then Done else Failed(task.Rc())
  }

  /** The descriptor mm_bind leaves in slot i. */
  function BoundProc(tb: Table, oper: BindOper, i: Slot, node: int, leader: bool): Proc
    requires i < |tb.procs|
  {
    var b := InitProc(tb.procs[i], tb.dcid).(sid := SysId(tb, i));
    var lead := if leader then {GrpLeader} else {};
    match oper
    case SelfBind => b.(rts := {}, misc := lead, nodeid := tb.net.local)
    case LclBind => b.(rts := {}, misc := lead, nodeid := tb.net.local)
    case ReplicaBind => b.(rts := {}, misc := lead + {Replicated}, nodeid := tb.net.local)
    case BkupBind => b.(rts := {Remote}, misc := lead + {RmtBackup}, nodeid := node)
    case RmtBind => b.(rts := {Remote}, nodeid := node)
  }

  function BindTable(tb: Table, out: Outcome, oper: BindOper, i: Slot, node: int, task: Lookup): (r: Table)
    requires i < |tb.procs|
    ensures |r.procs| == |tb.procs|
  {
    match out
    case Refused(_) => tb
    case Failed(_) => Put(tb, i, InitProc(tb.procs[i], tb.dcid))
    case Done => Put(tb, i, BoundProc(tb, oper, i, node, task.Found? && task.leader))
  }

  /** do_autobind of the remote process of slot i that sent a message from endpoint ep. */
  function AutobindOutcome(tb: Table, i: Slot, ep: int, node: int, maxNodes: nat, pair: PairCheck): Outcome
    requires i < |tb.procs|
  {
    if !(0 <= SlotOf(tb.nrTasks, ep) < |tb.procs|) then Refused(EMOLBADDCID)
    else if SlotOf(tb.nrTasks, ep) != i then Refused(EMOLBADPROC)
    else if !(0 <= node < maxNodes) then Refused(EMOLBADNODEID)
    else if node !in tb.nodes then Refused(EMOLNODCNODE)
    else if !tb.procs[i].Free() then Refused(EMOLSLOTUSED)
    else if node == tb.net.local then Failed(EMOLBADNODEID)
    else if pair.lockRc != OK then Failed(pair.lockRc)
    else if !pair.bothUp then Failed(EMOLNOPROXY)
    else Done
  }

  function AutobindTable(tb: Table, out: Outcome, i: Slot, ep: int, node: int): (r: Table)
    requires i < |tb.procs|
    ensures |r.procs| == |tb.procs|
  {
    match out
    case Refused(_) => tb
    case Failed(_) => Put(tb, i, InitProc(tb.procs[i], tb.dcid))
    case Done =>
      Put(tb, i, InitProc(tb.procs[i], tb.dcid).(endpoint := ep, rts := {Remote}, nodeid := node, sid := SysId(tb, i)))
  }

  /** A successful bind into a free slot is the step Bind of a run of the queues, but for p_misc_flags,
      which no queue depends on. */
  lemma BindIsStep(tb: Table, released: bool, oper: BindOper, i: Slot, node: int, task: Lookup, pair: PairCheck)
    requires i < |tb.procs| && tb.procs[i].Free() && BindOutcome(tb, released, oper, i, node, task, pair).Done?
    ensures
      var t := BindTable(tb, Done, oper, i, node, task);
      Put(t, i, t.procs[i].(misc := {})) == Bind(tb, i, if oper in {RmtBind, BkupBind} then node else tb.net.local)
  {
    var t := BindTable(tb, Done, oper, i, node, task);
    assert t.procs[i := t.procs[i].(misc := {})] == tb.procs[i := t.procs[i].(misc := {})];
  }

  lemma AutobindIsStep(tb: Table, i: Slot, ep: int, node: int, maxNodes: nat, pair: PairCheck)
    requires i < |tb.procs| && AutobindOutcome(tb, i, ep, node, maxNodes, pair).Done?
    ensures AutobindTable(tb, Done, i, ep, node) == Autobind(tb, i, ep, node)
  {
  }

  /** The descriptor of a new process: it runs, here or on its node, waits for nothing and has empty
      queues; it keeps the endpoint of the slot, has a system id exactly in a system slot, and
      carries the bits of a group leader, a replica or a backup exactly if it is one. */
  lemma BindGives(tb: Table, oper: BindOper, i: Slot, node: int, leader: bool)
    requires i < |tb.procs|
    ensures
      var b := BoundProc(tb, oper, i, node, leader);
      && b.rts == (if oper in {RmtBind, BkupBind} then {Remote} else {})
      && b.nodeid == (if oper in {RmtBind, BkupBind} then node else tb.net.local)
      && (GrpLeader in b.misc <==> leader && oper != RmtBind)
      && (RmtBackup in b.misc <==> oper == BkupBind) && (Replicated in b.misc <==> oper == ReplicaBind)
      && b.misc <= {GrpLeader, RmtBackup, Replicated}
      && b.sid == (if i < tb.nrSys then i else tb.nrSys)
      && b.endpoint == tb.procs[i].endpoint && b.dcid == tb.dcid && b.notify == {} && b.sem == 0 && b.rcode == OK
      && b.getfrom == b.sendto == b.waitmigr == b.waitunbind == b.proxy == NONE && b.cmd.cmd == CMD_NONE
      && b.plist == [] && b.mlist == [] && b.ulist == []
  {
  }

  /** mm_bind answers with the first reason against it: a remote process on this node, a DC that has
      ended, a node the DC does not have, a slot in use that only a replica or a backup may take over. A
      bind that fails later, for want of a proxy or a task, has already emptied the slot. */
  lemma BindAnswers(tb: Table, released: bool, oper: BindOper, i: Slot, node: int, task: Lookup, pair: PairCheck)
    requires i < |tb.procs|
    ensures
      var out := BindOutcome(tb, released, oper, i, node, task, pair);
      var here, at := oper !in {RmtBind, BkupBind}, if oper in {RmtBind, BkupBind} then node else tb.net.local;
      var used := !tb.procs[i].Free() && oper !in {ReplicaBind, BkupBind};
      && (!here && node == tb.net.local ==> out == Refused(EMOLBADNODEID))
      && ((here || node != tb.net.local) && released ==> out == Refused(EMOLDCNOTRUN))
      && ((here || node != tb.net.local) && !released && at !in tb.nodes ==> out == Refused(EMOLNODCNODE))
      && ((here || node != tb.net.local) && !released && at in tb.nodes ==>
            && (out == Refused(EMOLSLOTUSED) <==> used)
            && (out == Failed(EMOLNOPROXY) <==> !used && oper == RmtBind && pair.lockRc != OK)
            && (out == Done <==> !used && if oper == RmtBind then pair.lockRc == OK else task.Found?)
            && (!used && oper != RmtBind && task in {NoTask, LeaderElsewhere} ==> out == Failed(EMOLBADPROC))
            && (!used && oper != RmtBind && task == LeaderUnbound ==> out == Failed(EMOLGRPLEADER)))
  {
  }

  /** do_autobind answers likewise; it also fails, with the slot emptied, on this node and without
      both proxies. */
  lemma AutobindAnswers(tb: Table, i: Slot, ep: int, node: int, maxNodes: nat, pair: PairCheck)
    requires i < |tb.procs|
    ensures
      var out, nr := AutobindOutcome(tb, i, ep, node, maxNodes, pair), SlotOf(tb.nrTasks, ep);
      && (out == Refused(EMOLBADDCID) <==> nr < 0 || nr >= |tb.procs|)
      && (out == Refused(EMOLBADPROC) <==> 0 <= nr < |tb.procs| && nr != i)
      && (out == Refused(EMOLBADNODEID) <==> nr == i && !(0 <= node < maxNodes))
      && (out == Refused(EMOLNODCNODE) <==> nr == i && 0 <= node < maxNodes && node !in tb.nodes)
      && (nr == i && 0 <= node < maxNodes && node in tb.nodes ==>
            && (out == Refused(EMOLSLOTUSED) <==> !tb.procs[i].Free())
            && (tb.procs[i].Free() && node == tb.net.local ==> out == Failed(EMOLBADNODEID))
            && (tb.procs[i].Free() && node != tb.net.local && pair.lockRc != OK ==> out == Failed(pair.lockRc))
            && (tb.procs[i].Free() && node != tb.net.local && pair.lockRc == OK && !pair.bothUp ==> out == Failed(EMOLNOPROXY))
            && (out == Done <==> tb.procs[i].Free() && node != tb.net.local && pair == PairCheck(OK, true)))
  {
  }

  /** After the nodes of a DC have changed, a free slot can be bound on exactly the nodes it now has. */
  lemma RewireThenBind(tb: Table, i: Slot, node: int, nodes: set<int>, route: map<int, int>)
    requires i < |tb.procs| && tb.procs[i].Free()
    ensures
      var t := Step(Step(tb, EvRewire(nodes, route)), EvBind(i, node));
      |t.procs| == |tb.procs| && t.net.route == route && (!t.procs[i].Free() <==> node in nodes)
  {
  }
}
