/**
 A DC descriptor with its process table, and the methods of the kernel module that
 update it in place. Each method is proved against the function of ProcTable that
 describes the whole new table.
 */
module DcDescriptor {
  import opened Descriptors
  import opened ProcTable
  import opened Lifecycle
  import RefCount
  import QueueRuns
  import opened Groups
  import QueueOps
  import Acks

  lemma FreedLists(tb: Table, p: Slot)
    requires AllLists(tb) && p < |tb.procs|
    ensures AllLists(QueueOps.Put(tb, p, InitProc(tb.procs[p], tb.dcid)))
  {
    SameListsKeep(tb, QueueOps.Put(tb, p, InitProc(tb.procs[p], tb.dcid)), p);
  }

  lemma SameProcsLists(tb: Table, t: Table)
    requires AllLists(tb) && t.procs == tb.procs
    ensures AllLists(t)
  {
    forall j: Slot | j < |t.procs| ensures ListsOk(t, j) {
      assert ListsOk(tb, j);
    }
  }

  lemma SameNodes(tb: Table, t: Table, node: int, x: Proc)
    requires t.nrTasks == tb.nrTasks && |t.procs| == |tb.procs|
    requires forall j :: 0 <= j < |tb.procs| ==> t.procs[j].nodeid == tb.procs[j].nodeid
    ensures QueueRuns.Unheard(t, node)(x) == QueueRuns.Unheard(tb, node)(x)
  {
  }

  class Dc {
    const dcid: int
    const nrTasks: nat
    const nrSys: nat
    const proc: array<Proc>
    var net: Net
    var nodes: set<int>
    var outq: seq<Slot>
    /** dc_kref, and whether dc_release has run. */
    var refs: nat
    var released: bool

    ghost function Tab(): Table
      reads this, proc
    {
      Table(proc[..], outq, net, dcid, nrTasks, nrSys, nodes)
    }

    /** The DC as the accounting of its references sees it. */
    ghost function Acct(): RefCount.State
      reads this, proc
    {
      RefCount.State(Tab(), refs, released, [], 0, 0, 0)
    }

    ghost predicate Agrees(s: RefCount.State)
      reads this, proc
    {
      s.tb == Tab() && s.refs == refs && s.released == released
    }

    /** mm_dc_init: every slot free, one reference for the DC itself. */
    constructor (dcid: int, local: int, nrTasks: nat, nrProcs: nat, nrSys: nat)
      ensures fresh(proc) && proc.Length == nrTasks + nrProcs
      ensures Tab() == Table(proc[..], [], Net(local, map[]), dcid, nrTasks, nrSys, {local})
      ensures forall i :: 0 <= i < proc.Length ==>
                proc[i] == InitProc(proc[i], dcid).(endpoint := i - nrTasks, sem := 1)
      ensures refs == 1 && !released
    {
      this.dcid, this.nrTasks, this.nrSys := dcid, nrTasks, nrSys;
      net, nodes, outq, refs, released := Net(local, map[]), {local}, [], 1, false;
      var blank := Proc(0, dcid, -1, {SlotFree}, {}, NONE, NONE, NONE, NONE, NONE, 0, {}, OK, 1,
                        Cmd(CMD_NONE, dcid, NONE, NONE, -1, -1, OK), [], [], []);
      proc := new Proc[nrTasks + nrProcs](i => blank.(endpoint := i - nrTasks));
    }

    /** Change descriptor x by f, and queue it for the sender proxy if g says so. */
    method Handle(x: Slot, f: Proc -> Proc, g: Proc -> bool)
      requires x < proc.Length
      modifies proc, this`outq
      ensures proc[..] == old(proc[..][x := f(proc[x])])
      ensures outq == old(outq) + if g(old(proc[x])) then [x] else []
    {
      if g(proc[x]) {
        outq := outq + [x];
      }
      proc[x] := f(proc[x]);
    }

    /** A loop over a queue q of p that unlinks the head and handles it until none is
        left; put gives the descriptor of p with a queue in the place of q. */
    method DrainWith(p: Slot, q: seq<Slot>, put: seq<Slot> -> Proc, f: Proc -> Proc, g: Proc -> bool)
      requires p < proc.Length && proc[p] == put(q)
      requires NoDup(q) && p !in q && forall x :: x in q ==> x < proc.Length
      modifies proc, this`outq
      ensures proc[..] == Sweep(old(proc[..]), q, f)[p := put([])]
      ensures outq == old(outq) + Pick(old(proc[..]), q, g)
    {
      ghost var s := proc[..];
      var k := 0;
      assert s == Sweep(s, q[..0], f)[p := put(q[0..])];
      while k < |q|
        invariant 0 <= k <= |q|
        invariant proc[..] == Sweep(s, q[..k], f)[p := put(q[k..])]
        invariant outq == old(outq) + Pick(s, q[..k], g)
      {
        assert q[k] in q;
        DrainTurn(s, q, k, f, g, p, put(q[k..]), put(q[k + 1..]));
        proc[p] := put(q[k + 1..]);
        Handle(q[k], f, g);
        k := k + 1;
      }
      assert q[..k] == q && q[k..] == [];
    }

    method Drain(kind: DrainKind, p: Slot)
      requires p < proc.Length && ListOk(Tab(), p, QueueOf(kind, proc[p]))
      modifies proc, this`outq
      ensures Tab() == Drained(old(Tab()), kind, p)
    {
      var owner, q := proc[p], QueueOf(kind, proc[p]);
      QueueLaws(kind, owner, q, []);
      DrainWith(p, q, r => WithQueue(kind, owner, r), After(net, kind, owner.endpoint), Joins(net, kind));
    }

    /** The walk over every other descriptor, each handled under its own lock. */
    method ForEachOther(p: Slot, f: Proc -> Proc, g: Proc -> bool)
      modifies proc, this`outq
      ensures proc[..] == Sweep(old(proc[..]), Others(proc.Length, p), f)
      ensures outq == old(outq) + Pick(old(proc[..]), Others(proc.Length, p), g)
    {
      ghost var s := proc[..];
      ghost var q := [];
      for i := 0 to proc.Length
        invariant q == Others(i, p)
        invariant proc[..] == Sweep(s, q, f)
        invariant outq == old(outq) + Pick(s, q, g)
      {
        if i != p {
          SweepSnoc(s, q, i, f, g);
          Handle(i, f, g);
          q := q + [i];
        }
      }
    }

    /** LIST_DEL_INIT of p_link, p_mlink or p_ulink: the change is to every list at once,
        since a link says by itself which list it is on. */
    method Unlink(change: Proc -> Proc)
      modifies proc
      ensures proc[..] == seq(|old(proc[..])|, j requires 0 <= j < |old(proc[..])| => change(old(proc[j])))
    {
      forall j | 0 <= j < proc.Length {
        proc[j] := change(proc[j]);
      }
    }

    /** Steps 3 and 4 of do_unbind: leave the proxy queue and the destination's queue. */
    method LeaveSenders(p: Slot)
      requires p < proc.Length
      modifies proc, this`outq
      ensures Tab() == CutP(old(Tab()), p)
    {
      var x := proc[p];
      var i := SlotOf(nrTasks, x.sendto);
      var cut := || (RmtOper in x.rts && x.proxy != NONE)
                 || (Sending in x.rts && 0 <= i < proc.Length && proc[i].IsLocal());
      proc[p] := x.(rts := x.rts - {RmtOper, Sending},
                    proxy := if RmtOper in x.rts then NONE else x.proxy,
                    sendto := if Sending in x.rts then NONE else x.sendto);
      if cut {
        Unlink((z: Proc) => z.(plist := Without(z.plist, p)));
        outq := Without(outq, p);
      }
    }

    method LeaveMigration(p: Slot)
      requires p < proc.Length
      modifies proc
      ensures Tab() == CutM(old(Tab()), p)
    {
      if WaitMigr in proc[p].rts {
        proc[p] := proc[p].(rts := proc[p].rts - {WaitMigr}, waitmigr := NONE);
        Unlink((z: Proc) => z.(mlist := Without(z.mlist, p)));
      }
    }

    method LeaveUnbindWait(p: Slot)
      requires p < proc.Length
      modifies proc
      ensures Tab() == CutU(old(Tab()), p)
    {
      if WaitUnbind in proc[p].rts {
        proc[p] := proc[p].(rts := proc[p].rts - {WaitUnbind}, waitunbind := NONE);
        Unlink((z: Proc) => z.(ulist := Without(z.ulist, p)));
      }
    }

    /** The first two passes of the clean-up: senders, then notify bits and receivers. */
    method AnswerAll(p: Slot)
      requires ListsOk(Tab(), p)
      modifies proc, this`outq
      ensures Tab() == Answered(old(Tab()), p)
    {
      Drain(SendersDied, p);
      var x := proc[p];
      ForEachOther(p, Noticed(net, x.endpoint, x.sid, nrSys), NoticeJoins(net, x.endpoint));
    }

    method EmptyQueues(p: Slot)
      requires ListsOk(Tab(), p)
      modifies proc, this`outq
      ensures Tab() == Emptied(old(Tab()), p)
    {
      LeaveSenders(p);
      LeaveMigration(p);
      Drain(MigrWaitersDied, p);
      LeaveUnbindWait(p);
      Drain(UnbindWaiters, p);
    }

    /** DC_DECREF: drop a reference; dc_release runs when the count reaches zero. */
    method DecRef()
      requires refs > 0
      modifies this`refs, this`released, this`nodes
      ensures Acct() == RefCount.Dec(old(Acct()))
    {
      refs := refs - 1;
      if refs == 0 {
        released := true;
        nodes := {};
      }
    }

    /** The clean-up that cuts p out of every queue and frees its slot. */
    method CleanSlot(p: Slot)
      requires ListsOk(Tab(), p)
      modifies proc, this`outq
      ensures Tab() == Unbound(old(Tab()), p)
    {
      AnswerAll(p);
      EmptyQueues(p);
      proc[p] := InitProc(proc[p], dcid);
    }

    /** The checks of do_unbind, in the order the code makes them. */
    method CheckUnbind(p: Slot, caller: Caller) returns (v: Verdict)
      requires p < proc.Length
      ensures v == UnbindVerdict(Tab(), p, caller)
    {
      var x := proc[p];
      if x.Free() { return Refuse(EMOLNOTBIND); }
      if NoEndpoint in x.rts { return Refuse(EMOLENDPOINT); }
      if ProxyProc in x.misc { return Refuse(EMOLBADPROC); }
      if x.dcid != dcid { return Refuse(EMOLBADDCID); }
      if x.nodeid !in nodes { return Refuse(EMOLNODCNODE); }
      if caller.Bound? {
        if caller.dcid != dcid { return Refuse(EMOLBADDCID); }
        if !caller.pidMatches { return Refuse(EMOLBADPID); }
      }
      if x.IsLocal() {
        if !(caller.Bound? && caller.slot == p) {
          if OnCopy in x.rts { return MarkCopying; }
          return SignalOwner;
        }
      } else if RmtBackup in x.misc {
        return DropBackup;
      }
      return CleanUp;
    }

    /** do_unbind of a local process by another: mark it, or signal it and end its wait. */
    method SignalOther(p: Slot, copying: bool, sigRc: int) returns (rc: int)
      requires p < proc.Length
      modifies proc
      ensures rc == if copying then OK else if sigRc != OK then sigRc else EMOLAGAIN
      ensures proc[..] == old(proc[..])[p := Signalled(old(proc[p]), copying, sigRc)]
    {
      if copying {
        if RmtOper in proc[p].rts {
          proc[p] := proc[p].(rts := proc[p].rts + {Signaled});
        }
        return OK;
      }
      if sigRc != OK { return sigRc; }
      if proc[p].rts != {} {
        proc[p] := Up(proc[p], EMOLSHUTDOWN);
      }
      return EMOLAGAIN;
    }

    /** What do_unbind does to the table once it has decided. */
    method Enact(p: Slot, v: Verdict, caller: Caller, sigRc: int) returns (rc: int)
      requires ListsOk(Tab(), p) && v == UnbindVerdict(Tab(), p, caller)
      modifies proc, this`outq
      ensures Tab() == UnbindTable(old(Tab()), p, caller, sigRc)
      ensures old(AllLists(Tab())) ==> AllLists(Tab())
      ensures rc == if v.Refuse? then v.rc else if v != SignalOwner then OK else if sigRc != OK then sigRc else EMOLAGAIN
    {
      ghost var tb := Tab();
      rc := OK;
      match v {
        case Refuse(e) =>
          rc := e;
        case MarkCopying =>
          rc := SignalOther(p, true, sigRc);
          if AllLists(tb) { PutLists(tb, p, proc[p]); }
        case SignalOwner =>
          rc := SignalOther(p, false, sigRc);
          if AllLists(tb) { PutLists(tb, p, proc[p]); }
        case DropBackup =>
          proc[p] := InitProc(proc[p], dcid);
          if AllLists(tb) { FreedLists(tb, p); }
        case CleanUp =>
          CleanSlot(p);
          if AllLists(tb) { UnboundLists(tb, p); }
      }
    }

    /** do_unbind; sigRc is what delivering SIGPIPE to the owner of the slot returned. */
    method DoUnbind(p: Slot, caller: Caller, sigRc: int) returns (rc: int)
      requires ListsOk(Tab(), p) && refs > 0
      modifies proc, this`outq, this`refs, this`released, this`nodes
      ensures Acct() == RefCount.UnbindStep(old(Acct()), p, caller, sigRc)
      ensures old(AllLists(Tab())) ==> AllLists(Tab())
      ensures var v := UnbindVerdict(old(Tab()), p, caller);
              rc == if v.Refuse? then v.rc else if v != SignalOwner then OK else if sigRc != OK then sigRc else EMOLAGAIN
    {
      var v := CheckUnbind(p, caller);
      rc := Enact(p, v, caller, sigRc);
      ghost var t := Tab();
      if v == DropBackup || v == CleanUp {
        DecRef();
      }
      if AllLists(t) { SameProcsLists(t, Tab()); }
    }

    method ClearSlot(k: Slot, caller: Caller, keep: Proc -> bool)
      requires k < proc.Length && AllLists(Tab()) && refs > 0
      modifies proc, this`outq, this`refs, this`released, this`nodes
      ensures Acct() == RefCount.ClearOne(old(Acct()), k, caller, keep)
      ensures AllLists(Tab()) && refs >= old(refs) - 1 && (refs == 0 ==> released)
    {
      if !keep(proc[k]) {
        assert ListsOk(Tab(), k);
        var _ := DoUnbind(k, caller, OK);
      }
    }

    /** The loops of do_dc_end and do_node_end that unbind the processes not kept. */
    method Clear(caller: Caller, keep: Proc -> bool)
      requires AllLists(Tab()) && refs > 0
      modifies proc, this`outq, this`refs, this`released, this`nodes
      ensures Acct() == RefCount.ClearFrom(old(Acct()), 0, caller, keep)
    {
      var k := 0;
      while k < proc.Length && !released
        invariant 0 <= k <= proc.Length && AllLists(Tab()) && (released || refs > 0)
        invariant RefCount.ClearFrom(Acct(), k, caller, keep) == RefCount.ClearFrom(old(Acct()), 0, caller, keep)
      {
        ClearSlot(k, caller, keep);
        k := k + 1;
      }
    }

    /** The part of do_node_end in this DC. */
    method NodeEnds(node: int, caller: Caller)
      requires AllLists(Tab()) && refs > 0
      modifies proc, this`outq, this`refs, this`released, this`nodes
      ensures Acct() == RefCount.NodeGone(old(Acct()), node, caller)
    {
      Clear(caller, RefCount.Elsewhere(node));
      nodes := nodes - {node};
    }

    /** The second loop of do_dc_end from slot k to the next wait, or to its end. */
    method EndWalk(k: nat) returns (at: nat)
      requires refs > 0
      modifies this`refs, this`released, this`nodes
      ensures at == RefCount.FirstBound(old(Tab()), k)
      ensures Acct() == if at < proc.Length then old(Acct()) else RefCount.Dec(old(Acct()))
    {
      at := k;
      while at < proc.Length && proc[at].Free()
        invariant k <= at && RefCount.FirstBound(Tab(), at) == RefCount.FirstBound(Tab(), k)
        decreases proc.Length - at
      {
        at := at + 1;
      }
      if at >= proc.Length {
        DecRef();
      }
    }

    method FlushMigrList(p: Slot)
      requires ListsOk(Tab(), p)
      modifies proc, this`outq
      ensures Tab() == Drained(old(Tab()), MigrDone, p)
    {
      Drain(MigrDone, p);
    }

    method FlushSendingList(p: Slot)
      requires ListsOk(Tab(), p)
      modifies proc, this`outq
      ensures Tab() == Drained(old(Tab()), SendersReplay, p)
    {
      Drain(SendersReplay, p);
    }

    /** The part of mm_wait4bind that queues the caller x on process o. */
    method Wait4Unbind(x: Slot, o: Slot)
      requires x < proc.Length && o < proc.Length
      modifies proc
      ensures Tab() == QueueRuns.WaitForUnbind(old(Tab()), x, o)
    {
      if proc[x].rts == {} && x != o && !proc[o].Free() {
        proc[x] := proc[x].(rts := {WaitUnbind}, waitunbind := proc[o].endpoint);
        proc[o] := proc[o].(ulist := proc[o].ulist + [x]);
      }
    }

    /** kernel_warn2proc, up to the caller's sleep. The exiting process c has left every call, and w
        was found bound and not migrating. */
    method Warn2Proc(c: Slot, w: Slot) returns (rc: int)
      requires c < proc.Length && w < proc.Length && c != w
      requires QueueRuns.Ready(proc[c]) && !proc[w].Free() && Migrate !in proc[w].rts
      modifies proc, this`outq
      ensures rc == if proc[w].IsRemote() && proc[w].nodeid !in net.route then EMOLNOPROXY else OK
      ensures Tab() == QueueRuns.Warn(old(Tab()), c, w)
    {
      var me := proc[c];
      if proc[w].IsRemote() {
        var node := proc[w].nodeid;
        if node !in net.route { return EMOLNOPROXY; }
        proc[w] := proc[w].(rts := proc[w].rts - {Receiving});
        if proc[w].getfrom == me.endpoint {
          proc[w] := proc[w].(getfrom := NONE);
        }
        assert me.rts + {Sending} + {} + {RmtOper} == me.rts + {Sending, RmtOper};
        proc[c] := me.(rts := me.rts + {Sending, RmtOper}, getfrom := proc[w].endpoint, sendto := proc[w].endpoint,
                       cmd := Cmd(CMD_SEND_MSG, me.dcid, me.endpoint, proc[w].endpoint, net.local, node, OK));
        var _ := SproxyEnqueue(c);
        assert proc[..] == QueueRuns.Warn(old(Tab()), c, w).procs;
      } else if Receiving in proc[w].rts && Sending !in proc[w].rts
                && (proc[w].getfrom == ANY || proc[w].getfrom == me.endpoint) {
        proc[c] := me.(rts := me.rts + {Receiving}, getfrom := proc[w].endpoint);
        proc[w] := proc[w].(rts := proc[w].rts - {Receiving}, getfrom := NONE);
        if proc[w].rts == {} {
          proc[w] := Up(proc[w], OK);
        }
      } else {
        assert me.rts + {Sending} + {Receiving} == me.rts + {Receiving, Sending};
        proc[c] := me.(rts := me.rts + {Receiving, Sending}, getfrom := proc[w].endpoint, sendto := proc[w].endpoint);
        proc[w] := proc[w].(plist := proc[w].plist + [c]);
      }
      rc := OK;
    }

    /** The end of mm_bind: an initialised descriptor becomes that of a process. */
    method FillIn(oper: BindOper, i: Slot, node: int, leader: bool)
      requires i < proc.Length && proc[i] == InitProc(proc[i], dcid)
      modifies proc
      ensures proc[..] == old(proc[..])[i := BoundProc(old(Tab()), oper, i, node, leader)]
    {
      if oper.RmtBind? {
        proc[i] := proc[i].(rts := {Remote}, nodeid := node);
      } else {
        if leader {
          proc[i] := proc[i].(misc := {GrpLeader});
        }
        if oper.BkupBind? {
          proc[i] := proc[i].(rts := {Remote}, misc := proc[i].misc + {RmtBackup}, nodeid := node);
        } else {
          proc[i] := proc[i].(rts := {}, nodeid := net.local);
          if oper.ReplicaBind? {
            proc[i] := proc[i].(misc := proc[i].misc + {Replicated});
          }
        }
      }
      proc[i] := proc[i].(sid := if i < nrSys then i else nrSys);
    }

    /** mm_bind, after the range checks. A failure after the descriptor was initialised leaves
        the slot free. */
    method MmBind(oper: BindOper, i: Slot, node: int, task: Lookup, pair: PairCheck) returns (rc: int)
      requires i < proc.Length
      modifies proc, this`refs
      ensures Agrees(RefCount.BindStep(old(Acct()), oper, i, node, task, pair))
      ensures var out := BindOutcome(old(Tab()), released, oper, i, node, task, pair);
              rc == if out.Done? then old(proc[i].endpoint) else out.rc
    {
      var at := net.local;
      if oper.RmtBind? || oper.BkupBind? {
        if node == net.local { return EMOLBADNODEID; }
        at := node;
      }
      if released { return EMOLDCNOTRUN; }
      if at !in nodes { return EMOLNODCNODE; }
      if !proc[i].Free() && oper != BkupBind && oper != ReplicaBind { return EMOLSLOTUSED; }
      proc[i] := InitProc(proc[i], dcid);
      if oper.RmtBind? {
        if pair.lockRc != OK { return EMOLNOPROXY; }
      } else {
        if !task.Found? { return task.Rc(); }
      }
      FillIn(oper, i, node, task.Found? && task.leader);
      assert proc[..] == BindTable(old(Tab()), Done, oper, i, node, task).procs;
      refs := refs + 1;
      rc := proc[i].endpoint;
    }

    /** do_autobind of the remote process that sent a message from endpoint ep. */
    method DoAutobind(i: Slot, ep: int, node: int, maxNodes: nat, pair: PairCheck) returns (rc: int)
      requires i < proc.Length
      modifies proc, this`refs
      ensures Agrees(RefCount.AutobindStep(old(Acct()), i, ep, node, maxNodes, pair))
      ensures var out := AutobindOutcome(old(Tab()), i, ep, node, maxNodes, pair); rc == if out.Done? then ep else out.rc
    {
      var nr := SlotOf(nrTasks, ep);
      if nr < 0 || nr >= proc.Length { return EMOLBADDCID; }
      if nr != i { return EMOLBADPROC; }
      if node < 0 || node >= maxNodes { return EMOLBADNODEID; }
      if node !in nodes { return EMOLNODCNODE; }
      if !proc[i].Free() { return EMOLSLOTUSED; }
      proc[i] := InitProc(proc[i], dcid);
      if node == net.local { return EMOLBADNODEID; }
      if pair.lockRc != OK { return pair.lockRc; }
      if !pair.bothUp { return EMOLNOPROXY; }
      proc[i] := proc[i].(rts := {Remote}, endpoint := ep, nodeid := node, sid := if i < nrSys then i else nrSys);
      refs := refs + 1;
      rc := ep;
    }

    /** The first loop of migr_start, migr_rollback and old_migrate: stop at the first
        bound thread that fails the check. */
    method CheckGroup(q: seq<Slot>, check: Proc -> int) returns (rc: int)
      requires Within(q, proc.Length)
      ensures rc == FirstError(proc[..], q, check)
    {
      ghost var s := proc[..];
      var k := 0;
      while k < |q|
        invariant 0 <= k <= |q|
        invariant Within(q[..k], |s|)
        invariant FirstError(s, q[..k], check) == OK
      {
        assert q[k] in q;
        FirstErrorSnoc(s, q, k, check);
        rc := check(proc[q[k]]);
        if rc != OK {
          FirstErrorStops(s, q, k + 1, check);
          return;
        }
        k := k + 1;
      }
      assert q[..k] == q;
      rc := OK;
    }

    /** The second loop of migr_start: mark every bound thread NEEDMIGR. */
    method MarkGroup(q: seq<Slot>)
      requires GroupOk(Tab(), q)
      modifies proc
      ensures proc[..] == Sweep(old(proc[..]), q, MarkNeed())
    {
      ghost var s := proc[..];
      var k := 0;
      while k < |q|
        invariant 0 <= k <= |q|
        invariant proc[..] == Sweep(s, q[..k], MarkNeed())
      {
        assert q[k] in q;
        SweepStep(s, q, k, MarkNeed(), (x: Proc) => false);
        proc[q[k]] := MarkNeed()(proc[q[k]]);
        k := k + 1;
      }
      assert q[..k] == q;
    }

    /** migr_start; q are the bound threads of the process. */
    method MigrStart(p: Slot, q: seq<Slot>) returns (rc: int)
      requires p < proc.Length && GroupOk(Tab(), q)
      modifies proc
      ensures rc == StartRc(old(Tab()), p, q) && Tab() == Start(old(Tab()), p, q)
    {
      var x := proc[p];
      if x.IsRemote() {
        rc := CheckThread(x, false);
        if rc == OK {
          proc[p] := x.(rts := x.rts + {Migrate});
        }
        return;
      }
      if GrpLeader !in x.misc { return EMOLGRPLEADER; }
      rc := CheckGroup(q, x => CheckThread(x, false));
      if rc == OK {
        MarkGroup(q);
      }
    }

    /** One thread of the second loop of migr_rollback. */
    method RollThread(p: Slot)
      requires AllLists(Tab()) && p < proc.Length
      modifies proc, this`outq
      ensures ListsOk(old(Tab()), p) && Tab() == QueueRuns.Roll(old(Tab()), p)
    {
      var x := proc[p];
      ghost var z := x.(rts := x.rts - {Migrate}, misc := x.misc - {NeedMigr});
      PutLists(Tab(), p, z);
      proc[p] := proc[p].(misc := proc[p].misc - {NeedMigr});
      proc[p] := proc[p].(rts := proc[p].rts - {Migrate});
      assert Tab() == QueueOps.Put(old(Tab()), p, z);
      FlushMigrList(p);
      if proc[p].rts == {} {
        proc[p] := Up(proc[p], OK);
      }
    }

    method RollGroup(q: seq<Slot>)
      requires AllLists(Tab()) && GroupOk(Tab(), q)
      modifies proc, this`outq
      ensures Tab() == RollAll(old(Tab()), q)
    {
      ghost var tb := Tab();
      var k := 0;
      while k < |q|
        invariant 0 <= k <= |q| && GroupOk(tb, q[..k])
        invariant Tab() == RollAll(tb, q[..k])
      {
        GroupPrefix(tb, q, k);
        RollThread(q[k]);
        k := k + 1;
      }
      assert q[..k] == q;
    }

    method MigrRollback(p: Slot, q: seq<Slot>) returns (rc: int)
      requires p < proc.Length && AllLists(Tab()) && GroupOk(Tab(), q)
      modifies proc, this`outq
      ensures rc == RollbackRc(old(Tab()), p, q) && Tab() == Rollback(old(Tab()), p, q)
    {
      var x := proc[p];
      if x.IsRemote() {
        rc := CheckThread(x, true);
        if rc == OK {
          proc[p] := x.(rts := x.rts - {Migrate}, misc := x.misc - {NeedMigr});
        }
        return;
      }
      if GrpLeader !in x.misc { return EMOLGRPLEADER; }
      rc := CheckGroup(q, x => CheckThread(x, true));
      if rc == OK {
        RollGroup(q);
      }
    }

    /** One thread of the second loop of old_migrate. */
    method LeaveThread(p: Slot, node: int)
      requires AllLists(Tab()) && p < proc.Length
      modifies proc, this`outq
      ensures ListsOk(old(Tab()), p) && Tab() == Leave(old(Tab()), p, node)
    {
      var x := proc[p];
      var z := QueueRuns.BecomeRemote(x.(misc := x.misc - {GrpLeader}), node);
      PutLists(Tab(), p, z);
      proc[p] := z;
      assert Tab() == QueueOps.Put(old(Tab()), p, z);
      FlushSendingList(p);
      DrainLists(QueueOps.Put(old(Tab()), p, z), p, SendersReplay);
      FlushMigrList(p);
    }

    method LeaveGroup(q: seq<Slot>, node: int)
      requires AllLists(Tab()) && GroupOk(Tab(), q)
      modifies proc, this`outq
      ensures Tab() == LeaveAll(old(Tab()), q, node)
    {
      ghost var tb := Tab();
      var k := 0;
      while k < |q|
        invariant 0 <= k <= |q| && Tab() == LeaveAll(tb, q[..k], node)
      {
        LeaveAllLists(tb, q, k, node);
        assert q[k] in q;
        FoldNext(tb, q, k, LeaveStep(node));
        LeaveThread(q[k], node);
        k := k + 1;
      }
      assert q[..k] == q;
    }

    method OldMigrate(p: Slot, q: seq<Slot>, node: int) returns (rc: int)
      requires p < proc.Length && AllLists(Tab()) && GroupOk(Tab(), q)
      modifies proc, this`outq
      ensures rc == OldRc(old(Tab()), p, q) && Tab() == Groups.OldMigrate(old(Tab()), p, q, node)
    {
      rc := CheckGroup(q, (x: Proc) => if Migrate in x.rts then OK else EMOLMIGRATE);
      if rc != OK { return; }
      if GrpLeader !in proc[p].misc { return EMOLGRPLEADER; }
      LeaveGroup(q, node);
    }

    /** migr_commit on whichever node this is. */
    method MigrCommit(p: Slot, q: seq<Slot>, node: int, nodeUp: bool, carries: bool, taskOk: bool) returns (rc: int)
      requires p < proc.Length && AllLists(Tab()) && GroupOk(Tab(), q)
      modifies proc, this`outq
      ensures rc == CommitRc(old(Tab()), p, q, node, nodeUp, carries, taskOk)
      ensures Tab() == Commit(old(Tab()), p, q, node, nodeUp, carries, taskOk)
    {
      if !nodeUp { return EMOLNOPROXY; }
      if node !in nodes || !carries { return EMOLDCNODE; }
      if proc[p].nodeid == net.local {
        rc := OldMigrate(p, q, node);
        if rc != OK { return; }
      } else if net.local == node {
        if !taskOk { return if RmtBackup in proc[p].misc then EMOLBADPID else EMOLBADPROC; }
        proc[p] := proc[p].(nodeid := net.local, rts := {});
      } else {
        PutLists(Tab(), p, proc[p].(nodeid := node));
        proc[p] := proc[p].(nodeid := node);
        assert Tab() == QueueOps.Put(old(Tab()), p, proc[p]);
        FlushMigrList(p);
      }
      proc[p] := Settled(proc[p]);
      rc := OK;
    }

    /** sproxy_enqueue: the pair is remembered in the descriptor, which joins the queue. */
    method SproxyEnqueue(r: Slot) returns (rc: int)
      requires r < proc.Length
      modifies proc, this`outq
      ensures rc == if Routed(net, old(proc[r])) then OK else EMOLNOPROXY
      ensures proc[..] == old(proc[..])[r := Enqueued(net, old(proc[r]))]
      ensures outq == old(outq) + if Routed(net, old(proc[r])) then [r] else []
    {
      var node := proc[r].cmd.dnode;
      if node !in net.route { return EMOLNOPROXY; }
      proc[r] := proc[r].(proxy := net.route[node]);
      outq := outq + [r];
      rc := OK;
    }

    /** generic_ack_lcl2rmt: the acknowledgement is addressed to the remote process, on its
        own node, in the name of the local one, and queued if that node has a proxy. */
    method GenericAckLcl2Rmt(ack: nat, r: Slot, l: Slot, rcode: int) returns (rc: int)
      requires r < proc.Length && l < proc.Length
      modifies proc, this`outq
      ensures proc[..] == old(proc[..])[r := Enqueued(net, AckCmd(net, ack, old(proc[r]), old(proc[l].endpoint), rcode))]
      ensures rc == OK <==> old(proc[r].nodeid) in net.route
      ensures outq == old(outq) + if rc == OK then [r] else []
      ensures proc[r].cmd.dst == old(proc[r].endpoint) && proc[r].cmd.src == old(proc[l].endpoint)
      ensures RmtOper in proc[r].rts && proc[r].cmd.dnode == proc[r].nodeid && proc[r].cmd.snode == net.local
    {
      proc[r] := proc[r].(rts := proc[r].rts + {RmtOper},
                          cmd := Cmd(ack, proc[r].dcid, proc[l].endpoint, proc[r].endpoint, net.local, proc[r].nodeid, rcode));
      rc := SproxyEnqueue(r);
    }

    /** error_lcl2rmt: the answer to a received header goes back in the name of the
        destination the header had. */
    method ErrorLcl2Rmt(ack: nat, r: Slot, h: Cmd, rcode: int) returns (rc: int)
      requires r < proc.Length
      modifies proc, this`outq
      ensures proc[..] == old(proc[..])[r := Enqueued(net, ErrorCmd(net, ack, old(proc[r]), h, rcode))]
      ensures rc == OK <==> old(proc[r].nodeid) in net.route
      ensures outq == old(outq) + if rc == OK then [r] else []
      ensures proc[r].cmd.src == h.dst && proc[r].cmd.dcid == h.dcid && proc[r].cmd.dst == old(proc[r].endpoint)
      ensures h.src == old(proc[r].endpoint) ==> proc[r].cmd.dst == h.src && proc[r].cmd.src == h.dst
    {
      proc[r] := proc[r].(rts := proc[r].rts + {RmtOper},
                          cmd := Cmd(ack, h.dcid, h.dst, proc[r].endpoint, net.local, proc[r].nodeid, rcode));
      rc := SproxyEnqueue(r);
    }

    /** send_ack_rmt2lcl; the receiver proxy has checked that both are bound, r remote, l local. */
    method SendAckRmt2Lcl(r: Slot, l: Slot, rcode: int) returns (rc: int)
      requires r < proc.Length && l < proc.Length
      requires !proc[r].Free() && proc[r].IsRemote() && !proc[l].Free() && proc[l].IsLocal()
      modifies proc
      ensures Tab() == QueueRuns.SendAck(old(Tab()), r, l, rcode)
      ensures rc == OK <==> Acks.Accepted(old(Tab()), r, l)
      ensures rc == (if Sending in old(proc[r]).rts then EMOLPROCSTS
                     else if Sending !in old(proc[l]).rts then EMOLACKDST
                     else if old(proc[l]).sendto != old(proc[r]).endpoint then EMOLACKSRC else OK)
    {
      if Sending in proc[r].rts { return EMOLPROCSTS; }
      if Sending !in proc[l].rts { return EMOLACKDST; }
      if proc[l].sendto != proc[r].endpoint { return EMOLACKSRC; }
      proc[l] := proc[l].(rts := proc[l].rts - {Sending});
      proc[l] := proc[l].(sendto := NONE);
      if proc[l].rts == {} {
        proc[l] := Up(proc[l], rcode);
      }
      rc := OK;
    }

    /** generic_ack_rmt2lcl: a copy acknowledgement posts the requester exactly if both sides
        are in a copy, the other side is remote and the requester waits for nothing else. */
    method GenericAckRmt2Lcl(r: Slot, l: Slot, rcode: int) returns (rc: int)
      requires r < proc.Length && l < proc.Length
      modifies proc
      ensures rc == OK <==> proc[r].IsRemote() && OnCopy in old(proc[l]).rts && OnCopy in old(proc[r]).rts
      ensures rc != OK ==> rc == if old(proc[r]).IsLocal() then EMOLLCLPROC
                                 else if old(proc[l]).rts == {} then EMOLPROCRUN else EMOLPROCSTS
      ensures proc[..] == if rc == OK && old(proc[l]).rts == {OnCopy} then old(proc[..])[l := Up(old(proc[l]), rcode)]
                          else old(proc[..])
    {
      if proc[r].IsLocal() { return EMOLLCLPROC; }
      if proc[l].rts == {} { return EMOLPROCRUN; }
      if OnCopy !in proc[l].rts { return EMOLPROCSTS; }
      if OnCopy !in proc[r].rts { return EMOLPROCSTS; }
      if proc[l].rts == {OnCopy} {
        proc[l] := Up(proc[l], rcode);
      }
      rc := OK;
    }

    /** One turn of flush_sending_procs. */
    method FlushOne(x: Slot, node: int)
      modifies proc, this`outq
      ensures Tab() == QueueRuns.FlushSender(old(Tab()), x, node)
    {
      if x in outq && x < proc.Length && !proc[x].Free() && proc[x].cmd.dnode == node {
        ghost var t := QueueOps.Dropping(Tab(), x, true, false, false);
        Unlink((z: Proc) => z.(plist := Without(z.plist, x)));
        outq := Without(outq, x);
        assert Tab() == t;
        proc[x] := QueueRuns.CutOff(proc[x]);
      }
    }

    /** flush_sending_procs for the descriptors that wait for pair px. */
    method FlushSendingProcs(node: int, px: int)
      modifies proc, this`outq
      ensures Tab() == Fold(old(Tab()), old(outq), FlushStep(node, px))
    {
      ghost var tb := Tab();
      var q, k := outq, 0;
      while k < |q|
        invariant 0 <= k <= |q| && Tab() == Fold(tb, q[..k], FlushStep(node, px))
      {
        FoldNext(tb, q, k, FlushStep(node, px));
        if q[k] < proc.Length && proc[q[k]].proxy == px {
          FlushOne(q[k], node);
        }
        k := k + 1;
      }
      assert q[..k] == q;
    }

    /** Endpoint ep names a process on node. */
    method OnNode(ep: int, node: int) returns (on: bool)
      ensures on == QueueRuns.LivesOn(Tab(), ep, node)
    {
      var i := SlotOf(nrTasks, ep);
      on := ep != ANY && ep != NONE && 0 <= i < proc.Length && proc[i].nodeid == node;
    }

    /** One turn of flush_receiving_procs. */
    method CutWaits(i: Slot, node: int)
      requires i < proc.Length
      modifies proc
      ensures proc[..] == old(proc[..])[i := QueueRuns.Unheard(old(Tab()), node)(old(proc[i]))]
    {
      var x := proc[i];
      if !x.Free() && x.IsLocal() {
        x := x.(rcode := EMOLNOTCONN);
        var on := OnNode(x.getfrom, node);
        if Receiving in x.rts && on {
          x := QueueRuns.WokenCut(x, Receiving);
        }
        on := OnNode(x.sendto, node);
        if Sending in x.rts && on {
          x := QueueRuns.WokenCut(x, Sending);
        }
        proc[i] := x;
      }
    }

    /** flush_receiving_procs in this DC. */
    method FlushReceivingProcs(node: int)
      modifies proc
      ensures Tab() == QueueRuns.FlushReceivers(old(Tab()), node)
    {
      ghost var tb := Tab();
      for i := 0 to proc.Length
        invariant forall j :: 0 <= j < proc.Length ==>
                    proc[j] == if j < i then QueueRuns.Unheard(tb, node)(tb.procs[j]) else tb.procs[j]
      {
        forall j | 0 <= j < proc.Length ensures proc[j].nodeid == tb.procs[j].nodeid {
          QueueRuns.UnheardAt(tb, node, tb.procs[j]);
        }
        SameNodes(tb, Tab(), node, proc[i]);
        CutWaits(i, node);
      }
      assert proc[..] == QueueRuns.FlushReceivers(tb, node).procs;
    }
  }
}
