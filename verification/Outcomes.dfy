/**
 The answers of START, ROLLBACK and COMMIT on one node, read off the flags of the threads, and
 whom a rollback wakes.
 */
module Outcomes {
  import opened Descriptors
  import opened ProcTable
  import opened Detach
  import opened QueueOps
  import opened QueueRuns
  import opened Groups

  // ---- answers ----

  /** The thread may be started, or, if it must be frozen, rolled back. */
  predicate Fit(x: Proc, frozen: bool) {
    x.rts !! {SlotFree, OnCopy, RmtOper, NoEndpoint} && (Migrate in x.rts <==> frozen)
  }

  /** rc names the first fault of a thread that is not fit: not bound, in a copy, in a remote
      operation, without endpoint, or wrongly frozen. */
  predicate Blames(x: Proc, rc: int) {
    && (SlotFree in x.rts ==> rc == EMOLNOTBIND)
    && (OnCopy in x.rts && x.rts !! {SlotFree} ==> rc == EMOLONCOPY)
    && (RmtOper in x.rts && x.rts !! {SlotFree, OnCopy} ==> rc == EMOLBUSY)
    && (NoEndpoint in x.rts && x.rts !! {SlotFree, OnCopy, RmtOper} ==> rc == EMOLENDPOINT)
    && (x.rts !! {SlotFree, OnCopy, RmtOper, NoEndpoint} ==> rc == EMOLMIGRATE)
  }

  lemma CheckMeans(x: Proc, frozen: bool)
    ensures CheckThread(x, frozen) == OK <==> Fit(x, frozen)
    ensures !Fit(x, frozen) ==> Blames(x, CheckThread(x, frozen))
  {
  }

  predicate AllFit(tb: Table, q: seq<Slot>, frozen: bool) {
    forall j: Slot :: j in q && j < |tb.procs| ==> Fit(tb.procs[j], frozen)
  }

  /** rc names the first fault of the first thread of q that is not fit. */
  ghost predicate BlamesFirst(tb: Table, q: seq<Slot>, frozen: bool, rc: int) {
    exists i :: 0 <= i < |q| && AllFit(tb, q[..i], frozen) && q[i] < |tb.procs|
                && !Fit(tb.procs[q[i]], frozen) && Blames(tb.procs[q[i]], rc)
  }

  /** The check loop answers OK exactly if every thread is fit, and else blames the first that is
      not. */
  lemma {:induction false} GroupAnswer(tb: Table, q: seq<Slot>, check: Proc -> int, frozen: bool)
    requires Within(q, |tb.procs|) && forall x: Proc :: check(x) == CheckThread(x, frozen)
    ensures
      var rc := FirstError(tb.procs, q, check);
      if AllFit(tb, q, frozen) then rc == OK else rc != OK && BlamesFirst(tb, q, frozen, rc)
    decreases |q|
  {
    if q != [] {
      var n := |q| - 1;
      var front := q[..n];
      assert q == front + [q[n]] && q[n] in q;
      assert forall j: Slot :: j in front ==> j in q;
      GroupAnswer(tb, front, check, frozen);
      CheckMeans(tb.procs[q[n]], frozen);
      var rc := FirstError(tb.procs, front, check);
      if !AllFit(tb, front, frozen) {
        BlamesLonger(tb, q, n, frozen, rc);
      }
    }
  }

  lemma BlamesLonger(tb: Table, q: seq<Slot>, n: nat, frozen: bool, rc: int)
    requires n <= |q| && BlamesFirst(tb, q[..n], frozen, rc)
    ensures BlamesFirst(tb, q, frozen, rc) && !AllFit(tb, q, frozen)
  {
    var front := q[..n];
    var i :| 0 <= i < |front| && AllFit(tb, front[..i], frozen) && front[i] < |tb.procs|
             && !Fit(tb.procs[front[i]], frozen) && Blames(tb.procs[front[i]], rc);
    assert q[..i] == front[..i] && q[i] == front[i] && q[i] in q;
  }

  /** START succeeds exactly if the process is remote and fit, or leads its group and every bound
      thread is fit; else the answer names the first fault. */
  lemma StartAnswer(tb: Table, p: Slot, q: seq<Slot>)
    requires p < |tb.procs| && Within(q, |tb.procs|)
    ensures
      var rc, x := StartRc(tb, p, q), tb.procs[p];
      if x.IsRemote() then if Fit(x, false) then rc == OK else rc != OK && Blames(x, rc)
      else if GrpLeader !in x.misc then rc == EMOLGRPLEADER
      else if AllFit(tb, q, false) then rc == OK
      else rc != OK && BlamesFirst(tb, q, false, rc)
  {
    CheckMeans(tb.procs[p], false);
    GroupAnswer(tb, q, x => CheckThread(x, false), false);
  }

  /** ROLLBACK: the same of frozen threads. */
  lemma RollbackAnswer(tb: Table, p: Slot, q: seq<Slot>)
    requires p < |tb.procs| && Within(q, |tb.procs|)
    ensures
      var rc, x := RollbackRc(tb, p, q), tb.procs[p];
      if x.IsRemote() then if Fit(x, true) then rc == OK else rc != OK && Blames(x, rc)
      else if GrpLeader !in x.misc then rc == EMOLGRPLEADER
      else if AllFit(tb, q, true) then rc == OK
      else rc != OK && BlamesFirst(tb, q, true, rc)
  {
    CheckMeans(tb.procs[p], true);
    GroupAnswer(tb, q, x => CheckThread(x, true), true);
  }

  /** COMMIT on the old node: a thread that is not frozen is reported before a missing leader bit. */
  lemma OldAnswer(tb: Table, p: Slot, q: seq<Slot>)
    requires p < |tb.procs| && Within(q, |tb.procs|)
    ensures
      var frozen := forall j: Slot :: j in q ==> Migrate in tb.procs[j].rts;
      && (!frozen ==> OldRc(tb, p, q) == EMOLMIGRATE)
      && (frozen && GrpLeader !in tb.procs[p].misc ==> OldRc(tb, p, q) == EMOLGRPLEADER)
      && (frozen && GrpLeader in tb.procs[p].misc ==> OldRc(tb, p, q) == OK)
  {
    OnlyError(tb.procs, q, (x: Proc) => if Migrate in x.rts then OK else EMOLMIGRATE, EMOLMIGRATE);
  }

  lemma {:induction false} OnlyError(s: seq<Proc>, q: seq<Slot>, check: Proc -> int, e: int)
    requires Within(q, |s|) && forall x: Proc :: check(x) == OK || check(x) == e
    ensures FirstError(s, q, check) == OK || FirstError(s, q, check) == e
    decreases |q|
  {
    if q != [] {
      var front := q[..|q| - 1];
      assert forall p: Slot :: p in front ==> p in q;
      assert Within(front, |s|);
      OnlyError(s, front, check, e);
    }
  }

  // ---- whom a rollback wakes ----

  /** j waits for the migration of a thread in q. */
  ghost predicate Taken(tb: Table, q: seq<Slot>, j: Slot) {
    exists p: Slot :: p in q && p < |tb.procs| && j in tb.procs[p].mlist
  }

  /** b is a rolled back (in) or taken off a migration queue (off), or both; it is woken exactly if
      no flag is left. */
  ghost predicate Thawed(a: Proc, b: Proc, inq: bool, off: bool) {
    && b.rts == a.rts - (if inq then {Migrate} else {}) - (if off then {WaitMigr} else {})
    && b.waitmigr == (if off then NONE else a.waitmigr)
    && b.sem == a.sem + (if (inq || off) && b.rts == {} then 1 else 0)
    && (b.sem == a.sem ==> b.rcode == a.rcode)
    && (b.sem > a.sem && !off ==> b.rcode == OK) && (b.sem > a.sem && !inq ==> b.rcode == EMOLMIGRATE)
    && (b.sem > a.sem ==> b.rcode in {OK, EMOLMIGRATE})
  }

  lemma RollOne(tb: Table, p: Slot, j: Slot)
    requires QueueInv(tb) && ListsOk(tb, p) && j < |tb.procs|
    ensures |Roll(tb, p).procs| == |tb.procs|
    ensures Thawed(tb.procs[j], Roll(tb, p).procs[j], j == p, j in tb.procs[p].mlist)
    ensures Roll(tb, p).procs[j].mlist == if j == p then [] else tb.procs[j].mlist
  {
    var x := tb.procs[p];
    var z := Put(tb, p, x.(rts := x.rts - {Migrate}, misc := x.misc - {NeedMigr}));
    var t := Drained(z, MigrDone, p);
    if j != p {
      TakenOff(z, p, j);
    }
  }

  lemma TakenOff(tb: Table, p: Slot, j: Slot)
    requires p < |tb.procs| && ListOk(tb, p, tb.procs[p].mlist) && j < |tb.procs| && j != p
    requires j in tb.procs[p].mlist ==> tb.procs[j].waitmigr == tb.procs[p].endpoint
    ensures Thawed(tb.procs[j], Drained(tb, MigrDone, p).procs[j], false, j in tb.procs[p].mlist)
    ensures
      var a, b := tb.procs[j], Drained(tb, MigrDone, p).procs[j];
      b == a.(rts := b.rts, waitmigr := b.waitmigr, sem := b.sem, rcode := b.rcode)
  {
  }

  lemma ThawedTwice(a: Proc, c: Proc, b: Proc, inq: bool, off: bool, last: bool, off': bool)
    requires Thawed(a, c, inq, off) && Thawed(c, b, last, off') && !(inq && last)
    requires (inq || last ==> Migrate in a.rts) && (off || off' ==> WaitMigr in a.rts) && !(off && off')
    ensures Thawed(a, b, inq || last, off || off')
  {
    assert (last ==> Migrate in c.rts) && (off' ==> WaitMigr in c.rts);
    assert b.rts == a.rts - (if inq || last then {Migrate} else {}) - (if off || off' then {WaitMigr} else {});
    if !last && !off' {
      assert b.rts == c.rts;
    } else {
      assert c.rts != {};
    }
  }

  /** The rollback of a group of frozen threads: each of them, and each process that waited for one
      of them, loses that flag and is woken once if that was its last, with OK unless it was
      taken off a migration queue. */
  lemma {:induction false} RollbackWakes(tb: Table, q: seq<Slot>, j: Slot)
    requires QueueInv(tb) && AllLists(tb) && GroupOk(tb, q) && j < |tb.procs|
    requires forall p: Slot :: p in q ==> tb.procs[p].IsLocal() && !tb.procs[p].Free() && Migrate in tb.procs[p].rts
    ensures QueueInv(RollAll(tb, q)) && Thawed(tb.procs[j], RollAll(tb, q).procs[j], j in q, Taken(tb, q, j))
    ensures forall i: Slot :: i < |tb.procs| && i !in q ==> RollAll(tb, q).procs[i].mlist == tb.procs[i].mlist
    decreases |q|
  {
    if q != [] {
      var n := |q| - 1;
      RollAllStep(tb, q);
      assert forall p: Slot :: p in q[..n] ==> p in q;
      RollbackWakes(tb, q[..n], j);
      RollbackWakes(tb, q[..n], q[n]);
      var t, p := RollAll(tb, q[..n]), q[n];
      assert q[n] in q;
      RollMore(tb, t, q[..n], p, j);
      forall i: Slot | i < |tb.procs| && i !in q ensures Roll(t, p).procs[i].mlist == tb.procs[i].mlist {
        RollOne(t, p, i);
      }
    }
  }

  lemma RollMore(tb: Table, t: Table, q: seq<Slot>, p: Slot, j: Slot)
    requires QueueInv(tb) && QueueInv(t) && ListsOk(t, p) && |t.procs| == |tb.procs| && j < |tb.procs| && p !in q
    requires p < |tb.procs| && tb.procs[p].IsLocal() && !tb.procs[p].Free() && Migrate in tb.procs[p].rts
    requires forall i: Slot :: i in q ==> i < |tb.procs| && Migrate in tb.procs[i].rts
    requires t.procs[p].mlist == tb.procs[p].mlist
    requires Thawed(tb.procs[j], t.procs[j], j in q, Taken(tb, q, j))
    requires Thawed(tb.procs[p], t.procs[p], false, Taken(tb, q, p))
    ensures QueueInv(Roll(t, p))
    ensures |Roll(t, p).procs| == |tb.procs| && Thawed(tb.procs[j], Roll(t, p).procs[j], j in q + [p], Taken(tb, q + [p], j))
  {
    RollBackInv(t, p);
    RollOne(t, p, j);
    TakenSnoc(tb, q, p, j);
    ThawedTwice(tb.procs[j], t.procs[j], Roll(t, p).procs[j], j in q, Taken(tb, q, j), j == p, j in tb.procs[p].mlist);
  }

  /** A process waits for one migration at a time. */
  lemma TakenSnoc(tb: Table, q: seq<Slot>, p: Slot, j: Slot)
    requires QueueInv(tb) && p < |tb.procs| && p !in q && j < |tb.procs|
    ensures Taken(tb, q + [p], j) <==> Taken(tb, q, j) || j in tb.procs[p].mlist
    ensures Taken(tb, q, j) ==> j !in tb.procs[p].mlist
    ensures Taken(tb, q, j) || j in tb.procs[p].mlist ==> WaitMigr in tb.procs[j].rts
  {
    if Taken(tb, q, j) {
      var i: Slot :| i in q && i < |tb.procs| && j in tb.procs[i].mlist;
      assert i in q + [p];
      assert SlotOf(tb.nrTasks, tb.procs[i].endpoint) != SlotOf(tb.nrTasks, tb.procs[p].endpoint);
    }
    if j in tb.procs[p].mlist {
      assert p in q + [p];
    }
  }

  // ---- remote descriptors ----

  /** START and ROLLBACK of a remote descriptor that is fit undo each other, but for NEEDMIGR. */
  lemma RemoteStartRollback(tb: Table, p: Slot, q: seq<Slot>)
    requires p < |tb.procs| && AllLists(tb) && GroupOk(tb, q) && tb.procs[p].IsRemote() && Fit(tb.procs[p], false)
    ensures
      var t, x := Start(tb, p, q), tb.procs[p];
      && StartRc(tb, p, q) == OK && t == Put(tb, p, x.(rts := x.rts + {Migrate}))
      && AllLists(t) && GroupOk(t, q) && RollbackRc(t, p, q) == OK
      && Rollback(t, p, q) == Put(tb, p, x.(misc := x.misc - {NeedMigr}))
  {
    var x, t := tb.procs[p], Start(tb, p, q);
    StartAnswer(tb, p, q);
    PutLists(tb, p, x.(rts := x.rts + {Migrate}));
    RollbackAnswer(t, p, q);
    assert x.rts + {Migrate} - {Migrate} == x.rts;
  }

  /** The same of the steps of a run, for a remote and for a running local process; the local one is
      woken. */
  lemma FreezeThenRollBack(tb: Table, p: Slot)
    requires QueueInv(tb) && p < |tb.procs| && !tb.procs[p].Free() && Migrate !in tb.procs[p].rts
    requires tb.procs[p].mlist == [] && NeedMigr !in tb.procs[p].misc
    ensures
      var t, x := Freeze(tb, p), tb.procs[p];
      && t == Put(tb, p, x.(rts := x.rts + {Migrate})) && ListsOk(t, p)
      && RollBack(t, p) == if x.rts == {} then Put(tb, p, x.(rcode := OK, sem := x.sem + 1)) else tb
  {
    var x, t := tb.procs[p], Freeze(tb, p);
    InvGivesLists(tb, p);
    assert x.rts + {Migrate} - {Migrate} == x.rts && x.misc - {NeedMigr} == x.misc;
    assert RollBack(t, p).procs == (if x.rts == {} then Put(tb, p, x.(rcode := OK, sem := x.sem + 1)) else tb).procs;
  }

  // ---- commit ----

  /** COMMIT answers with the first reason against it: no such node, a node without this DC, what
      old_migrate says on the old node, a missing task on the new one. */
  lemma CommitAnswers(tb: Table, p: Slot, q: seq<Slot>, node: int, nodeUp: bool, carries: bool, taskOk: bool)
    requires p < |tb.procs| && Within(q, |tb.procs|)
    ensures
      var rc, x := CommitRc(tb, p, q, node, nodeUp, carries, taskOk), tb.procs[p];
      && (!nodeUp ==> rc == EMOLNOPROXY)
      && (nodeUp && !(node in tb.nodes && carries) ==> rc == EMOLDCNODE)
      && (nodeUp && node in tb.nodes && carries ==>
            && (x.nodeid == tb.net.local ==> rc == OldRc(tb, p, q))
            && (x.nodeid != tb.net.local && (taskOk || node != tb.net.local) ==> rc == OK)
            && (x.nodeid != tb.net.local && node == tb.net.local && !taskOk ==>
                  rc == if RmtBackup in x.misc then EMOLBADPID else EMOLBADPROC))
  {
  }

  /** A thread that leaves for another node is remote there, with empty queues, and learns so if it
      was in a call. */
  lemma LeaverTold(tb: Table, p: Slot, node: int)
    requires ListsOk(tb, p) && tb.procs[p].IsLocal() && Migrate in tb.procs[p].rts
    ensures
      var t, x := LeaveNode(tb, p, node), tb.procs[p];
      && |t.procs| == |tb.procs|
      && t.procs[p] == x.(rts := x.rts - {Migrate} + {Remote}, nodeid := node, plist := [], mlist := [],
                          sem := t.procs[p].sem, rcode := t.procs[p].rcode)
      && if x.rts == {Migrate} then t.procs[p].sem == x.sem && t.procs[p].rcode == x.rcode
         else t.procs[p].sem == x.sem + 1 && t.procs[p].rcode == EMOLRMTPROC
  {
    var x := tb.procs[p];
    assert x.rts - {Migrate} == {} <==> x.rts == {Migrate};
  }

  /** Nobody leaves who is not frozen and local. */
  lemma OnlyFrozenLeave(tb: Table, p: Slot, node: int)
    requires ListsOk(tb, p)
    ensures LeaveNode(tb, p, node) != tb ==> tb.procs[p].IsLocal() && Migrate in tb.procs[p].rts
  {
  }

  /** A process on its migration queue goes on, and so does a local one on its senders' queue; each
      replays its call if it waits for nothing else. */
  lemma LeftBehindTold(tb: Table, p: Slot, node: int, j: Slot)
    requires QueueInv(tb) && ListsOk(tb, p) && j < |tb.procs| && j != p
    requires tb.procs[p].IsLocal() && Migrate in tb.procs[p].rts
    ensures
      var t, x, a := LeaveNode(tb, p, node), tb.procs[p], tb.procs[j];
      && |t.procs| == |tb.procs|
      && (j !in x.plist ==> Thawed(a, t.procs[j], false, j in x.mlist))
      && (j in x.plist && a.IsLocal() ==> CallEnded(a, t.procs[j], j in x.mlist))
  {
    var x := tb.procs[p];
    var d := Drained(Put(tb, p, BecomeRemote(x, node)), SendersReplay, p);
    assert d.procs[p].mlist == x.mlist;
    ReplayedOne(tb.net, x.endpoint, tb.procs[j]);
    TakenOff(d, p, j);
    if j in x.plist && tb.procs[j].IsLocal() {
      EndedTwice(tb.procs[j], d.procs[j], LeaveNode(tb, p, node).procs[j], j in x.mlist);
    }
  }

  /** b is a out of its call, and off a migration queue if off; woken if no flag is left. */
  ghost predicate CallEnded(a: Proc, b: Proc, off: bool) {
    && b.rts == a.rts - {Sending, Receiving} - (if off then {WaitMigr} else {}) && b.sendto == NONE && b.getfrom == NONE
    && if b.rts == {} then b.sem == a.sem + 1 && b.rcode == EMOLMIGRATE else b.sem == a.sem && b.rcode == a.rcode
  }

  lemma EndedTwice(a: Proc, d: Proc, b: Proc, off: bool)
    requires CallEnded(a, d, false) && Thawed(d, b, false, off) && (off ==> WaitMigr in a.rts)
    requires b.sendto == d.sendto && b.getfrom == d.getfrom
    ensures CallEnded(a, b, off)
  {
    assert off ==> WaitMigr in d.rts;
  }

  lemma ReplayedOne(net: Net, ep: int, a: Proc)
    ensures var d := After(net, SendersReplay, ep)(a); d.waitmigr == a.waitmigr && (a.IsLocal() ==> CallEnded(a, d, false))
  {
  }

  /** The step of a run is what the loop of old_migrate does to a frozen thread, but for the bit of
      the group leader, which no queue depends on. */
  lemma LeaveIsStep(tb: Table, p: Slot, node: int)
    requires ListsOk(tb, p) && tb.procs[p].IsLocal() && Migrate in tb.procs[p].rts && GrpLeader !in tb.procs[p].misc
    ensures Leave(tb, p, node) == LeaveNode(tb, p, node)
  {
    var x := tb.procs[p];
    assert x.misc - {GrpLeader} == x.misc;
  }

  /** A commit seen by a third node only moves the descriptor and thaws it and its waiters. */
  lemma ThirdNodeThaws(tb: Table, p: Slot, node: int, j: Slot)
    requires QueueInv(tb) && ListsOk(tb, p) && j < |tb.procs| && !tb.procs[p].Free() && tb.procs[p].IsRemote()
    ensures
      var t, x := Thaw(tb, p, node), tb.procs[p];
      && |t.procs| == |tb.procs| && t.outq == tb.outq
      && t.procs[p] == x.(rts := x.rts - {Migrate}, misc := x.misc - {NeedMigr}, nodeid := node, mlist := [])
      && (j != p ==> Thawed(tb.procs[j], t.procs[j], false, j in x.mlist))
  {
    var x := tb.procs[p];
    var z := Put(tb, p, x.(rts := x.rts - {Migrate}, misc := x.misc - {NeedMigr}, nodeid := node));
    PickNone(z.procs, x.mlist, Joins(tb.net, MigrDone));
    if j != p {
      TakenOff(z, p, j);
    }
  }

  /** On its new node the process runs, whatever flags its descriptor had. */
  lemma EnteredRuns(tb: Table, p: Slot)
    requires p < |tb.procs| && !tb.procs[p].Free() && tb.procs[p].IsRemote()
    ensures EnterNode(tb, p) == Put(tb, p, tb.procs[p].(rts := {}, nodeid := tb.net.local))
  {
  }
}
