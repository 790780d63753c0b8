/**
 Migration of a thread group on one node: migr_start, migr_rollback and old_migrate
 over a group of any size, as functions of the process table.
 */
module Groups {
  import opened Descriptors
  import opened ProcTable
  import opened Detach
  import opened QueueOps
  import opened QueueRuns

  /** The checks both migr_start and migr_rollback make on a thread, in order; frozen says
      whether the thread must carry MIGRATE (rollback) or must not (start). */
  function CheckThread(x: Proc, frozen: bool): int {
    if SlotFree in x.rts then EMOLNOTBIND
    else if OnCopy in x.rts then EMOLONCOPY
    else if RmtOper in x.rts then EMOLBUSY
    else if NoEndpoint in x.rts then EMOLENDPOINT
    else if (Migrate in x.rts) != frozen then EMOLMIGRATE
    else OK
  }

  predicate Within(q: seq<Slot>, n: nat) {
    forall p: Slot :: p in q ==> p < n
  }

  /** The error of the first thread that fails the check, or OK. */
  function FirstError(s: seq<Proc>, q: seq<Slot>, check: Proc -> int): (rc: int)
    requires Within(q, |s|)
    ensures rc == OK <==> forall p: Slot :: p in q ==> check(s[p]) == OK
  {
    if q == [] then OK
    else
      var n := |q| - 1;
      assert q == q[..n] + [q[n]];
      assert forall p: Slot :: p in q[..n] ==> p in q;
      assert q[n] in q;
      var rc := FirstError(s, q[..n], check);
      if rc != OK then rc else check(s[q[n]])
  }

  /** A check loop may stop at the first error. */
  lemma {:induction false} FirstErrorStops(s: seq<Proc>, q: seq<Slot>, k: nat, check: Proc -> int)
    requires k <= |q| && Within(q, |s|)
    ensures Within(q[..k], |s|)
    ensures FirstError(s, q[..k], check) != OK ==> FirstError(s, q, check) == FirstError(s, q[..k], check)
    decreases |q|
  {
    assert forall p: Slot :: p in q[..k] ==> p in q;
    if k == |q| {
      assert q[..k] == q;
    } else {
      var n := |q| - 1;
      assert forall p: Slot :: p in q[..n] ==> p in q;
      FirstErrorStops(s, q[..n], k, check);
      assert q[..n][..k] == q[..k];
    }
  }

  lemma FirstErrorSnoc(s: seq<Proc>, q: seq<Slot>, k: nat, check: Proc -> int)
    requires k < |q| && Within(q, |s|)
    ensures Within(q[..k + 1], |s|) && Within(q[..k], |s|)
    ensures q[k] < |s| && FirstError(s, q[..k], check) == OK ==> FirstError(s, q[..k + 1], check) == check(s[q[k]])
  {
    var r := q[..k + 1];
    assert forall p: Slot :: p in r ==> p in q;
    assert forall p: Slot :: p in q[..k] ==> p in q;
    assert q[..k + 1][..k] == q[..k] && q[..k + 1][k] == q[k] && q[k] in q;
  }

  /** Every list of every descriptor is a proper list. */
  ghost predicate AllLists(tb: Table) {
    forall p: Slot :: p < |tb.procs| ==> ListsOk(tb, p)
  }

  /** A group: bound threads of the table, each once. */
  ghost predicate GroupOk(tb: Table, q: seq<Slot>) {
    NoDup(q) && forall p: Slot :: p in q ==> p < |tb.procs|
  }

  lemma GroupPrefix(tb: Table, q: seq<Slot>, k: nat)
    requires GroupOk(tb, q) && k < |q|
    ensures GroupOk(tb, q[..k]) && GroupOk(tb, q[..k + 1]) && q[k] < |tb.procs| && q[k] !in q[..k]
    ensures q[..k + 1][..k] == q[..k]
  {
    NoDupPrefix(q, k);
    assert forall j: Slot :: j in q[..k] ==> j in q;
    assert q[k] in q;
    NoDupAppend(q[..k], q[k]);
  }

  /** A loop that applies f for one member of q after the other. */
  ghost function Fold(tb: Table, q: seq<Slot>, f: (Table, Slot) -> Table): Table {
    if q == [] then tb else f(Fold(tb, q[..|q| - 1], f), q[|q| - 1])
  }

  lemma FoldNext(tb: Table, q: seq<Slot>, k: nat, f: (Table, Slot) -> Table)
    requires k < |q|
    ensures Fold(tb, q[..k + 1], f) == f(Fold(tb, q[..k], f), q[k])
  {
    assert q[..k + 1][..k] == q[..k];
  }

  /** A turn of the loop that flushes the descriptors queued for node on the proxy of pair px. */
  ghost function FlushStep(node: int, px: int): (Table, Slot) -> Table {
    (t: Table, x: Slot) => if x < |t.procs| && t.procs[x].proxy == px then FlushSender(t, x, node) else t
  }

  /** What every turn keeps holds at the end. */
  lemma {:induction false} FoldKeeps(tb: Table, q: seq<Slot>, k: nat, f: (Table, Slot) -> Table, ok: (nat, Table) -> bool)
    requires k <= |q| && ok(0, tb)
    requires forall i: nat, t :: i < |q| && ok(i, t) ==> ok(i + 1, f(t, q[i]))
    ensures ok(k, Fold(tb, q[..k], f))
  {
    if k > 0 {
      FoldKeeps(tb, q, k - 1, f, ok);
      FoldNext(tb, q, k - 1, f);
    }
  }

  // ---- the flush of a sender proxy ----

  /** Descriptor x waits for pair px with a command for node. */
  predicate QueuedFor(tb: Table, x: Slot, node: int, px: int) {
    x in tb.outq && x < |tb.procs| && !tb.procs[x].Free() && tb.procs[x].proxy == px && tb.procs[x].cmd.dnode == node
  }

  /** The first i members of q are flushed, and no other. */
  ghost predicate FlushedSoFar(tb: Table, q: seq<Slot>, node: int, px: int, i: nat, t: Table)
    requires i <= |q|
  {
    && |t.procs| == |tb.procs| && (QueueInv(tb) ==> QueueInv(t))
    && (forall x: Slot :: x in t.outq <==> x in tb.outq && !(x in q[..i] && QueuedFor(tb, x, node, px)))
    && (forall x: Slot :: x in t.outq && x < |tb.procs| ==>
          var a, b := tb.procs[x], t.procs[x]; b.Free() == a.Free() && b.proxy == a.proxy && b.cmd == a.cmd)
  }

  lemma FlushOneMore(tb: Table, q: seq<Slot>, node: int, px: int, i: nat, t: Table)
    requires i < |q| && FlushedSoFar(tb, q, node, px, i, t)
    ensures FlushedSoFar(tb, q, node, px, i + 1, FlushStep(node, px)(t, q[i]))
  {
    if QueueInv(t) {
      FlushSenderInv(t, q[i], node);
    }
    FlushedOff(t, q[i], node);
    assert q[..i + 1] == q[..i] + [q[i]];
  }

  lemma FlushedOff(t: Table, y: Slot, node: int)
    ensures
      var u := FlushSender(t, y, node);
      && |u.procs| == |t.procs|
      && (forall x: Slot :: x in u.outq <==>
            x in t.outq && !(x == y && y < |t.procs| && !t.procs[y].Free() && t.procs[y].cmd.dnode == node))
      && (forall x: Slot :: x in u.outq && x < |t.procs| ==>
            u.procs[x].rts == t.procs[x].rts && u.procs[x].proxy == t.procs[x].proxy && u.procs[x].cmd == t.procs[x].cmd)
  {
  }

  /** flush_sending_procs takes exactly the commands for the disconnected node off the queue of the
      pair, and keeps the queue invariant. */
  lemma FlushTakesAll(tb: Table, node: int, px: int)
    ensures
      var t := Fold(tb, tb.outq, FlushStep(node, px));
      && (QueueInv(tb) ==> QueueInv(t))
      && forall x: Slot :: x in t.outq <==> x in tb.outq && !QueuedFor(tb, x, node, px)
  {
    var q := tb.outq;
    var ok := (i: nat, t: Table) => i <= |q| && FlushedSoFar(tb, q, node, px, i, t);
    forall i: nat, t: Table | i < |q| && ok(i, t) ensures ok(i + 1, FlushStep(node, px)(t, q[i])) {
      FlushOneMore(tb, q, node, px, i, t);
    }
    FoldKeeps(tb, q, |q|, FlushStep(node, px), ok);
    assert q[..|q|] == q;
  }

  // ---- start ----

  function MarkNeed(): Proc -> Proc {
    (x: Proc) => x.(misc := x.misc + {NeedMigr})
  }

  function StartRc(tb: Table, p: Slot, q: seq<Slot>): int
    requires p < |tb.procs| && Within(q, |tb.procs|)
  {
    if tb.procs[p].IsRemote() then CheckThread(tb.procs[p], false)
    else if GrpLeader !in tb.procs[p].misc then EMOLGRPLEADER
    else FirstError(tb.procs, q, x => CheckThread(x, false))
  }

  function Start(tb: Table, p: Slot, q: seq<Slot>): Table
    requires p < |tb.procs| && Within(q, |tb.procs|)
  {
    if StartRc(tb, p, q) != OK then tb
    else if tb.procs[p].IsRemote() then Put(tb, p, tb.procs[p].(rts := tb.procs[p].rts + {Migrate}))
    else tb.(procs := Sweep(tb.procs, q, MarkNeed()))
  }

  // ---- rollback ----

  ghost function RollAll(tb: Table, q: seq<Slot>): (r: Table)
    requires AllLists(tb) && GroupOk(tb, q)
    ensures |r.procs| == |tb.procs| && AllLists(r)
  {
    if q == [] then tb
    else
      GroupPrefix(tb, q, |q| - 1);
      var t := RollAll(tb, q[..|q| - 1]);
      RollLists(t, q[|q| - 1]);
      Roll(t, q[|q| - 1])
  }

  function RollbackRc(tb: Table, p: Slot, q: seq<Slot>): int
    requires p < |tb.procs| && Within(q, |tb.procs|)
  {
    if tb.procs[p].IsRemote() then CheckThread(tb.procs[p], true)
    else if GrpLeader !in tb.procs[p].misc then EMOLGRPLEADER
    else FirstError(tb.procs, q, x => CheckThread(x, true))
  }

  ghost function Rollback(tb: Table, p: Slot, q: seq<Slot>): Table
    requires p < |tb.procs| && AllLists(tb) && GroupOk(tb, q)
  {
    if RollbackRc(tb, p, q) != OK then tb
    else if tb.procs[p].IsRemote() then
      Put(tb, p, tb.procs[p].(rts := tb.procs[p].rts - {Migrate}, misc := tb.procs[p].misc - {NeedMigr}))
    else RollAll(tb, q)
  }

  // ---- commit on the old node ----

  /** The second loop of old_migrate for thread p. */
  function Leave(tb: Table, p: Slot, node: int): Table
    requires ListsOk(tb, p)
  {
    var x := tb.procs[p];
    var z := BecomeRemote(x.(misc := x.misc - {GrpLeader}), node);
    Drained(Drained(Put(tb, p, z), SendersReplay, p), MigrDone, p)
  }

  ghost function LeaveStep(node: int): (Table, Slot) -> Table {
    (t: Table, p: Slot) => if ListsOk(t, p) then Leave(t, p, node) else t
  }

  /** The second loop of old_migrate for the threads in q. */
  ghost function LeaveAll(tb: Table, q: seq<Slot>, node: int): Table {
    Fold(tb, q, LeaveStep(node))
  }

  function OldRc(tb: Table, p: Slot, q: seq<Slot>): int
    requires p < |tb.procs| && Within(q, |tb.procs|)
  {
    var rc := FirstError(tb.procs, q, (x: Proc) => if Migrate in x.rts then OK else EMOLMIGRATE);
    if rc != OK then rc
    else if GrpLeader !in tb.procs[p].misc then EMOLGRPLEADER
    else OK
  }

  ghost function OldMigrate(tb: Table, p: Slot, q: seq<Slot>, node: int): Table
    requires p < |tb.procs| && AllLists(tb) && GroupOk(tb, q)
  {
    if OldRc(tb, p, q) != OK then tb else LeaveAll(tb, q, node)
  }

  // ---- commit on any node ----

  /** The end of migr_commit: the bits cleared once the node's part succeeded. */
  function Settled(x: Proc): Proc {
    x.(rts := x.rts - {Migrate}, misc := x.misc - {NeedMigr})
  }

  /** migr_commit, where nodeUp says that the new node is in range and not free and taskOk
      that new_migrate finds the task (for a backup: that it is the backup's own). carries is
      the bit tested in the new node's map, which is that of the first DC and not of this one. */
  function CommitRc(tb: Table, p: Slot, q: seq<Slot>, node: int, nodeUp: bool, carries: bool, taskOk: bool): int
    requires p < |tb.procs| && Within(q, |tb.procs|)
  {
    if !nodeUp then EMOLNOPROXY
    else if node !in tb.nodes || !carries then EMOLDCNODE
    else if tb.procs[p].nodeid == tb.net.local then OldRc(tb, p, q)
    else if tb.net.local == node && !taskOk then
      (if RmtBackup in tb.procs[p].misc then EMOLBADPID else EMOLBADPROC)
    else OK
  }

  ghost function Commit(tb: Table, p: Slot, q: seq<Slot>, node: int, nodeUp: bool, carries: bool, taskOk: bool): Table
    requires p < |tb.procs| && AllLists(tb) && GroupOk(tb, q)
  {
    var x := tb.procs[p];
    if CommitRc(tb, p, q, node, nodeUp, carries, taskOk) != OK then tb
    else if x.nodeid == tb.net.local then
      LeaveAllLists(tb, q, |q|, node);
      assert q[..|q|] == q;
      var t := LeaveAll(tb, q, node);
      Put(t, p, Settled(t.procs[p]))
    else if tb.net.local == node then Put(tb, p, Settled(x.(nodeid := tb.net.local, rts := {})))
    else
      PutLists(tb, p, x.(nodeid := node));
      assert ListsOk(Put(tb, p, x.(nodeid := node)), p);
      var t := Drained(Put(tb, p, x.(nodeid := node)), MigrDone, p);
      Put(t, p, Settled(t.procs[p]))
  }

  // ---- proper lists survive ----

  /** Other descriptors keep their lists. */
  ghost predicate SameLists(tb: Table, t: Table, p: Slot) {
    && |t.procs| == |tb.procs| && p < |tb.procs|
    && (forall j: Slot :: j < |tb.procs| && j != p ==>
          t.procs[j].plist == tb.procs[j].plist && t.procs[j].mlist == tb.procs[j].mlist && t.procs[j].ulist == tb.procs[j].ulist)
    && t.procs[p].plist in {tb.procs[p].plist, []} && t.procs[p].mlist in {tb.procs[p].mlist, []}
    && t.procs[p].ulist in {tb.procs[p].ulist, []}
  }

  lemma SameListsKeep(tb: Table, t: Table, p: Slot)
    requires AllLists(tb) && SameLists(tb, t, p)
    ensures AllLists(t)
  {
    forall j: Slot | j < |t.procs| ensures ListsOk(t, j) {
      assert ListsOk(tb, j);
    }
  }

  lemma DrainLists(tb: Table, p: Slot, kind: DrainKind)
    requires AllLists(tb) && p < |tb.procs| && kind in {MigrDone, SendersReplay}
    ensures ListsOk(tb, p) && SameLists(tb, Drained(tb, kind, p), p) && AllLists(Drained(tb, kind, p))
  {
    assert ListsOk(tb, p);
    var t := Drained(tb, kind, p);
    forall j: Slot | j < |tb.procs| && j != p ensures Frame(tb.procs[j], t.procs[j]) {
      DrainAt(tb, kind, p, j);
    }
    SameListsKeep(tb, t, p);
  }

  lemma UnboundLists(tb: Table, p: Slot)
    requires AllLists(tb) && p < |tb.procs|
    ensures ListsOk(tb, p) && AllLists(Unbound(tb, p))
  {
    assert ListsOk(tb, p);
    var a := Answered(tb, p);
    SlotFreed(tb, p);
    forall j: Slot | j < |tb.procs| ensures ListsOk(Unbound(tb, p), j) {
      if j != p {
        AnsweredAt(tb, p, j);
        EmptiedAt(a, p, j);
        assert ListsOk(tb, j);
      }
    }
  }

  lemma PutLists(tb: Table, p: Slot, z: Proc)
    requires AllLists(tb) && p < |tb.procs|
    requires z.plist == tb.procs[p].plist && z.mlist == tb.procs[p].mlist && z.ulist == tb.procs[p].ulist
    ensures AllLists(Put(tb, p, z))
  {
    SameListsKeep(tb, Put(tb, p, z), p);
  }

  lemma RollLists(tb: Table, p: Slot)
    requires AllLists(tb) && p < |tb.procs|
    ensures ListsOk(tb, p) && AllLists(Roll(tb, p)) && |Roll(tb, p).procs| == |tb.procs|
  {
    var x := tb.procs[p];
    assert ListsOk(tb, p);
    var z := x.(rts := x.rts - {Migrate}, misc := x.misc - {NeedMigr});
    PutLists(tb, p, z);
    DrainLists(Put(tb, p, z), p, MigrDone);
    var t := Drained(Put(tb, p, z), MigrDone, p);
    PutLists(t, p, Up(t.procs[p], OK));
  }

  lemma LeaveLists(tb: Table, p: Slot, node: int)
    requires AllLists(tb) && p < |tb.procs|
    ensures ListsOk(tb, p) && AllLists(Leave(tb, p, node)) && |Leave(tb, p, node).procs| == |tb.procs|
  {
    var x := tb.procs[p];
    assert ListsOk(tb, p);
    var z := BecomeRemote(x.(misc := x.misc - {GrpLeader}), node);
    PutLists(tb, p, z);
    DrainLists(Put(tb, p, z), p, SendersReplay);
    DrainLists(Drained(Put(tb, p, z), SendersReplay, p), p, MigrDone);
  }

  // ---- all or nothing ----

  /** START either fails and changes nothing, or marks every bound thread of the group (a
      remote descriptor is frozen at once) and changes nothing else. */
  lemma StartAllOrNothing(tb: Table, p: Slot, q: seq<Slot>)
    requires p < |tb.procs| && GroupOk(tb, q)
    ensures StartRc(tb, p, q) != OK ==> Start(tb, p, q) == tb
    ensures StartRc(tb, p, q) == OK && tb.procs[p].IsLocal() ==>
              var t := Start(tb, p, q);
              && |t.procs| == |tb.procs| && t.outq == tb.outq
              && forall j: Slot :: j < |tb.procs| ==>
                   t.procs[j] == if j in q then tb.procs[j].(misc := tb.procs[j].misc + {NeedMigr}) else tb.procs[j]
    ensures StartRc(tb, p, q) == OK && tb.procs[p].IsLocal() ==>
              GrpLeader in tb.procs[p].misc && forall j: Slot :: j in q ==> CheckThread(tb.procs[j], false) == OK
  {
  }

  /** Descriptor j after the threads in q were rolled back. */
  ghost predicate RolledBack(tb: Table, q: seq<Slot>, j: Slot, b: Proc)
    requires j < |tb.procs|
  {
    var a := tb.procs[j];
    && b.misc == (if j in q then a.misc - {NeedMigr} else a.misc)
    && b.plist == a.plist && b.ulist == a.ulist && b.mlist == (if j in q then [] else a.mlist)
    && b.endpoint == a.endpoint && b.nodeid == a.nodeid && b.sem >= a.sem
    && b.rts - {WaitMigr} == (if j in q then a.rts - {Migrate, WaitMigr} else a.rts - {WaitMigr})
    && (WaitMigr in b.rts ==> WaitMigr in a.rts)
    && ((forall p: Slot :: p in q && p < |tb.procs| ==> j !in tb.procs[p].mlist) ==> (WaitMigr in a.rts ==> WaitMigr in b.rts))
  }

  lemma RollEffect(tb: Table, p: Slot, j: Slot)
    requires AllLists(tb) && p < |tb.procs| && j < |tb.procs| && ListsOk(tb, p)
    ensures |Roll(tb, p).procs| == |tb.procs| && RolledBack(tb, [p], j, Roll(tb, p).procs[j])
  {
    RollLists(tb, p);
    var x := tb.procs[p];
    var z := x.(rts := x.rts - {Migrate}, misc := x.misc - {NeedMigr});
    PutLists(tb, p, z);
    MigrDoneMisc(tb.net, z.endpoint, tb.procs[j]);
    assert p in [p];
  }

  lemma MigrDoneMisc(net: Net, ep: int, x: Proc)
    ensures
      var y := After(net, MigrDone, ep)(x);
      && y == x.(rts := y.rts, waitmigr := y.waitmigr, rcode := y.rcode, sem := y.sem)
      && y.rts - {WaitMigr} == x.rts - {WaitMigr} && (WaitMigr in y.rts ==> WaitMigr in x.rts) && y.sem >= x.sem
  {
  }

  /** Rolling back q and then p is rolling back q + [p], descriptor by descriptor. */
  lemma RolledTwice(tb: Table, t: Table, q: seq<Slot>, p: Slot, j: Slot, b: Proc)
    requires |t.procs| == |tb.procs| && j < |tb.procs| && p < |tb.procs| && p !in q
    requires forall i: Slot :: i < |tb.procs| ==> RolledBack(tb, q, i, t.procs[i])
    requires RolledBack(t, [p], j, b)
    ensures RolledBack(tb, q + [p], j, b)
  {
    assert RolledBack(tb, q, j, t.procs[j]) && RolledBack(tb, q, p, t.procs[p]);
    assert p in [p];
    assert p in q + [p];
    assert forall i: Slot :: i in q ==> i in q + [p];
    assert forall i: Slot :: i in [p] ==> i == p;
    assert t.procs[p].mlist == tb.procs[p].mlist;
    var a, c := tb.procs[j].rts, t.procs[j].rts;
    assert a - {Migrate, WaitMigr} == a - {WaitMigr} - {Migrate};
    assert c - {Migrate, WaitMigr} == c - {WaitMigr} - {Migrate};
  }

  lemma {:induction false} RollAllStep(tb: Table, q: seq<Slot>)
    requires AllLists(tb) && GroupOk(tb, q) && q != []
    ensures
      var n := |q| - 1;
      && GroupOk(tb, q[..n]) && q[n] < |tb.procs| && q[n] !in q[..n] && q == q[..n] + [q[n]]
      && ListsOk(RollAll(tb, q[..n]), q[n]) && RollAll(tb, q) == Roll(RollAll(tb, q[..n]), q[n])
  {
    GroupPrefix(tb, q, |q| - 1);
    RollLists(RollAll(tb, q[..|q| - 1]), q[|q| - 1]);
  }

  lemma RollOneMore(tb: Table, t: Table, r: Table, q: seq<Slot>, p: Slot, j: Slot)
    requires |t.procs| == |tb.procs| && j < |tb.procs| && p < |tb.procs| && p !in q
    requires AllLists(t) && ListsOk(t, p) && r == Roll(t, p) && |r.procs| == |tb.procs|
    requires forall i: Slot :: i < |tb.procs| ==> RolledBack(tb, q, i, t.procs[i])
    ensures RolledBack(tb, q + [p], j, r.procs[j])
  {
    RollEffect(t, p, j);
    RolledTwice(tb, t, q, p, j, r.procs[j]);
  }

  lemma {:induction false} RollAllEffect(tb: Table, q: seq<Slot>, j: Slot)
    requires AllLists(tb) && GroupOk(tb, q) && j < |tb.procs|
    ensures RolledBack(tb, q, j, RollAll(tb, q).procs[j])
    decreases |q|
  {
    if q != [] {
      var n := |q| - 1;
      RollAllStep(tb, q);
      var t := RollAll(tb, q[..n]);
      forall i: Slot | i < |tb.procs| ensures RolledBack(tb, q[..n], i, t.procs[i]) {
        RollAllEffect(tb, q[..n], i);
      }
      RollOneMore(tb, t, RollAll(tb, q), q[..n], q[n], j);
    }
  }

  /** ROLLBACK either fails and changes nothing, or clears both migration bits of every
      bound thread, empties their migration queues, and touches no other flag than the
      WAITMIGR of processes that waited for the group. */
  lemma RollbackAllOrNothing(tb: Table, p: Slot, q: seq<Slot>)
    requires AllLists(tb) && p < |tb.procs| && GroupOk(tb, q) && tb.procs[p].IsLocal()
    ensures RollbackRc(tb, p, q) != OK ==> Rollback(tb, p, q) == tb
    ensures RollbackRc(tb, p, q) == OK ==>
              var t := Rollback(tb, p, q);
              && |t.procs| == |tb.procs|
              && (forall j: Slot :: j < |tb.procs| ==> RolledBack(tb, q, j, t.procs[j]))
              && (forall j: Slot :: j in q ==> Migrate !in t.procs[j].rts && NeedMigr !in t.procs[j].misc)
  {
    if RollbackRc(tb, p, q) == OK {
      var t := Rollback(tb, p, q);
      forall j: Slot | j < |tb.procs| ensures RolledBack(tb, q, j, t.procs[j]) {
        RollAllEffect(tb, q, j);
      }
      forall j: Slot | j in q ensures Migrate !in t.procs[j].rts && NeedMigr !in t.procs[j].misc {
        assert RolledBack(tb, q, j, t.procs[j]);
        assert Migrate !in t.procs[j].rts - {WaitMigr};
      }
    }
  }

  /** A marked thread stops at its next call: NEEDMIGR becomes MIGRATE. */
  function AtCall(x: Proc): Proc {
    if NeedMigr in x.misc then x.(misc := x.misc - {NeedMigr}, rts := x.rts + {Migrate}) else x
  }

  /** Every thread of the group makes a call. */
  function FreezeAll(tb: Table, q: seq<Slot>): Table {
    tb.(procs := Sweep(tb.procs, q, x => AtCall(x)))
  }

  /** Start, then each thread's freeze, then rollback: the rollback succeeds, the run-time
      flags of each thread are what they were (WAITMIGR aside, if it waited for the group
      itself), and so are its other flags exactly if it was not already marked NEEDMIGR. */
  lemma StartFreezeRollback(tb: Table, p: Slot, q: seq<Slot>, j: Slot)
    requires AllLists(tb) && p in q && GroupOk(tb, q) && tb.procs[p].IsLocal() && j in q
    requires StartRc(tb, p, q) == OK
    ensures
      var f := FreezeAll(Start(tb, p, q), q);
      && |f.procs| == |tb.procs| && AllLists(f) && GroupOk(f, q) && RollbackRc(f, p, q) == OK
      && |Rollback(f, p, q).procs| == |tb.procs|
      && var a, b := tb.procs[j], Rollback(f, p, q).procs[j];
         && b.rts - {WaitMigr} == a.rts - {WaitMigr} && (WaitMigr in b.rts ==> WaitMigr in a.rts)
         && ((forall i: Slot :: i in q ==> j !in tb.procs[i].mlist) ==> b.rts == a.rts)
         && (b.misc == a.misc <==> NeedMigr !in a.misc)
  {
    StartAllOrNothing(tb, p, q);
    var f := FreezeAll(Start(tb, p, q), q);
    forall i: Slot | i < |tb.procs|
      ensures f.procs[i] == if i in q then tb.procs[i].(misc := tb.procs[i].misc + {NeedMigr} - {NeedMigr},
                                                        rts := tb.procs[i].rts + {Migrate}) else tb.procs[i]
    {
    }
    FrozenLists(tb, f);
    FrozenPasses(tb, f, p, q);
    RollbackAllOrNothing(f, p, q);
    assert RolledBack(f, q, j, Rollback(f, p, q).procs[j]);
    Restored(tb.procs[j], f.procs[j], Rollback(f, p, q).procs[j]);
  }

  lemma FrozenLists(tb: Table, f: Table)
    requires AllLists(tb) && |f.procs| == |tb.procs|
    requires forall i: Slot :: i < |tb.procs| ==>
               f.procs[i].plist == tb.procs[i].plist && f.procs[i].mlist == tb.procs[i].mlist && f.procs[i].ulist == tb.procs[i].ulist
    ensures AllLists(f)
  {
    forall j: Slot | j < |f.procs| ensures ListsOk(f, j) {
      assert ListsOk(tb, j);
    }
  }

  lemma FrozenPasses(tb: Table, f: Table, p: Slot, q: seq<Slot>)
    requires |f.procs| == |tb.procs| && GroupOk(tb, q) && p in q && tb.procs[p].IsLocal()
    requires StartRc(tb, p, q) == OK
    requires forall i: Slot :: i < |tb.procs| ==>
               f.procs[i] == if i in q then tb.procs[i].(misc := tb.procs[i].misc + {NeedMigr} - {NeedMigr},
                                                         rts := tb.procs[i].rts + {Migrate}) else tb.procs[i]
    ensures RollbackRc(f, p, q) == OK && f.procs[p].IsLocal()
  {
  }

  lemma Restored(a: Proc, f: Proc, b: Proc)
    requires Migrate !in a.rts && f.rts == a.rts + {Migrate} && f.misc == a.misc + {NeedMigr} - {NeedMigr}
    requires b.rts - {WaitMigr} == f.rts - {Migrate, WaitMigr} && (WaitMigr in b.rts ==> WaitMigr in f.rts)
    requires b.misc == f.misc - {NeedMigr}
    ensures b.rts - {WaitMigr} == a.rts - {WaitMigr} && (WaitMigr in b.rts ==> WaitMigr in a.rts)
    ensures (WaitMigr in a.rts ==> WaitMigr in b.rts) ==> b.rts == a.rts
    ensures b.misc == a.misc <==> NeedMigr !in a.misc
  {
    assert f.rts - {Migrate, WaitMigr} == a.rts - {WaitMigr};
    if WaitMigr in a.rts ==> WaitMigr in b.rts {
      assert forall x :: x in b.rts <==> x in b.rts - {WaitMigr} || (x == WaitMigr && x in b.rts);
      assert forall x :: x in a.rts <==> x in a.rts - {WaitMigr} || (x == WaitMigr && x in a.rts);
    }
  }

  /** Descriptor j after the threads in q left for node. */
  ghost predicate Left(tb: Table, q: seq<Slot>, node: int, j: Slot, b: Proc)
    requires j < |tb.procs|
  {
    var a := tb.procs[j];
    && b.endpoint == a.endpoint && b.ulist == a.ulist && b.sem >= a.sem
    && (if j in q then
          && b.IsRemote() && Migrate !in b.rts && b.nodeid == node && b.misc == a.misc - {GrpLeader}
          && b.plist == [] && b.mlist == []
        else
          && b.IsRemote() == a.IsRemote() && (Migrate in b.rts <==> Migrate in a.rts) && b.nodeid == a.nodeid
          && b.misc == a.misc && b.plist == a.plist && b.mlist == a.mlist)
  }

  lemma FlushKeeps(net: Net, kind: DrainKind, ep: int, x: Proc)
    requires kind in {MigrDone, SendersReplay}
    ensures
      var y := After(net, kind, ep)(x);
      Frame(x, y) && y.misc == x.misc && (Migrate in y.rts <==> Migrate in x.rts)
  {
  }

  lemma FlushAt(tb: Table, kind: DrainKind, p: Slot, j: Slot)
    requires p < |tb.procs| && ListOk(tb, p, QueueOf(kind, tb.procs[p])) && j < |tb.procs|
    requires kind in {MigrDone, SendersReplay}
    ensures
      var a, t := tb.procs[j], Drained(tb, kind, p);
      && |t.procs| == |tb.procs|
      && (j != p ==> Frame(a, t.procs[j]) && t.procs[j].misc == a.misc && (Migrate in t.procs[j].rts <==> Migrate in a.rts))
      && (j == p ==> t.procs[p] == WithQueue(kind, a, []))
  {
    FlushKeeps(tb.net, kind, tb.procs[p].endpoint, tb.procs[j]);
  }

  lemma LeaveEffect(tb: Table, p: Slot, node: int, j: Slot)
    requires AllLists(tb) && p < |tb.procs| && j < |tb.procs| && ListsOk(tb, p)
    ensures |Leave(tb, p, node).procs| == |tb.procs| && Left(tb, [p], node, j, Leave(tb, p, node).procs[j])
  {
    var x := tb.procs[p];
    var z := BecomeRemote(x.(misc := x.misc - {GrpLeader}), node);
    PutLists(tb, p, z);
    var t := Put(tb, p, z);
    DrainLists(t, p, SendersReplay);
    FlushAt(t, SendersReplay, p, j);
    FlushAt(Drained(t, SendersReplay, p), MigrDone, p, j);
    if j == p {
      FlushAt(t, SendersReplay, p, p);
    }
  }

  /** The table after the first k threads of q left, seen at descriptor j. */
  ghost predicate LeftSoFar(tb: Table, q: seq<Slot>, node: int, j: Slot, k: nat, t: Table) {
    && k <= |q| && j < |tb.procs| && |t.procs| == |tb.procs| && AllLists(t) && Left(tb, q[..k], node, j, t.procs[j])
  }

  lemma LeaveOneMore(tb: Table, q: seq<Slot>, node: int, j: Slot, k: nat, t: Table)
    requires GroupOk(tb, q) && k < |q| && LeftSoFar(tb, q, node, j, k, t)
    ensures LeftSoFar(tb, q, node, j, k + 1, LeaveStep(node)(t, q[k]))
  {
    GroupPrefix(tb, q, k);
    LeaveLists(t, q[k], node);
    LeaveEffect(t, q[k], node, j);
    assert q[..k + 1] == q[..k] + [q[k]];
    LeftTwice(tb, t, q[..k], q[k], node, j, Leave(t, q[k], node).procs[j]);
  }

  lemma LeaveAllEffect(tb: Table, q: seq<Slot>, k: nat, node: int, j: Slot)
    requires AllLists(tb) && GroupOk(tb, q) && j < |tb.procs| && k <= |q|
    ensures LeftSoFar(tb, q, node, j, k, LeaveAll(tb, q[..k], node))
  {
    forall i: nat, t | i < |q| && LeftSoFar(tb, q, node, j, i, t)
      ensures LeftSoFar(tb, q, node, j, i + 1, LeaveStep(node)(t, q[i]))
    {
      LeaveOneMore(tb, q, node, j, i, t);
    }
    FoldKeeps(tb, q, k, LeaveStep(node), (i: nat, t: Table) => LeftSoFar(tb, q, node, j, i, t));
  }

  /** All threads left: sizes and lists, for the callers. */
  lemma LeaveAllLists(tb: Table, q: seq<Slot>, k: nat, node: int)
    requires AllLists(tb) && GroupOk(tb, q) && k <= |q|
    ensures AllLists(LeaveAll(tb, q[..k], node)) && |LeaveAll(tb, q[..k], node).procs| == |tb.procs|
  {
    forall i: nat, t | i < |q| && AllLists(t) && |t.procs| == |tb.procs|
      ensures AllLists(LeaveStep(node)(t, q[i])) && |LeaveStep(node)(t, q[i]).procs| == |tb.procs|
    {
      assert q[i] in q;
      LeaveLists(t, q[i], node);
    }
    FoldKeeps(tb, q, k, LeaveStep(node), (i: nat, t: Table) => AllLists(t) && |t.procs| == |tb.procs|);
  }

  lemma LeftTwice(tb: Table, t: Table, q: seq<Slot>, p: Slot, node: int, j: Slot, b: Proc)
    requires |t.procs| == |tb.procs| && j < |tb.procs| && p !in q
    requires Left(tb, q, node, j, t.procs[j]) && Left(t, [p], node, j, b)
    ensures Left(tb, q + [p], node, j, b)
  {
  }

  /** Commit on the old node either fails and changes nothing, because a bound thread is
      not frozen or the process is not the group leader, or turns every bound thread of
      the group into an unfrozen remote descriptor of the new node with empty queues. */
  lemma OldMigrateAllOrNothing(tb: Table, p: Slot, q: seq<Slot>, node: int)
    requires AllLists(tb) && p < |tb.procs| && GroupOk(tb, q)
    ensures OldRc(tb, p, q) == OK <==>
              (forall j: Slot :: j in q ==> Migrate in tb.procs[j].rts) && GrpLeader in tb.procs[p].misc
    ensures OldRc(tb, p, q) != OK ==> OldMigrate(tb, p, q, node) == tb
    ensures OldRc(tb, p, q) == OK ==>
              |OldMigrate(tb, p, q, node).procs| == |tb.procs|
              && forall j: Slot :: j < |tb.procs| ==> Left(tb, q, node, j, OldMigrate(tb, p, q, node).procs[j])
  {
    if OldRc(tb, p, q) == OK {
      assert q[..|q|] == q;
      LeaveAllLists(tb, q, |q|, node);
      forall j: Slot | j < |tb.procs| ensures Left(tb, q, node, j, OldMigrate(tb, p, q, node).procs[j]) {
        LeaveAllEffect(tb, q, |q|, node, j);
      }
    }
  }
}
