/**
 The migration protocol across nodes. Every node keeps a copy of the descriptor of every
 thread of the migrating process; a step of the protocol is START, ROLLBACK or COMMIT
 processed by one node, or a local thread stopping at its next call.
 */
module MigrationRuns {
  import opened Descriptors
  import opened ProcTable
  import opened QueueOps
  import opened Groups
  import Outcomes

  /** What migration reads and writes of one copy: p_nodeid, BIT_REMOTE, BIT_MIGRATE,
      MIS_BIT_NEEDMIGR and MIS_BIT_GRPLEADER. */
  datatype Rep = Rep(home: int, remote: bool, frozen: bool, need: bool, leader: bool) {
    /** Local and not frozen: the copy a program may be running on. */
    predicate Active() { !remote && !frozen }
  }

  /** The copies of one node, one per thread, and those of all nodes. */
  type Copies = seq<Rep>
  type Cluster = seq<Copies>

  ghost predicate LocalsFrozen(g: Copies) {
    forall j :: 0 <= j < |g| && !g[j].remote ==> g[j].frozen
  }

  // ---- one node processing one request for thread k ----

  /** migr_start; refused stands for its checks other than that of BIT_MIGRATE. */
  ghost function StartAt(g: Copies, k: nat, refused: bool): (r: Copies)
    requires k < |g|
    ensures |r| == |g|
  {
    if refused then g
    else if g[k].remote then if g[k].frozen then g else g[k := g[k].(frozen := true)]
    else if !g[k].leader || exists j :: 0 <= j < |g| && !g[j].remote && g[j].frozen then g
    else seq(|g|, j requires 0 <= j < |g| => if g[j].remote then g[j] else g[j].(need := true))
  }

  /** A marked local thread makes a call. */
  function FreezeAt(g: Copies, k: nat): (r: Copies)
    requires k < |g|
    ensures |r| == |g|
  {
    if g[k].remote || !g[k].need then g else g[k := g[k].(need := false, frozen := true)]
  }

  ghost function RollbackAt(g: Copies, k: nat, refused: bool): (r: Copies)
    requires k < |g|
    ensures |r| == |g|
  {
    if refused then g
    else if g[k].remote then if g[k].frozen then g[k := g[k].(frozen := false, need := false)] else g
    else if !g[k].leader || !LocalsFrozen(g) then g
    else seq(|g|, j requires 0 <= j < |g| => if g[j].remote then g[j] else g[j].(frozen := false, need := false))
  }

  function Gone(x: Rep, node: int): Rep {
    if x.remote then x else x.(home := node, remote := true, frozen := false, leader := false)
  }

  /** migr_commit on node n. */
  ghost function CommitAt(g: Copies, n: int, k: nat, node: int): (r: Copies)
    requires k < |g|
    ensures |r| == |g|
  {
    if g[k].home == n then
      if LocalsFrozen(g) && g[k].leader then
        seq(|g|, j requires 0 <= j < |g| =>
          if j == k then Gone(g[k], node).(frozen := false, need := false) else Gone(g[j], node))
      else g
    else if n == node then g[k := g[k].(home := n, remote := false, frozen := false, need := false)]
    else g[k := g[k].(home := node, frozen := false, need := false)]
  }

  // ---- these steps are what the process table does ----

  function Abs(x: Proc): Rep {
    Rep(x.nodeid, x.IsRemote(), Migrate in x.rts, NeedMigr in x.misc, GrpLeader in x.misc)
  }

  function AbsAll(tb: Table, ths: seq<Slot>): Copies
    requires Within(ths, |tb.procs|)
  {
    seq(|ths|, k requires 0 <= k < |ths| => assert ths[k] in ths; Abs(tb.procs[ths[k]]))
  }

  /** ths are the threads of the process; q are those with a task on this node. */
  ghost predicate Threads(tb: Table, ths: seq<Slot>, q: seq<Slot>) {
    && GroupOk(tb, ths) && GroupOk(tb, q)
    && forall j: Slot :: j in q <==> j in ths && tb.procs[j].IsLocal()
  }

  lemma CommitRefines(tb: Table, ths: seq<Slot>, q: seq<Slot>, k: nat, node: int)
    requires AllLists(tb) && k < |ths| && Threads(tb, ths, q) && node in tb.nodes
    ensures Within(ths, |tb.procs|) && ths[k] < |tb.procs|
    ensures
      var t := Commit(tb, ths[k], q, node, true, true, true);
      |t.procs| == |tb.procs| && AbsAll(t, ths) == CommitAt(AbsAll(tb, ths), tb.net.local, k, node)
  {
    assert ths[k] in ths;
    var p, n := ths[k], tb.net.local;
    var t, g := Commit(tb, p, q, node, true, true, true), AbsAll(tb, ths);
    LocalsFrozenMatch(tb, ths, q);
    OldMigrateAllOrNothing(tb, p, q, node);
    forall j | 0 <= j < |ths| ensures AbsAll(t, ths)[j] == CommitAt(g, n, k, node)[j] {
      assert ths[j] in ths && (ths[j] == p <==> j == k);
      if tb.procs[p].nodeid == n {
        if OldRc(tb, p, q) == OK {
          var l := Groups.OldMigrate(tb, p, q, node);
          assert Left(tb, q, node, ths[j], l.procs[ths[j]]);
        }
      } else if n != node {
        ThirdPartyAt(tb, p, node, ths[j]);
      }
    }
  }

  /** A thread that START and ROLLBACK of p look at is refused for another reason than its migration
      bit. */
  ghost predicate Busy(tb: Table, p: Slot, q: seq<Slot>)
    requires p < |tb.procs|
  {
    if tb.procs[p].IsRemote() then !Calm(tb.procs[p]) else exists j: Slot :: j in q && j < |tb.procs| && !Calm(tb.procs[j])
  }

  predicate Calm(x: Proc) {
    x.rts !! {SlotFree, OnCopy, RmtOper, NoEndpoint}
  }

  /** Which of the tests of START and ROLLBACK fails, seen on the copies. */
  lemma AnswersMatch(tb: Table, ths: seq<Slot>, q: seq<Slot>, k: nat)
    requires k < |ths| && Threads(tb, ths, q) && ths[k] < |tb.procs|
    ensures
      var p, g := ths[k], AbsAll(tb, ths);
      && (StartRc(tb, p, q) == OK <==>
            !Busy(tb, p, q) && if g[k].remote then !g[k].frozen
                               else g[k].leader && !exists j :: 0 <= j < |g| && !g[j].remote && g[j].frozen)
      && (RollbackRc(tb, p, q) == OK <==>
            !Busy(tb, p, q) && if g[k].remote then g[k].frozen else g[k].leader && LocalsFrozen(g))
  {
    var p, g := ths[k], AbsAll(tb, ths);
    Outcomes.StartAnswer(tb, p, q);
    Outcomes.RollbackAnswer(tb, p, q);
    LocalsFrozenMatch(tb, ths, q);
    NoneFrozenMatch(tb, ths, q);
    FitMatch(tb, q);
  }

  lemma FitMatch(tb: Table, q: seq<Slot>)
    requires Within(q, |tb.procs|)
    ensures forall frozen :: Outcomes.AllFit(tb, q, frozen) <==>
              (forall j: Slot :: j in q ==> Calm(tb.procs[j])) && forall j: Slot :: j in q ==> (Migrate in tb.procs[j].rts <==> frozen)
  {
  }

  lemma NoneFrozenMatch(tb: Table, ths: seq<Slot>, q: seq<Slot>)
    requires Threads(tb, ths, q)
    ensures
      var g := AbsAll(tb, ths);
      (exists j :: 0 <= j < |g| && !g[j].remote && g[j].frozen) <==> exists j: Slot :: j in q && Migrate in tb.procs[j].rts
  {
    var g := AbsAll(tb, ths);
    if i: Slot :| i in q && Migrate in tb.procs[i].rts {
      var j :| 0 <= j < |ths| && ths[j] == i;
      assert !g[j].remote && g[j].frozen;
    }
    if j :| 0 <= j < |g| && !g[j].remote && g[j].frozen {
      assert ths[j] in ths && ths[j] in q;
    }
  }

  lemma StartRefines(tb: Table, ths: seq<Slot>, q: seq<Slot>, k: nat)
    requires k < |ths| && Threads(tb, ths, q)
    ensures Within(ths, |tb.procs|) && ths[k] < |tb.procs|
    ensures
      var t := Start(tb, ths[k], q);
      |t.procs| == |tb.procs| && AbsAll(t, ths) == StartAt(AbsAll(tb, ths), k, Busy(tb, ths[k], q))
  {
    assert ths[k] in ths;
    var p, g := ths[k], AbsAll(tb, ths);
    var t := Start(tb, p, q);
    AnswersMatch(tb, ths, q, k);
    StartAllOrNothing(tb, p, q);
    forall j | 0 <= j < |ths| ensures AbsAll(t, ths)[j] == StartAt(g, k, Busy(tb, p, q))[j] {
      assert ths[j] in ths && (ths[j] == p <==> j == k);
    }
  }

  lemma RollbackRefines(tb: Table, ths: seq<Slot>, q: seq<Slot>, k: nat)
    requires AllLists(tb) && k < |ths| && Threads(tb, ths, q)
    ensures Within(ths, |tb.procs|) && ths[k] < |tb.procs|
    ensures
      var t := Rollback(tb, ths[k], q);
      |t.procs| == |tb.procs| && AbsAll(t, ths) == RollbackAt(AbsAll(tb, ths), k, Busy(tb, ths[k], q))
  {
    assert ths[k] in ths;
    AnswersMatch(tb, ths, q, k);
    if RollbackRc(tb, ths[k], q) == OK {
      if tb.procs[ths[k]].IsLocal() {
        LocalRollback(tb, ths, q, k);
      } else {
        RemoteRollback(tb, ths, q, k);
      }
    }
  }

  /** A thread at its next call. */
  lemma FreezeRefines(tb: Table, ths: seq<Slot>, q: seq<Slot>, k: nat)
    requires k < |ths| && Threads(tb, ths, q)
    ensures Within(ths, |tb.procs|) && ths[k] < |tb.procs|
    ensures
      var p := ths[k];
      var t := if tb.procs[p].IsLocal() then Put(tb, p, AtCall(tb.procs[p])) else tb;
      AbsAll(t, ths) == FreezeAt(AbsAll(tb, ths), k)
  {
    assert ths[k] in ths;
    var p, g := ths[k], AbsAll(tb, ths);
    var t := if tb.procs[p].IsLocal() then Put(tb, p, AtCall(tb.procs[p])) else tb;
    forall j | 0 <= j < |ths| ensures AbsAll(t, ths)[j] == FreezeAt(g, k)[j] {
      assert ths[j] in ths && (ths[j] == p <==> j == k);
    }
  }

  lemma LocalRollback(tb: Table, ths: seq<Slot>, q: seq<Slot>, k: nat)
    requires AllLists(tb) && k < |ths| && Threads(tb, ths, q) && ths[k] < |tb.procs| && tb.procs[ths[k]].IsLocal()
    requires RollbackRc(tb, ths[k], q) == OK
    ensures
      var t := Rollback(tb, ths[k], q);
      |t.procs| == |tb.procs| && AbsAll(t, ths) == RollbackAt(AbsAll(tb, ths), k, false)
  {
    RollbackAllOrNothing(tb, ths[k], q);
    AnswersMatch(tb, ths, q, k);
    GroupRolled(tb, Rollback(tb, ths[k], q), ths, q, k);
  }

  lemma GroupRolled(tb: Table, t: Table, ths: seq<Slot>, q: seq<Slot>, k: nat)
    requires k < |ths| && Threads(tb, ths, q) && |t.procs| == |tb.procs|
    requires forall j: Slot :: j < |tb.procs| ==> RolledBack(tb, q, j, t.procs[j])
    requires var g := AbsAll(tb, ths); !g[k].remote && g[k].leader && LocalsFrozen(g)
    ensures AbsAll(t, ths) == RollbackAt(AbsAll(tb, ths), k, false)
  {
    RolledAbsAll(tb, t, ths, q);
  }

  lemma RemoteRollback(tb: Table, ths: seq<Slot>, q: seq<Slot>, k: nat)
    requires AllLists(tb) && k < |ths| && Threads(tb, ths, q) && ths[k] < |tb.procs| && tb.procs[ths[k]].IsRemote()
    requires RollbackRc(tb, ths[k], q) == OK
    ensures
      var t := Rollback(tb, ths[k], q);
      |t.procs| == |tb.procs| && AbsAll(t, ths) == RollbackAt(AbsAll(tb, ths), k, false)
  {
    var t, g := Rollback(tb, ths[k], q), AbsAll(tb, ths);
    forall j | 0 <= j < |ths| ensures AbsAll(t, ths)[j] == RollbackAt(g, k, false)[j] {
      assert ths[j] in ths && (ths[j] == ths[k] <==> j == k);
    }
  }

  lemma RolledAbsAll(tb: Table, t: Table, ths: seq<Slot>, q: seq<Slot>)
    requires Threads(tb, ths, q) && |t.procs| == |tb.procs|
    requires forall j: Slot :: j < |tb.procs| ==> RolledBack(tb, q, j, t.procs[j])
    ensures
      var g := AbsAll(tb, ths);
      forall j :: 0 <= j < |ths| ==>
        AbsAll(t, ths)[j] == if g[j].remote then g[j] else g[j].(frozen := false, need := false)
  {
    forall j | 0 <= j < |ths|
      ensures
        var g := AbsAll(tb, ths);
        AbsAll(t, ths)[j] == if g[j].remote then g[j] else g[j].(frozen := false, need := false)
    {
      assert ths[j] in ths;
      RolledAbs(tb, q, ths[j], t.procs[ths[j]]);
    }
  }

  lemma RolledAbs(tb: Table, q: seq<Slot>, j: Slot, b: Proc)
    requires j < |tb.procs| && RolledBack(tb, q, j, b)
    ensures Abs(b) == if j in q then Abs(tb.procs[j]).(frozen := false, need := false) else Abs(tb.procs[j])
  {
    var a := tb.procs[j];
    assert Migrate in b.rts <==> Migrate in b.rts - {WaitMigr};
    assert Remote in b.rts <==> Remote in b.rts - {WaitMigr};
    assert Remote in a.rts <==> Remote in a.rts - {WaitMigr};
  }

  lemma LocalsFrozenMatch(tb: Table, ths: seq<Slot>, q: seq<Slot>)
    requires Threads(tb, ths, q)
    ensures LocalsFrozen(AbsAll(tb, ths)) <==> forall j: Slot :: j in q ==> Migrate in tb.procs[j].rts
  {
    var g := AbsAll(tb, ths);
    if LocalsFrozen(g) {
      forall j: Slot | j in q ensures Migrate in tb.procs[j].rts {
        var i :| 0 <= i < |ths| && ths[i] == j;
        assert g[i] == Abs(tb.procs[j]);
      }
    } else {
      var i :| 0 <= i < |g| && !g[i].remote && !g[i].frozen;
      assert ths[i] in q;
    }
  }

  /** A commit seen by a node that is neither the old nor the new one. */
  lemma ThirdPartyAt(tb: Table, p: Slot, node: int, j: Slot)
    requires AllLists(tb) && p < |tb.procs| && j < |tb.procs|
    ensures
      var y := Put(tb, p, tb.procs[p].(nodeid := node));
      && AllLists(y) && ListsOk(y, p) && |Drained(y, MigrDone, p).procs| == |tb.procs|
      && Abs(Drained(y, MigrDone, p).procs[j]) == Abs(y.procs[j])
  {
    PutLists(tb, p, tb.procs[p].(nodeid := node));
    var y := Put(tb, p, tb.procs[p].(nodeid := node));
    assert ListsOk(y, p);
    FlushAt(y, MigrDone, p, j);
  }

  // ---- agreement ----

  ghost predicate Shape(w: Cluster, threads: nat) {
    forall n :: 0 <= n < |w| ==> |w[n]| == threads
  }

  /** Who migrates: from node src to node dst, with thread lead as the group leader. */
  datatype Move = Move(src: nat, dst: nat, lead: nat, threads: nat)

  ghost predicate MoveOk(w: Cluster, m: Move) {
    m.src < |w| && m.dst < |w| && m.src != m.dst && m.lead < m.threads && Shape(w, m.threads)
  }

  /** COMMIT may be sent: every copy names the old node, where every thread is frozen. The
      copies of other nodes may or may not have seen START. */
  ghost predicate Ready(w: Cluster, m: Move) {
    && MoveOk(w, m)
    && (forall n, k :: 0 <= n < |w| && 0 <= k < m.threads ==> w[n][k].home == m.src && (w[n][k].remote <==> n != m.src))
    && forall k :: 0 <= k < m.threads ==>
         w[m.src][k].frozen && !w[m.src][k].need && (w[m.src][k].leader <==> k == m.lead)
  }

  /** COMMIT messages processed in some order: which node, for which thread. */
  type Deliveries = seq<(nat, nat)>

  ghost predicate InRange(w: Cluster, m: Move, es: Deliveries) {
    forall i :: 0 <= i < |es| ==> es[i].0 < |w| && es[i].1 < m.threads
  }

  ghost function Deliver(w: Cluster, m: Move, es: Deliveries): (r: Cluster)
    requires Shape(w, m.threads) && InRange(w, m, es)
    ensures |r| == |w| && Shape(r, m.threads)
  {
    if es == [] then w
    else
      var e := es[|es| - 1];
      var u := Deliver(w, m, es[..|es| - 1]);
      u[e.0 := CommitAt(u[e.0], e.0, e.1, m.dst)]
  }

  /** The copy of thread k on node n once the messages in es were processed. */
  ghost function Expected(w: Cluster, m: Move, es: Deliveries, n: nat, k: nat): Rep
    requires MoveOk(w, m) && n < |w| && k < m.threads
  {
    var x := w[n][k];
    var done := x.(home := m.dst, remote := n != m.dst, frozen := false, need := false);
    if n == m.src then if (m.src, m.lead) in es then done.(leader := false) else x
    else if (n, k) in es then done else x
  }

  ghost function ExpectedRow(w: Cluster, m: Move, es: Deliveries, n: nat): Copies
    requires MoveOk(w, m) && n < |w|
  {
    seq(m.threads, k requires 0 <= k < m.threads => Expected(w, m, es, n, k))
  }

  lemma CommitStep(w: Cluster, m: Move, es: Deliveries, n: nat, k: nat)
    requires Ready(w, m) && n < |w| && k < m.threads
    ensures CommitAt(ExpectedRow(w, m, es, n), n, k, m.dst) == ExpectedRow(w, m, es + [(n, k)], n)
  {
  }

  lemma {:induction false} DeliverIsExpected(w: Cluster, m: Move, es: Deliveries)
    requires Ready(w, m) && InRange(w, m, es)
    ensures forall n :: 0 <= n < |w| ==> Deliver(w, m, es)[n] == ExpectedRow(w, m, es, n)
    decreases |es|
  {
    if es == [] {
      forall n | 0 <= n < |w| ensures w[n] == ExpectedRow(w, m, es, n) {
        assert forall k :: 0 <= k < m.threads ==> w[n][k] == Expected(w, m, es, n, k);
      }
    } else {
      var i := |es| - 1;
      var e := es[i];
      assert es == es[..i] + [e];
      DeliverIsExpected(w, m, es[..i]);
      CommitStep(w, m, es[..i], e.0, e.1);
      forall n | 0 <= n < |w| && n != e.0 ensures ExpectedRow(w, m, es, n) == ExpectedRow(w, m, es[..i], n) {
        RowElsewhere(w, m, es[..i], e, n);
      }
    }
  }

  lemma RowElsewhere(w: Cluster, m: Move, es: Deliveries, e: (nat, nat), n: nat)
    requires MoveOk(w, m) && n < |w| && e.0 != n
    ensures ExpectedRow(w, m, es + [e], n) == ExpectedRow(w, m, es, n)
  {
  }

  /** Every node got its messages: one per thread, and on the old node the leader's. */
  ghost predicate Covered(w: Cluster, m: Move, es: Deliveries) {
    && (m.src, m.lead) in es
    && forall n: nat, k: nat :: n < |w| && n != m.src && k < m.threads ==> (n, k) in es
  }

  /** Whatever the order of the COMMIT messages and however often each is repeated, all copies
      end naming the new node, unfrozen and unmarked, only the new node's are local, and one
      more COMMIT anywhere changes nothing. */
  lemma Agreement(w: Cluster, m: Move, es: Deliveries)
    requires Ready(w, m) && InRange(w, m, es) && Covered(w, m, es)
    ensures
      var r := Deliver(w, m, es);
      && (forall n, k :: 0 <= n < |w| && 0 <= k < m.threads ==>
            && r[n][k].home == m.dst && !r[n][k].frozen && !r[n][k].need && (r[n][k].remote <==> n != m.dst)
            && (r[n][k].Active() <==> n == m.dst)
            && r[n][k].leader == (n != m.src && w[n][k].leader))
      && (forall n: nat, k: nat :: n < |w| && k < m.threads ==> CommitAt(r[n], n, k, m.dst) == r[n])
  {
    DeliverIsExpected(w, m, es);
    var r: Cluster := Deliver(w, m, es);
    forall n: nat, k: nat | n < |w| && k < m.threads
      ensures
        && r[n][k].home == m.dst && !r[n][k].frozen && !r[n][k].need && (r[n][k].remote <==> n != m.dst)
        && r[n][k].leader == (n != m.src && w[n][k].leader)
        && CommitAt(r[n], n, k, m.dst) == r[n]
    {
      assert r[n][k] == Expected(w, m, es, n, k);
      CommitStep(w, m, es, n, k);
      assert forall d :: d in es + [(n, k)] <==> d in es || d == (n, k);
      assert forall j :: 0 <= j < m.threads ==> Expected(w, m, es + [(n, k)], n, j) == Expected(w, m, es, n, j);
      assert ExpectedRow(w, m, es + [(n, k)], n) == ExpectedRow(w, m, es, n);
    }
  }

  /** A second migration of the same process can be started on its new node exactly if the
      copy there already carried the leader bit: COMMIT takes the bit from the old node and
      never sets it on the new one. */
  lemma NextStartIff(w: Cluster, m: Move, es: Deliveries, k: nat)
    requires Ready(w, m) && InRange(w, m, es) && Covered(w, m, es) && k < m.threads
    ensures
      var g := Deliver(w, m, es)[m.dst];
      StartAt(g, k, false)[k].need <==> w[m.dst][k].leader
  {
    Agreement(w, m, es);
  }

  // ---- a single active copy ----

  datatype State = State(w: Cluster, issued: bool)

  datatype Event =
    | EvStart(n: nat, k: nat, refused: bool)
    | EvFreeze(n: nat, k: nat)
    | EvRollback(n: nat, k: nat, refused: bool)
    | EvIssue
    | EvCommit(n: nat, k: nat)

  ghost predicate InCluster(s: State, m: Move, n: nat, k: nat) {
    MoveOk(s.w, m) && n < |s.w| && k < m.threads
  }

  /** The rules of the coordinator: COMMIT is issued once every thread on the old node is
      frozen, none is processed before, and from then on the old node gets no ROLLBACK. */
  ghost predicate Legal(s: State, m: Move, e: Event) {
    match e
    case EvStart(n, k, _) => InCluster(s, m, n, k)
    case EvFreeze(n, k) => InCluster(s, m, n, k)
    case EvRollback(n, k, _) => InCluster(s, m, n, k) && (s.issued ==> n != m.src)
    case EvIssue => MoveOk(s.w, m) && forall k :: 0 <= k < m.threads ==> s.w[m.src][k].frozen
    case EvCommit(n, k) => InCluster(s, m, n, k) && s.issued
  }

  ghost function Step(s: State, m: Move, e: Event): State
    requires Legal(s, m, e)
  {
    match e
    case EvStart(n, k, refused) => s.(w := s.w[n := StartAt(s.w[n], k, refused)])
    case EvFreeze(n, k) => s.(w := s.w[n := FreezeAt(s.w[n], k)])
    case EvRollback(n, k, refused) => s.(w := s.w[n := RollbackAt(s.w[n], k, refused)])
    case EvIssue => s.(issued := true)
    case EvCommit(n, k) => s.(w := s.w[n := CommitAt(s.w[n], n, k, m.dst)])
  }

  /** What holds of the copy of any thread on node n. */
  ghost predicate RepOk(m: Move, issued: bool, n: int, x: Rep) {
    && x.home in {m.src, m.dst} && (n != m.src && n != m.dst ==> x.remote)
    && (!issued ==> x.home == m.src && (x.remote <==> n != m.src))
    && (issued && n == m.src ==> x.remote || (x.frozen && x.home == n))
  }

  ghost predicate RowOk(m: Move, issued: bool, n: int, g: Copies) {
    |g| == m.threads && forall k :: 0 <= k < |g| ==> RepOk(m, issued, n, g[k])
  }

  ghost predicate Inv(s: State, m: Move) {
    MoveOk(s.w, m) && forall n :: 0 <= n < |s.w| ==> RowOk(m, s.issued, n, s.w[n])
  }

  lemma RowStep(s: State, m: Move, e: Event, n: nat)
    requires Inv(s, m) && Legal(s, m, e) && n < |s.w|
    ensures RowOk(m, s.issued || e.EvIssue?, n, Step(s, m, e).w[n])
  {
  }

  lemma StepInv(s: State, m: Move, e: Event)
    requires Inv(s, m) && Legal(s, m, e)
    ensures Inv(Step(s, m, e), m)
  {
    var t := Step(s, m, e);
    forall n | 0 <= n < |t.w| ensures RowOk(m, t.issued, n, t.w[n]) {
      RowStep(s, m, e, n);
    }
  }

  ghost predicate AtMostOneActive(w: Cluster, m: Move) {
    Shape(w, m.threads)
    && forall a, b, k :: 0 <= a < |w| && 0 <= b < |w| && 0 <= k < m.threads && w[a][k].Active() && w[b][k].Active() ==> a == b
  }

  lemma InvGivesOne(s: State, m: Move)
    requires Inv(s, m)
    ensures AtMostOneActive(s.w, m)
    ensures forall n, k :: 0 <= n < |s.w| && 0 <= k < m.threads && s.w[n][k].Active() ==>
              n == if s.issued then m.dst else m.src
  {
  }

  ghost predicate IsRun(ss: seq<State>, es: seq<Event>, m: Move) {
    && |ss| == |es| + 1
    && forall i :: 0 <= i < |es| ==> Legal(ss[i], m, es[i]) && ss[i + 1] == Step(ss[i], m, es[i])
  }

  /** Before any migration: the process lives on the old node. */
  ghost predicate AtHome(s: State, m: Move) {
    && MoveOk(s.w, m) && !s.issued
    && forall n, k :: 0 <= n < |s.w| && 0 <= k < m.threads ==> s.w[n][k].home == m.src && (s.w[n][k].remote <==> n != m.src)
  }

  /** In every interleaving at most one node has a local unfrozen copy of each thread: the
      old node before COMMIT is issued, the new one after. */
  lemma {:induction false} SingleActiveCopy(ss: seq<State>, es: seq<Event>, m: Move, i: nat)
    requires IsRun(ss, es, m) && AtHome(ss[0], m) && i < |ss|
    ensures Inv(ss[i], m) && AtMostOneActive(ss[i].w, m)
    ensures forall n, k :: 0 <= n < |ss[i].w| && 0 <= k < m.threads && ss[i].w[n][k].Active() ==>
              n == if ss[i].issued then m.dst else m.src
  {
    if i > 0 {
      SingleActiveCopy(ss, es, m, i - 1);
      StepInv(ss[i - 1], m, es[i - 1]);
    }
    InvGivesOne(ss[i], m);
  }

  /** Without the rule on when COMMIT may be issued: processed by the new node it leaves
      thread k with one active copy exactly if the old node's copy is frozen. */
  lemma CommitSafeIff(s: State, m: Move, k: nat)
    requires AtHome(s, m) && k < m.threads
    ensures
      var w := s.w[m.dst := CommitAt(s.w[m.dst], m.dst, k, m.dst)];
      (forall a, b :: 0 <= a < |w| && 0 <= b < |w| && w[a][k].Active() && w[b][k].Active() ==> a == b)
      <==> s.w[m.src][k].frozen
  {
    var w: Cluster := s.w[m.dst := CommitAt(s.w[m.dst], m.dst, k, m.dst)];
    assert w[m.dst][k].Active() && w[m.src] == s.w[m.src];
    if s.w[m.src][k].frozen {
      assert forall a :: 0 <= a < |w| && a != m.dst ==> w[a] == s.w[a];
    }
  }

  /** Without the rule against a late ROLLBACK: once thread k runs on the new node, rolling
      the group back on the old node gives it a second active copy exactly if the old node has
      not yet processed COMMIT. */
  lemma LateRollbackIff(s: State, m: Move, k: nat)
    requires Inv(s, m) && s.issued && k < m.threads && s.w[m.dst][k].Active()
    requires !s.w[m.src][m.lead].remote ==> s.w[m.src][m.lead].leader
    requires s.w[m.src][k].remote <==> s.w[m.src][m.lead].remote
    ensures
      var g := RollbackAt(s.w[m.src], m.lead, false);
      g[k].Active() <==> !s.w[m.src][m.lead].remote
  {
  }
}
