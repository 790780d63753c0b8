/**
 Reaping of zombies and accounting of their counters, as steps that any number of
 waiters, tracers and exiting threads interleave. A waiter in wait_task_zombie is a
 running task that claims the zombie by an atomic exchange of its state, then credits the
 real parent, then either hands the zombie on or releases it; each is a step of its own.
 */
module Reaping {

  /** The counters that are summed up: faults and context switches. */
  datatype Counts = Counts(minFlt: int, majFlt: int, nvcsw: int, nivcsw: int)

  const ZERO := Counts(0, 0, 0, 0)

  function Plus(a: Counts, b: Counts): Counts {
    Counts(a.minFlt + b.minFlt, a.majFlt + b.majFlt, a.nvcsw + b.nvcsw, a.nivcsw + b.nivcsw)
  }

  /** exit_state. EXIT_DEAD is Held (by the waiter that claimed it) or Doomed (releasing
      itself); Gone is after release_task. */
  datatype Phase = Running | Zombie | Held | Doomed | Gone

  /** Where a running task is inside wait_task_zombie: it claimed p, having found it traced
      or not; it is past the accounting; it is about to release p. */
  datatype Doing = Idle | Claimed(p: nat, traced: bool) | Settled(p: nat, traced: bool) | Releasing(p: nat)

  datatype Task = Task(group: nat, leader: bool, own: Counts, phase: Phase, doing: Doing,
                       traced: bool, detached: bool, paid: bool, credits: nat)

  /** A signal_struct: the group of its real parent, the counters of dead threads and of
      reaped children. paid: they were added to the parent's. */
  datatype Group = Group(parent: nat, sum: Counts, csum: Counts, paid: bool, freed: bool)

  datatype State = State(tasks: seq<Task>, groups: seq<Group>)

  /** Every task has a group, a group is not its own parent, a group has one leader, and the
      other threads are detached. */
  ghost predicate Shape(s: State) {
    && (forall t :: 0 <= t < |s.tasks| ==> s.tasks[t].group < |s.groups|)
    && (forall g :: 0 <= g < |s.groups| ==> s.groups[g].parent < |s.groups| && s.groups[g].parent != g)
    && (forall t :: 0 <= t < |s.tasks| && !s.tasks[t].leader ==> s.tasks[t].detached)
    && forall t, u ::
         (0 <= t < |s.tasks| && 0 <= u < |s.tasks| && s.tasks[t].leader && s.tasks[u].leader
          && s.tasks[t].group == s.tasks[u].group) ==> t == u
  }

  /** All other threads of p's group are released: thread_group_empty, and the count of the
      signal_struct is one. */
  ghost predicate LastOf(s: State, p: nat)
    requires p < |s.tasks|
  {
    forall t :: 0 <= t < |s.tasks| && t != p && s.tasks[t].group == s.tasks[p].group ==> s.tasks[t].phase == Gone
  }

  function Set(s: State, t: nat, x: Task): State
    requires t < |s.tasks|
  {
    s.(tasks := s.tasks[t := x])
  }

  // ---- the steps ----

  /** xchg of the exit state: it changes a zombie's only, and tells the claimant. */
  function Claim(s: State, w: nat, p: nat): State
    requires w < |s.tasks| && p < |s.tasks|
  {
    if s.tasks[p].phase != Zombie then s
    else Set(Set(s, p, s.tasks[p].(phase := Held)), w, s.tasks[w].(doing := Claimed(p, s.tasks[p].traced)))
  }

  /** The accounting of wait_task_zombie. */
  function Settle(s: State, w: nat): State
    requires Shape(s) && w < |s.tasks| && s.tasks[w].doing.Claimed? && s.tasks[w].doing.p < |s.tasks|
  {
    var p := s.tasks[w].doing.p;
    var x := s.tasks[p];
    var g, h := s.groups[x.group], s.groups[s.groups[x.group].parent];
    var s1 := Set(s, w, s.tasks[w].(doing := Settled(p, s.tasks[w].doing.traced)));
    if s.tasks[w].doing.traced || x.detached then s1
    else
      Set(s1, p, s1.tasks[p].(paid := true, credits := x.credits + 1))
        .(groups := s.groups[g.parent := h.(csum := Plus(h.csum, Plus(x.own, Plus(g.sum, g.csum))))]
                            [x.group := g.(paid := true)])
  }

  /** The end of wait_task_zombie: a traced zombie goes back to its real parent unless it is
      detached, or turns out to be when the parent is notified. */
  function Finish(s: State, w: nat, ignored: bool): State
    requires w < |s.tasks| && s.tasks[w].doing.Settled? && s.tasks[w].doing.p < |s.tasks|
  {
    var p := s.tasks[w].doing.p;
    var x := s.tasks[p];
    if !s.tasks[w].doing.traced then Set(s, w, s.tasks[w].(doing := Releasing(p)))
    else if !x.detached && !ignored then
      Set(Set(s, p, x.(traced := false, phase := Zombie)), w, s.tasks[w].(doing := Idle))
    else
      Set(Set(s, p, x.(traced := false, detached := true)), w, s.tasks[w].(doing := Releasing(p)))
  }

  /** __exit_signal: the last thread frees the signal_struct, any other adds its counters. */
  ghost function ExitSignal(s: State, p: nat): State
    requires Shape(s) && p < |s.tasks|
  {
    var x := s.tasks[p];
    var g := s.groups[x.group];
    Set(s, p, x.(phase := Gone))
      .(groups := s.groups[x.group := if LastOf(s, p) then g.(freed := true) else g.(sum := Plus(g.sum, x.own))])
  }

  ghost function Release(s: State, w: nat): State
    requires Shape(s) && w < |s.tasks| && s.tasks[w].doing.Releasing? && s.tasks[w].doing.p < |s.tasks|
  {
    ExitSignal(Set(s, w, s.tasks[w].(doing := Idle)), s.tasks[w].doing.p)
  }

  datatype Event =
    | EvExit(t: nat)
    | EvNotified(t: nat)
    | EvDoom(t: nat)
    | EvReleaseSelf(t: nat)
    | EvClaim(w: nat, p: nat)
    | EvSettle(w: nat)
    | EvFinish(w: nat, ignored: bool)
    | EvRelease(w: nat)
    | EvUntrace(t: nat)
    | EvReparent(g: nat, h: nat)

  /** Who may do what: only a zombie, and a leader only when its group is empty, is claimed,
      by a thread of its real parent or, while traced, by its tracer; a task releases itself
      only if nobody will wait for it; a child changes its parent only when the lock shows
      that no waiter is between claiming and crediting it. */
  ghost predicate Legal(s: State, e: Event) {
    var n := |s.tasks|;
    Shape(s) &&
    match e
    case EvExit(t) => t < n && s.tasks[t].phase == Running && s.tasks[t].doing == Idle
    case EvNotified(t) => t < n && s.tasks[t].phase == Zombie && LastOf(s, t)
    case EvDoom(t) => t < n && s.tasks[t].phase == Zombie && s.tasks[t].detached && (s.tasks[t].leader ==> LastOf(s, t))
    case EvReleaseSelf(t) => t < n && s.tasks[t].phase == Doomed
    case EvClaim(w, p) =>
      && w < n && p < n && w != p && s.tasks[w].phase == Running && s.tasks[w].doing == Idle
      && (s.tasks[p].phase == Zombie ==>
            && (s.tasks[p].leader ==> LastOf(s, p))
            && (s.tasks[p].traced || s.groups[s.tasks[p].group].parent == s.tasks[w].group))
    case EvSettle(w) => w < n && s.tasks[w].doing.Claimed? && s.tasks[w].doing.p < n
    case EvFinish(w, _) => w < n && s.tasks[w].doing.Settled? && s.tasks[w].doing.p < n
    case EvRelease(w) => w < n && s.tasks[w].doing.Releasing? && s.tasks[w].doing.p < n
    case EvUntrace(t) => t < n
    case EvReparent(g, h) =>
      && g < |s.groups| && h < |s.groups| && g != h
      && forall w :: 0 <= w < n && s.tasks[w].doing.Claimed? && s.tasks[w].doing.p < n ==>
           s.tasks[s.tasks[w].doing.p].group != g
  }

  ghost function Step(s: State, e: Event): State
    requires Legal(s, e)
  {
    match e
    case EvExit(t) => Set(s, t, s.tasks[t].(phase := Zombie))
    case EvNotified(t) => Set(s, t, s.tasks[t].(detached := true))
    case EvDoom(t) => Set(s, t, s.tasks[t].(phase := Doomed))
    case EvReleaseSelf(t) => ExitSignal(s, t)
    case EvClaim(w, p) => Claim(s, w, p)
    case EvSettle(w) => Settle(s, w)
    case EvFinish(w, ignored) => Finish(s, w, ignored)
    case EvRelease(w) => Release(s, w)
    case EvUntrace(t) => Set(s, t, s.tasks[t].(traced := false))
    case EvReparent(g, h) => s.(groups := s.groups[g := s.groups[g].(parent := h)])
  }

  // ---- what every run keeps ----

  /** A waiter holds a claimed task, which no waiter has credited before it settles. */
  ghost predicate WaiterOk(s: State, w: nat)
    requires Shape(s) && w < |s.tasks|
  {
    var d := s.tasks[w].doing;
    d.Idle? ||
    (&& s.tasks[w].phase == Running && d.p < |s.tasks| && d.p != w && s.tasks[d.p].phase == Held
     && (d.Claimed? || (d.Settled? && d.traced) ==> !s.tasks[d.p].paid)
     && (d.Claimed? && !d.traced ==> s.groups[s.tasks[d.p].group].parent == s.tasks[w].group))
  }

  /** A credited task is a leader, the last of its group, and was credited once. */
  ghost predicate TaskOk(s: State, t: nat)
    requires Shape(s) && t < |s.tasks|
  {
    var x := s.tasks[t];
    && x.credits == (if x.paid then 1 else 0)
    && (x.paid ==> x.leader && x.phase in {Held, Gone} && LastOf(s, t) && s.groups[x.group].paid)
    && (x.phase in {Held, Doomed} && x.leader ==> LastOf(s, t))
    && (s.groups[x.group].freed ==> x.phase == Gone)
    && (s.groups[x.group].paid && x.phase != Gone ==> x.paid)
  }

  ghost predicate Apart(s: State) {
    forall v, w :: 0 <= v < |s.tasks| && 0 <= w < |s.tasks| && v != w && !s.tasks[v].doing.Idle? && !s.tasks[w].doing.Idle?
                   ==> s.tasks[v].doing.p != s.tasks[w].doing.p
  }

  ghost predicate Inv(s: State) {
    && Shape(s) && Apart(s)
    && (forall t :: 0 <= t < |s.tasks| ==> TaskOk(s, t))
    && forall w :: 0 <= w < |s.tasks| ==> WaiterOk(s, w)
  }

  /** A step that moves nobody between groups and brings nobody back. */
  ghost predicate Calm(s: State, r: State) {
    && |r.tasks| == |s.tasks| && |r.groups| == |s.groups|
    && forall t :: 0 <= t < |s.tasks| ==>
         && r.tasks[t].group == s.tasks[t].group && r.tasks[t].leader == s.tasks[t].leader
         && (s.tasks[t].detached ==> r.tasks[t].detached)
         && (s.tasks[t].phase == Gone ==> r.tasks[t].phase == Gone)
  }

  lemma CalmShape(s: State, r: State)
    requires Shape(s) && Calm(s, r)
    requires forall g :: 0 <= g < |r.groups| ==> r.groups[g].parent < |r.groups| && r.groups[g].parent != g
    ensures Shape(r)
  {
  }

  lemma CalmLast(s: State, r: State, p: nat)
    requires Calm(s, r) && p < |s.tasks| && LastOf(s, p)
    ensures LastOf(r, p)
  {
  }

  /** A task that stays as it is, in a group whose marks stay. */
  lemma TaskKept(s: State, r: State, t: nat)
    requires Shape(s) && Shape(r) && Calm(s, r) && t < |s.tasks| && TaskOk(s, t)
    requires r.tasks[t] == s.tasks[t].(doing := r.tasks[t].doing, traced := r.tasks[t].traced, detached := r.tasks[t].detached)
    requires r.groups[s.tasks[t].group].paid == s.groups[s.tasks[t].group].paid
    requires r.groups[s.tasks[t].group].freed == s.groups[s.tasks[t].group].freed
    ensures TaskOk(r, t)
  {
  }

  /** A waiter not concerned by the step. */
  lemma WaiterKept(s: State, r: State, w: nat)
    requires Shape(s) && Shape(r) && Calm(s, r) && w < |s.tasks| && WaiterOk(s, w)
    requires r.tasks[w].doing == s.tasks[w].doing && (s.tasks[w].doing.Idle? || r.tasks[w].phase == s.tasks[w].phase)
    requires
      var d := s.tasks[w].doing;
      d.Idle? || (r.tasks[d.p].phase == s.tasks[d.p].phase && r.tasks[d.p].paid == s.tasks[d.p].paid
                  && (d.Claimed? ==> r.groups[s.tasks[d.p].group].parent == s.groups[s.tasks[d.p].group].parent))
    ensures WaiterOk(r, w)
  {
  }

  // ---- steps outside wait_task_zombie ----

  lemma PhaseInv(s: State, t: nat, x: Task)
    requires Inv(s) && t < |s.tasks| && s.tasks[t].doing == Idle && s.tasks[t].phase in {Running, Zombie}
    requires x == s.tasks[t].(phase := x.phase, detached := x.detached, traced := x.traced)
    requires s.tasks[t].detached ==> x.detached
    requires x.phase in {Running, Zombie} || (x.phase == Doomed && (x.leader ==> LastOf(s, t)))
    ensures Inv(Set(s, t, x))
  {
    var r := Set(s, t, x);
    assert TaskOk(s, t);
    CalmShape(s, r);
    forall u | 0 <= u < |s.tasks| ensures TaskOk(r, u) && WaiterOk(r, u) {
      assert TaskOk(s, u) && WaiterOk(s, u);
      WaiterKept(s, r, u);
      if u != t {
        TaskKept(s, r, u);
      } else if LastOf(s, t) {
        CalmLast(s, r, t);
      }
    }
  }

  lemma UntraceInv(s: State, t: nat)
    requires Inv(s) && t < |s.tasks|
    ensures Inv(Set(s, t, s.tasks[t].(traced := false)))
  {
    var r := Set(s, t, s.tasks[t].(traced := false));
    CalmShape(s, r);
    forall u | 0 <= u < |s.tasks| ensures TaskOk(r, u) && WaiterOk(r, u) {
      assert TaskOk(s, u) && WaiterOk(s, u);
      WaiterKept(s, r, u);
      TaskKept(s, r, u);
    }
  }

  lemma ReparentInv(s: State, g: nat, h: nat)
    requires Inv(s) && Legal(s, EvReparent(g, h))
    ensures Inv(Step(s, EvReparent(g, h)))
  {
    var r := Step(s, EvReparent(g, h));
    CalmShape(s, r);
    forall u | 0 <= u < |s.tasks| ensures TaskOk(r, u) && WaiterOk(r, u) {
      assert TaskOk(s, u) && WaiterOk(s, u);
      WaiterKept(s, r, u);
      TaskKept(s, r, u);
    }
  }

  /** A released task leaves nobody else's part of the invariant. */
  lemma ExitSignalInv(s: State, p: nat)
    requires Inv(s) && p < |s.tasks| && s.tasks[p].phase in {Held, Doomed}
    requires forall w :: 0 <= w < |s.tasks| && !s.tasks[w].doing.Idle? ==> s.tasks[w].doing.p != p
    ensures Inv(ExitSignal(s, p))
  {
    var r := ExitSignal(s, p);
    assert TaskOk(s, p) && WaiterOk(s, p);
    CalmShape(s, r);
    forall u | 0 <= u < |s.tasks| ensures TaskOk(r, u) && WaiterOk(r, u) {
      assert TaskOk(s, u) && WaiterOk(s, u);
      WaiterKept(s, r, u);
      ReleasedTask(s, r, p, u);
    }
  }

  lemma ReleasedTask(s: State, r: State, p: nat, u: nat)
    requires Inv(s) && p < |s.tasks| && u < |s.tasks| && s.tasks[p].phase in {Held, Doomed}
    requires r == ExitSignal(s, p) && Shape(r) && Calm(s, r)
    ensures TaskOk(r, u)
  {
    assert TaskOk(s, u) && TaskOk(s, p);
    if LastOf(s, u) {
      CalmLast(s, r, u);
    }
    if s.tasks[u].group != s.tasks[p].group {
      TaskKept(s, r, u);
    } else if u != p && LastOf(s, p) {
      assert s.tasks[u].phase == Gone;
    }
  }

  // ---- steps of wait_task_zombie ----

  /** A step of waiter w and of the task p it deals with. */
  lemma PairStep(s: State, r: State, w: nat, p: nat)
    requires Inv(s) && Shape(r) && Calm(s, r) && w < |s.tasks| && p < |s.tasks| && w != p
    requires forall u :: 0 <= u < |s.tasks| && u != w && u != p ==> r.tasks[u] == s.tasks[u]
    requires r.tasks[w] == s.tasks[w].(doing := r.tasks[w].doing) && r.groups == s.groups
    requires s.tasks[p].doing == r.tasks[p].doing == Idle && (r.tasks[w].doing == Idle || r.tasks[w].doing.p == p)
    requires forall u :: 0 <= u < |s.tasks| && u != w && !s.tasks[u].doing.Idle? ==> s.tasks[u].doing.p != p
    requires TaskOk(r, p) && WaiterOk(r, w)
    ensures Inv(r)
  {
    forall u | 0 <= u < |s.tasks| ensures TaskOk(r, u) && WaiterOk(r, u) {
      PairStepAt(s, r, w, p, u);
    }
  }

  lemma PairStepAt(s: State, r: State, w: nat, p: nat, u: nat)
    requires Inv(s) && Shape(r) && Calm(s, r) && w < |s.tasks| && p < |s.tasks| && u < |s.tasks|
    requires u != w && u != p ==> r.tasks[u] == s.tasks[u]
    requires r.tasks[w] == s.tasks[w].(doing := r.tasks[w].doing) && r.groups == s.groups
    requires r.tasks[p].doing == Idle
    requires u != w && !s.tasks[u].doing.Idle? ==> s.tasks[u].doing.p != p
    requires forall v :: 0 <= v < |s.tasks| && v != w && v != p ==> r.tasks[v] == s.tasks[v]
    requires TaskOk(r, p) && WaiterOk(r, w)
    ensures TaskOk(r, u) && WaiterOk(r, u)
  {
    assert TaskOk(s, u) && WaiterOk(s, u);
    if u != p {
      TaskKept(s, r, u);
      if u != w {
        WaiterKept(s, r, u);
      }
    }
  }

  lemma ClaimInv(s: State, w: nat, p: nat)
    requires Inv(s) && Legal(s, EvClaim(w, p))
    ensures Inv(Claim(s, w, p))
  {
    var r := Claim(s, w, p);
    if s.tasks[p].phase == Zombie {
      assert TaskOk(s, p) && WaiterOk(s, p);
      CalmShape(s, r);
      forall u | 0 <= u < |s.tasks| && u != w && !s.tasks[u].doing.Idle? ensures s.tasks[u].doing.p != p {
        assert WaiterOk(s, u);
      }
      if LastOf(s, p) {
        CalmLast(s, r, p);
      }
      PairStep(s, r, w, p);
    }
  }

  /** The group of a running waiter is neither freed nor credited. */
  lemma WaiterGroup(s: State, w: nat)
    requires Inv(s) && w < |s.tasks| && s.tasks[w].phase == Running
    ensures !s.groups[s.tasks[w].group].freed && !s.groups[s.tasks[w].group].paid
  {
    assert TaskOk(s, w);
  }

  lemma SettleTask(s: State, w: nat, r: State, u: nat)
    requires Inv(s) && Legal(s, EvSettle(w)) && r == Settle(s, w) && Shape(r) && Calm(s, r) && u < |s.tasks|
    ensures TaskOk(r, u)
  {
    var p := s.tasks[w].doing.p;
    assert WaiterOk(s, w) && TaskOk(s, u) && TaskOk(s, p);
    if LastOf(s, u) {
      CalmLast(s, r, u);
    }
    if LastOf(s, p) && u != p && s.tasks[u].group == s.tasks[p].group {
      assert s.tasks[u].phase == Gone;
    }
  }

  lemma SettleWaiter(s: State, w: nat, r: State, u: nat)
    requires Inv(s) && Legal(s, EvSettle(w)) && r == Settle(s, w) && Shape(r) && Calm(s, r) && u < |s.tasks|
    ensures WaiterOk(r, u)
  {
    assert WaiterOk(s, w) && WaiterOk(s, u);
    if u != w {
      assert !s.tasks[u].doing.Idle? ==> s.tasks[u].doing.p != s.tasks[w].doing.p;
      WaiterKept(s, r, u);
    }
  }

  lemma SettleInv(s: State, w: nat)
    requires Inv(s) && Legal(s, EvSettle(w))
    ensures Inv(Settle(s, w))
  {
    var r := Settle(s, w);
    assert WaiterOk(s, w);
    CalmShape(s, r);
    forall u | 0 <= u < |s.tasks| ensures TaskOk(r, u) && WaiterOk(r, u) {
      SettleTask(s, w, r, u);
      SettleWaiter(s, w, r, u);
    }
  }

  /** The waiter w goes on to d and leaves the task p it holds as x. */
  lemma HandOn(s: State, w: nat, p: nat, x: Task, d: Doing)
    requires Inv(s) && w < |s.tasks| && s.tasks[w].doing.Settled? && s.tasks[w].doing.p == p && p < |s.tasks|
    requires x == s.tasks[p].(traced := x.traced, detached := x.detached, phase := x.phase)
    requires s.tasks[p].detached ==> x.detached
    requires (d == Releasing(p) && x.phase == Held) || (d == Idle && x.phase == Zombie && s.tasks[w].doing.traced)
    ensures Inv(Set(Set(s, p, x), w, s.tasks[w].(doing := d)))
  {
    var r := Set(Set(s, p, x), w, s.tasks[w].(doing := d));
    assert WaiterOk(s, w) && TaskOk(s, p) && WaiterOk(s, p);
    CalmShape(s, r);
    if LastOf(s, p) {
      CalmLast(s, r, p);
    }
    PairStep(s, r, w, p);
  }

  lemma FinishInv(s: State, w: nat, ignored: bool)
    requires Inv(s) && Legal(s, EvFinish(w, ignored))
    ensures Inv(Finish(s, w, ignored))
  {
    var p := s.tasks[w].doing.p;
    var x := s.tasks[p];
    assert WaiterOk(s, w);
    if !s.tasks[w].doing.traced {
      HandOn(s, w, p, x, Releasing(p));
      assert Set(s, p, x) == s;
    } else if !x.detached && !ignored {
      HandOn(s, w, p, x.(traced := false, phase := Zombie), Idle);
    } else {
      HandOn(s, w, p, x.(traced := false, detached := true), Releasing(p));
    }
  }

  /** A waiter that lets go. */
  lemma LetGoInv(s: State, w: nat)
    requires Inv(s) && w < |s.tasks|
    ensures Inv(Set(s, w, s.tasks[w].(doing := Idle)))
  {
    var r := Set(s, w, s.tasks[w].(doing := Idle));
    CalmShape(s, r);
    forall u | 0 <= u < |s.tasks| ensures TaskOk(r, u) && WaiterOk(r, u) {
      assert TaskOk(s, u) && WaiterOk(s, u);
      TaskKept(s, r, u);
      if u != w {
        WaiterKept(s, r, u);
      }
    }
  }

  lemma ReleaseInv(s: State, w: nat)
    requires Inv(s) && Legal(s, EvRelease(w))
    ensures Inv(Release(s, w))
  {
    var p := s.tasks[w].doing.p;
    assert WaiterOk(s, w);
    LetGoInv(s, w);
    var r := Set(s, w, s.tasks[w].(doing := Idle));
    forall u | 0 <= u < |r.tasks| && !r.tasks[u].doing.Idle? ensures r.tasks[u].doing.p != p {
      assert u != w && s.tasks[u].doing == r.tasks[u].doing;
    }
    ExitSignalInv(r, p);
  }

  lemma StepInv(s: State, e: Event)
    requires Inv(s) && Legal(s, e)
    ensures Inv(Step(s, e))
  {
    match e
    case EvExit(t) => PhaseInv(s, t, s.tasks[t].(phase := Zombie));
    case EvNotified(t) =>
      assert WaiterOk(s, t);
      PhaseInv(s, t, s.tasks[t].(detached := true));
    case EvDoom(t) =>
      assert WaiterOk(s, t);
      PhaseInv(s, t, s.tasks[t].(phase := Doomed));
    case EvReleaseSelf(t) =>
      forall w | 0 <= w < |s.tasks| && !s.tasks[w].doing.Idle? ensures s.tasks[w].doing.p != t {
        assert WaiterOk(s, w);
      }
      ExitSignalInv(s, t);
    case EvClaim(w, p) => ClaimInv(s, w, p);
    case EvSettle(w) => SettleInv(s, w);
    case EvFinish(w, ignored) => FinishInv(s, w, ignored);
    case EvRelease(w) => ReleaseInv(s, w);
    case EvUntrace(t) => UntraceInv(s, t);
    case EvReparent(g, h) => ReparentInv(s, g, h);
  }

  ghost predicate IsRun(ss: seq<State>, es: seq<Event>) {
    |ss| == |es| + 1 && forall i :: 0 <= i < |es| ==> Legal(ss[i], es[i]) && ss[i + 1] == Step(ss[i], es[i])
  }

  /** Nobody has exited yet. */
  ghost predicate Fresh(s: State) {
    && Shape(s)
    && (forall t :: 0 <= t < |s.tasks| ==>
          s.tasks[t].phase == Running && s.tasks[t].doing == Idle && !s.tasks[t].paid && s.tasks[t].credits == 0)
    && forall g :: 0 <= g < |s.groups| ==> !s.groups[g].paid && !s.groups[g].freed
  }

  /** Under every interleaving of waiters and tracers each zombie is credited at most once. */
  lemma {:induction false} CreditedAtMostOnce(ss: seq<State>, es: seq<Event>, i: nat)
    requires IsRun(ss, es) && Fresh(ss[0]) && i < |ss|
    ensures Inv(ss[i])
    ensures forall t :: 0 <= t < |ss[i].tasks| ==> ss[i].tasks[t].credits <= 1
  {
    if i > 0 {
      CreditedAtMostOnce(ss, es, i - 1);
      StepInv(ss[i - 1], es[i - 1]);
    }
    forall t | 0 <= t < |ss[i].tasks| ensures ss[i].tasks[t].credits <= 1 {
      assert TaskOk(ss[i], t);
    }
  }

  // ---- conservation ----

  function Sum(xs: seq<Counts>): Counts {
    if xs == [] then ZERO else Plus(Sum(xs[..|xs| - 1]), xs[|xs| - 1])
  }

  lemma {:induction false} SumUpdate(xs: seq<Counts>, i: nat, v: Counts)
    requires i < |xs|
    ensures Plus(Sum(xs[i := v]), xs[i]) == Plus(Sum(xs), v)
    decreases |xs|
  {
    var n := |xs| - 1;
    if i < n {
      SumUpdate(xs[..n], i, v);
      assert xs[i := v][..n] == xs[..n][i := v];
    } else {
      assert xs[i := v][..n] == xs[..n];
    }
  }

  /** What a task and a signal_struct still account for: nothing once released or freed, nor
      once added to the parent. */
  function TaskPart(x: Task): Counts {
    if x.phase == Gone || x.paid then ZERO else x.own
  }

  function GroupPart(g: Group): Counts {
    if g.freed || g.paid then ZERO else Plus(g.sum, g.csum)
  }

  function TaskParts(s: State): (r: seq<Counts>)
    ensures |r| == |s.tasks|
  {
    seq(|s.tasks|, t requires 0 <= t < |s.tasks| => TaskPart(s.tasks[t]))
  }

  function GroupParts(s: State): (r: seq<Counts>)
    ensures |r| == |s.groups|
  {
    seq(|s.groups|, g requires 0 <= g < |s.groups| => GroupPart(s.groups[g]))
  }

  function Total(s: State): Counts {
    Plus(Sum(TaskParts(s)), Sum(GroupParts(s)))
  }

  lemma SameParts(s: State, r: State)
    requires |r.tasks| == |s.tasks| && |r.groups| == |s.groups|
    requires forall t :: 0 <= t < |s.tasks| ==> TaskPart(r.tasks[t]) == TaskPart(s.tasks[t])
    requires forall g :: 0 <= g < |s.groups| ==> GroupPart(r.groups[g]) == GroupPart(s.groups[g])
    ensures Total(r) == Total(s)
  {
    assert TaskParts(r) == TaskParts(s) && GroupParts(r) == GroupParts(s);
  }

  /** Moving entry p of one list and entry g of another into entry h of the second. */
  lemma SumMove(ts: seq<Counts>, gs: seq<Counts>, p: nat, h: nat, g: nat)
    requires p < |ts| && h < |gs| && g < |gs| && g != h
    ensures Plus(Sum(ts[p := ZERO]), Sum(gs[h := Plus(gs[h], Plus(ts[p], gs[g]))][g := ZERO])) == Plus(Sum(ts), Sum(gs))
  {
    var moved := Plus(gs[h], Plus(ts[p], gs[g]));
    SumUpdate(ts, p, ZERO);
    SumUpdate(gs, h, moved);
    SumUpdate(gs[h := moved], g, ZERO);
  }

  /** Taking entry p of one list away and changing entry g of another to v. */
  lemma SumTake(ts: seq<Counts>, gs: seq<Counts>, p: nat, g: nat, v: Counts)
    requires p < |ts| && g < |gs|
    ensures Plus(Plus(Sum(ts[p := ZERO]), Sum(gs[g := v])), Plus(ts[p], gs[g])) == Plus(Plus(Sum(ts), Sum(gs)), v)
  {
    SumUpdate(ts, p, ZERO);
    SumUpdate(gs, g, v);
  }

  /** Crediting keeps the total. */
  lemma SettleConserves(s: State, w: nat)
    requires Inv(s) && Legal(s, EvSettle(w))
    ensures Total(Settle(s, w)) == Total(s)
  {
    var p, r := s.tasks[w].doing.p, Settle(s, w);
    var x := s.tasks[p];
    assert WaiterOk(s, w) && TaskOk(s, p);
    WaiterGroup(s, w);
    if s.tasks[w].doing.traced || x.detached {
      SameParts(s, r);
    } else {
      SettleParts(s, w);
      SumMove(TaskParts(s), GroupParts(s), p, s.groups[x.group].parent, x.group);
    }
  }

  lemma SettleParts(s: State, w: nat)
    requires Inv(s) && Legal(s, EvSettle(w)) && !s.tasks[w].doing.traced && !s.tasks[s.tasks[w].doing.p].detached
    ensures
      var p := s.tasks[w].doing.p;
      var g := s.tasks[p].group;
      var h := s.groups[g].parent;
      var ts, gs := TaskParts(s), GroupParts(s);
      && TaskParts(Settle(s, w)) == ts[p := ZERO]
      && GroupParts(Settle(s, w)) == gs[h := Plus(gs[h], Plus(ts[p], gs[g]))][g := ZERO]
  {
    assert WaiterOk(s, w) && TaskOk(s, s.tasks[w].doing.p);
    WaiterGroup(s, w);
  }

  /** Crediting adds everything the zombie's process accounts for to its real parent, whose
      thread the waiter is. */
  lemma SettleCredits(s: State, w: nat)
    requires Inv(s) && Legal(s, EvSettle(w)) && !s.tasks[w].doing.traced && !s.tasks[s.tasks[w].doing.p].detached
    ensures
      var p := s.tasks[w].doing.p;
      var r, h := Settle(s, w), s.tasks[w].group;
      && r.tasks[p].credits == 1 && s.tasks[p].credits == 0
      && s.groups[s.tasks[p].group].parent == h && !s.groups[h].freed && !s.groups[h].paid
      && r.groups[h].csum == Plus(s.groups[h].csum, Plus(s.tasks[p].own, GroupPart(s.groups[s.tasks[p].group])))
  {
    assert WaiterOk(s, w) && TaskOk(s, s.tasks[w].doing.p);
    WaiterGroup(s, w);
  }

  /** What releasing p drops: nothing unless it is the last of its group and unpaid. */
  ghost function Lost(s: State, p: nat): Counts
    requires Shape(s) && p < |s.tasks|
  {
    if LastOf(s, p) && !s.tasks[p].paid then Plus(s.tasks[p].own, GroupPart(s.groups[s.tasks[p].group])) else ZERO
  }

  lemma TotalTaken(s: State, r: State, p: nat, g: nat)
    requires p < |s.tasks| && g < |s.groups|
    requires TaskParts(r) == TaskParts(s)[p := ZERO] && GroupParts(r) == GroupParts(s)[g := ZERO]
    ensures Plus(Total(r), Plus(TaskParts(s)[p], GroupParts(s)[g])) == Total(s)
  {
    SumTake(TaskParts(s), GroupParts(s), p, g, ZERO);
  }

  lemma TotalShifted(s: State, r: State, p: nat, g: nat)
    requires p < |s.tasks| && g < |s.groups|
    requires TaskParts(r) == TaskParts(s)[p := ZERO]
    requires GroupParts(r) == GroupParts(s)[g := Plus(GroupParts(s)[g], TaskParts(s)[p])]
    ensures Plus(Total(r), ZERO) == Total(s)
  {
    var x, y := TaskParts(s)[p], GroupParts(s)[g];
    SumTake(TaskParts(s), GroupParts(s), p, g, Plus(y, x));
    PlusCancel(Total(r), Total(s), x, y);
  }

  lemma ExitSignalTotal(s: State, p: nat)
    requires Inv(s) && p < |s.tasks| && s.tasks[p].phase in {Held, Doomed}
    ensures Plus(Total(ExitSignal(s, p)), Lost(s, p)) == Total(s)
  {
    assert TaskOk(s, p);
    ExitSignalParts(s, p);
    PartsAt(s, p);
    if LastOf(s, p) {
      LostLast(s, p);
      TotalTaken(s, ExitSignal(s, p), p, s.tasks[p].group);
    } else {
      TotalShifted(s, ExitSignal(s, p), p, s.tasks[p].group);
    }
  }

  lemma PartsAt(s: State, p: nat)
    requires Shape(s) && p < |s.tasks|
    ensures TaskParts(s)[p] == TaskPart(s.tasks[p])
    ensures GroupParts(s)[s.tasks[p].group] == GroupPart(s.groups[s.tasks[p].group])
  {
  }

  lemma ZeroPlus()
    ensures Plus(ZERO, ZERO) == ZERO
  {
  }

  lemma LostLast(s: State, p: nat)
    requires Shape(s) && p < |s.tasks| && TaskOk(s, p) && s.tasks[p].phase in {Held, Doomed} && LastOf(s, p)
    ensures Lost(s, p) == Plus(TaskPart(s.tasks[p]), GroupPart(s.groups[s.tasks[p].group]))
  {
    if s.tasks[p].paid {
      ZeroPlus();
    } else {
      assert TaskPart(s.tasks[p]) == s.tasks[p].own;
    }
  }

  lemma PlusCancel(a: Counts, b: Counts, x: Counts, y: Counts)
    requires Plus(a, Plus(x, y)) == Plus(b, Plus(y, x))
    ensures a == b && Plus(a, ZERO) == b
  {
  }

  lemma ExitSignalParts(s: State, p: nat)
    requires Inv(s) && p < |s.tasks| && s.tasks[p].phase in {Held, Doomed}
    ensures
      var r, g := ExitSignal(s, p), s.tasks[p].group;
      var gs := GroupParts(s);
      && TaskParts(r) == TaskParts(s)[p := ZERO]
      && GroupParts(r) == gs[g := if LastOf(s, p) then ZERO else Plus(gs[g], s.tasks[p].own)]
  {
    assert TaskOk(s, p);
  }

  /** What a step drops of the total. */
  ghost function Drops(s: State, e: Event): Counts
    requires Legal(s, e)
  {
    match e
    case EvReleaseSelf(t) => Lost(s, t)
    case EvRelease(w) => Lost(s, s.tasks[w].doing.p)
    case _ => ZERO
  }

  lemma ReleaseTotal(s: State, w: nat)
    requires Inv(s) && Legal(s, EvRelease(w))
    ensures Plus(Total(Release(s, w)), Lost(s, s.tasks[w].doing.p)) == Total(s)
  {
    var r := Set(s, w, s.tasks[w].(doing := Idle));
    var p := s.tasks[w].doing.p;
    assert WaiterOk(s, w);
    LetGoInv(s, w);
    SameParts(s, r);
    ExitSignalTotal(r, p);
    assert LastOf(r, p) <==> LastOf(s, p) by {
      assert forall t :: 0 <= t < |s.tasks| ==> r.tasks[t].phase == s.tasks[t].phase && r.tasks[t].group == s.tasks[t].group;
    }
  }

  /** Every step keeps the total of faults and context switches over tasks and signal
      structures exactly if it does not release, without credit, the last thread of a process
      that still accounts for some. */
  lemma StepConservesIff(s: State, e: Event)
    requires Inv(s) && Legal(s, e)
    ensures Plus(Total(Step(s, e)), Drops(s, e)) == Total(s)
    ensures Total(Step(s, e)) == Total(s) <==> Drops(s, e) == ZERO
  {
    match e
    case EvSettle(w) => SettleConserves(s, w);
    case EvRelease(w) => ReleaseTotal(s, w);
    case EvReleaseSelf(t) => ExitSignalTotal(s, t);
    case _ => QuietStep(s, e);
  }

  lemma QuietStep(s: State, e: Event)
    requires Inv(s) && Legal(s, e) && !e.EvSettle? && !e.EvRelease? && !e.EvReleaseSelf?
    ensures Total(Step(s, e)) == Total(s)
  {
    if e.EvClaim? || e.EvFinish? {
      QuietWaiter(s, e);
    } else {
      SameParts(s, Step(s, e));
    }
  }

  lemma QuietWaiter(s: State, e: Event)
    requires Inv(s) && Legal(s, e) && (e.EvClaim? || e.EvFinish?)
    ensures Total(Step(s, e)) == Total(s)
  {
    if e.EvFinish? {
      assert WaiterOk(s, e.w);
    }
    SameParts(s, Step(s, e));
  }

  /** A process reaped by wait is paid when its last thread is released, so nothing is lost:
      over every run in which no last thread is released unpaid the total never changes. */
  lemma {:induction false} EveryRunConserves(ss: seq<State>, es: seq<Event>, i: nat)
    requires IsRun(ss, es) && Fresh(ss[0]) && i < |ss|
    requires forall j :: 0 <= j < i ==> Drops(ss[j], es[j]) == ZERO
    ensures Total(ss[i]) == Total(ss[0])
  {
    if i > 0 {
      EveryRunConserves(ss, es, i - 1);
      CreditedAtMostOnce(ss, es, i - 1);
      StepConservesIff(ss[i - 1], es[i - 1]);
    }
  }

  /** A waiter that was the real parent's, and found the zombie neither traced nor detached,
      releases nothing unpaid. */
  lemma WaitedForIsPaid(s: State, w: nat)
    requires Inv(s) && Legal(s, EvSettle(w)) && !s.tasks[w].doing.traced && !s.tasks[s.tasks[w].doing.p].detached
    ensures
      var r := Settle(s, w);
      && Legal(r, EvFinish(w, false)) && Legal(Finish(r, w, false), EvRelease(w))
      && Drops(Finish(r, w, false), EvRelease(w)) == ZERO
  {
    assert WaiterOk(s, w);
    SettleInv(s, w);
    FinishInv(Settle(s, w), w, false);
  }

  // ---- release_task ----

  /** The leader ld after the parent was notified that its group is now empty. */
  function Notified(s: State, ld: nat, ignored: bool): State
    requires ld < |s.tasks|
  {
    Set(s, ld, s.tasks[ld].(detached := s.tasks[ld].detached || ignored))
  }

  /** release_task of p: if p was the last thread but the leader ld, a zombie nobody waits
      for, the leader goes the same way. ignored: the parent ignores SIGCHLD. */
  ghost function ReleaseTask(s: State, p: nat, ld: nat, ignored: bool): State
    requires Shape(s) && p < |s.tasks| && ld < |s.tasks|
  {
    var a := ExitSignal(s, p);
    if ld == p || a.tasks[ld].phase != Zombie || !LastOf(a, ld) then a
    else
      var b := Notified(a, ld, ignored);
      if !b.tasks[ld].detached then b
      else
        CalmShape(s, Set(b, ld, b.tasks[ld].(phase := Doomed)));
        ExitSignal(Set(b, ld, b.tasks[ld].(phase := Doomed)), ld)
  }

  /** release_task keeps what every run keeps, and each of its turns releases one task. */
  lemma ReleaseTaskInv(s: State, p: nat, ld: nat, ignored: bool)
    requires Inv(s) && p < |s.tasks| && s.tasks[p].phase in {Held, Doomed} && ld < |s.tasks|
    requires s.tasks[ld].leader && s.tasks[ld].group == s.tasks[p].group
    requires forall w :: 0 <= w < |s.tasks| && !s.tasks[w].doing.Idle? ==> s.tasks[w].doing.p != p
    ensures Inv(ReleaseTask(s, p, ld, ignored))
  {
    ExitSignalInv(s, p);
    var a := ExitSignal(s, p);
    if ld != p && a.tasks[ld].phase == Zombie && LastOf(a, ld) {
      assert WaiterOk(a, ld);
      PhaseInv(a, ld, a.tasks[ld].(detached := a.tasks[ld].detached || ignored));
      var b := Notified(a, ld, ignored);
      if b.tasks[ld].detached {
        ZapInv(b, ld);
      }
    }
  }

  /** All tasks of the group of ld but p and ld are gone. */
  ghost predicate AloneWith(s: State, p: nat, ld: nat)
    requires ld < |s.tasks|
  {
    forall t :: 0 <= t < |s.tasks| && t != p && t != ld && s.tasks[t].group == s.tasks[ld].group ==> s.tasks[t].phase == Gone
  }

  /** Whom release_task releases: p, and its leader exactly if that is another task, a zombie, the only
      one left of its group, and one nobody will wait for. */
  lemma ReleasesWhom(s: State, p: nat, ld: nat, ignored: bool)
    requires Shape(s) && p < |s.tasks| && ld < |s.tasks| && s.tasks[ld].group == s.tasks[p].group
    ensures
      var r, x := ReleaseTask(s, p, ld, ignored), s.tasks[ld];
      && |r.tasks| == |s.tasks| && r.tasks[p].phase == Gone
      && (forall t :: 0 <= t < |s.tasks| && t != p && t != ld ==> r.tasks[t] == s.tasks[t])
      && (ld != p && !(x.phase == Zombie && AloneWith(s, p, ld)) ==> r.tasks[ld] == x)
      && (ld != p && x.phase == Zombie && AloneWith(s, p, ld) ==>
            r.tasks[ld] == x.(detached := x.detached || ignored, phase := if x.detached || ignored then Gone else Zombie))
      && (ld == p ==> r == ExitSignal(s, p))
  {
    if ld != p {
      LastWith(s, p, ld);
    }
  }

  lemma LastWith(s: State, p: nat, ld: nat)
    requires Shape(s) && p < |s.tasks| && ld < |s.tasks| && ld != p
    ensures LastOf(ExitSignal(s, p), ld) <==> AloneWith(s, p, ld)
  {
    var a := ExitSignal(s, p);
    assert forall t :: 0 <= t < |s.tasks| && t != p ==> a.tasks[t] == s.tasks[t];
    assert a.tasks[p].phase == Gone;
    if LastOf(a, ld) {
      forall t | 0 <= t < |s.tasks| && t != p && t != ld && s.tasks[t].group == s.tasks[ld].group ensures s.tasks[t].phase == Gone {
        assert a.tasks[t].group == a.tasks[ld].group;
      }
    }
  }

  lemma ZapInv(b: State, ld: nat)
    requires Inv(b) && ld < |b.tasks| && b.tasks[ld].phase == Zombie && LastOf(b, ld)
    ensures
      var c := Set(b, ld, b.tasks[ld].(phase := Doomed));
      Shape(c) && Inv(ExitSignal(c, ld))
  {
    assert WaiterOk(b, ld);
    PhaseInv(b, ld, b.tasks[ld].(phase := Doomed));
    var c := Set(b, ld, b.tasks[ld].(phase := Doomed));
    forall w | 0 <= w < |c.tasks| && !c.tasks[w].doing.Idle? ensures c.tasks[w].doing.p != ld {
      assert WaiterOk(c, w);
    }
    ExitSignalInv(c, ld);
  }

  /** The task list and the signal structures, updated in place. */
  class TaskList {
    const task: array<Task>
    const group: array<Group>

    ghost function View(): State
      reads task, group
    {
      State(task[..], group[..])
    }

    /** thread_group_empty, and the test of the signal_struct's count. */
    method IsLast(p: nat) returns (last: bool)
      requires p < task.Length
      ensures last <==> LastOf(View(), p)
    {
      for t := 0 to task.Length
        invariant forall u :: 0 <= u < t && u != p && task[u].group == task[p].group ==> task[u].phase == Gone
      {
        if t != p && task[t].group == task[p].group && task[t].phase != Gone {
          assert View().tasks[t] == task[t];
          return false;
        }
      }
      return true;
    }

    /** The exchange at the head of wait_task_zombie: true for the one waiter that got it. */
    method ClaimZombie(w: nat, p: nat) returns (mine: bool)
      requires w < task.Length && p < task.Length && w != p
      modifies task
      ensures mine <==> old(task[p]).phase == Zombie
      ensures View() == Claim(old(View()), w, p)
    {
      if task[p].phase != Zombie { return false; }
      var traced := task[p].traced;
      task[p] := task[p].(phase := Held);
      task[w] := task[w].(doing := Claimed(p, traced));
      return true;
    }

    method SettleAccounts(w: nat)
      requires w < task.Length && task[w].doing.Claimed? && task[w].doing.p < task.Length && task[w].doing.p != w
      requires Shape(View())
      modifies task, group
      ensures View() == Settle(old(View()), w)
    {
      var p, traced := task[w].doing.p, task[w].doing.traced;
      ghost var s := View();
      assert s.tasks[p] == task[p] && s.groups[task[p].group] == group[task[p].group];
      if !traced && !task[p].detached {
        var g := task[p].group;
        var h := group[g].parent;
        group[h] := group[h].(csum := Plus(group[h].csum, Plus(task[p].own, Plus(group[g].sum, group[g].csum))));
        group[g] := group[g].(paid := true);
        task[p] := task[p].(paid := true, credits := task[p].credits + 1);
      }
      task[w] := task[w].(doing := Settled(p, traced));
    }

    method FinishWait(w: nat, ignored: bool)
      requires w < task.Length && task[w].doing.Settled? && task[w].doing.p < task.Length && task[w].doing.p != w
      modifies task
      ensures View() == Finish(old(View()), w, ignored)
    {
      var p, traced := task[w].doing.p, task[w].doing.traced;
      if traced {
        task[p] := task[p].(traced := false);
        if !task[p].detached {
          task[p] := task[p].(detached := ignored);
          if !task[p].detached {
            task[p] := task[p].(phase := Zombie);
            task[w] := task[w].(doing := Idle);
            return;
          }
        }
      }
      task[w] := task[w].(doing := Releasing(p));
    }

    /** __exit_signal. */
    method ExitSignalOf(p: nat)
      requires Shape(View()) && p < task.Length
      modifies task, group
      ensures View() == ExitSignal(old(View()), p)
    {
      ghost var s := View();
      assert s.tasks[p] == task[p];
      var g := task[p].group;
      var last := IsLast(p);
      if last {
        group[g] := group[g].(freed := true);
      } else {
        group[g] := group[g].(sum := Plus(group[g].sum, task[p].own));
      }
      task[p] := task[p].(phase := Gone);
    }

    /** release_task with its jump back for the leader. */
    method ReleaseTaskOf(p: nat, ld: nat, ignored: bool)
      requires Shape(View()) && p < task.Length && ld < task.Length
      modifies task, group
      ensures View() == ReleaseTask(old(View()), p, ld, ignored)
    {
      ghost var s := View();
      ExitSignalOf(p);
      if ld == p || task[ld].phase != Zombie { return; }
      var empty := IsLast(ld);
      if !empty { return; }
      task[ld] := task[ld].(detached := task[ld].detached || ignored);
      if !task[ld].detached { return; }
      task[ld] := task[ld].(phase := Doomed);
      CalmShape(s, View());
      ExitSignalOf(ld);
    }
  }
}
