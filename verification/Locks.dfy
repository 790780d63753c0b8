/**
 The process-lock macros: any number of threads running them cannot deadlock.
 A lock is named by the process number p_nr of its descriptor.
 */
module Locks {

  type Lock = int

  datatype Act = Acq(l: Lock) | Rel(l: Lock)

  // ---- the macros as the lock operations they expand to ----

  /** WLOCK_PROC2 */
  function Lock2(p: Lock, q: Lock): seq<Act> {
    if p < q then [Acq(p), Acq(q)] else [Acq(q), Acq(p)]
  }

  /** WLOCK_PROC3 */
  function Lock3(p: Lock, q: Lock, r: Lock): seq<Act> {
    if p < q then
      if r < q then Lock2(p, r) + [Acq(q)] else Lock2(p, q) + [Acq(r)]
    else
      if r < p then Lock2(q, r) + [Acq(p)] else Lock2(q, p) + [Acq(r)]
  }

  /** WLOCK_ORDERED2: p is held; it is given up and taken again when q comes first. */
  function Ordered2(p: Lock, q: Lock): seq<Act> {
    if p < q then [Acq(q)] else [Rel(p), Acq(q), Acq(p)]
  }

  /** LOCK_ALL_PROCS over the process numbers from lo up to hi. */
  function LockAll(lo: Lock, hi: Lock): seq<Act>
    decreases hi - lo
  {
    if lo >= hi then [] else [Acq(lo)] + LockAll(lo + 1, hi)
  }

  function UnlockAll(lo: Lock, hi: Lock): seq<Act>
    decreases hi - lo
  {
    if lo >= hi then [] else [Rel(lo)] + UnlockAll(lo + 1, hi)
  }

  /** What a thread does with locks; the code runs each macro while it holds the locks
      that Allowed asks for. */
  datatype Op =
    | One(p: Lock)
    | Two(p: Lock, q: Lock)
    | Three(p: Lock, q: Lock, r: Lock)
    | Again(p: Lock, q: Lock)
    | Unlock(p: Lock)
    | AllOf(lo: Lock, hi: Lock)
    | NoneOf(lo: Lock, hi: Lock)

  function Expand(op: Op): seq<Act> {
    match op
    case One(p) => [Acq(p)]
    case Two(p, q) => Lock2(p, q)
    case Three(p, q, r) => Lock3(p, q, r)
    case Again(p, q) => Ordered2(p, q)
    case Unlock(p) => [Rel(p)]
    case AllOf(lo, hi) => LockAll(lo, hi)
    case NoneOf(lo, hi) => UnlockAll(lo, hi)
  }

  /** The process numbers from lo up to hi. */
  ghost function Range(lo: Lock, hi: Lock): (r: set<Lock>)
    ensures forall l :: l in r <==> lo <= l < hi
    decreases hi - lo
  {
    if lo >= hi then {} else {lo} + Range(lo + 1, hi)
  }

  ghost predicate Allowed(op: Op, held: set<Lock>) {
    match op
    case One(p) => held == {}
    case Two(p, q) => held == {} && p != q
    case Three(p, q, r) => held == {} && p != q && q != r && p != r
    case Again(p, q) => held == {p} && p != q
    case Unlock(p) => p in held
    case AllOf(lo, hi) => held == {} && lo <= hi
    case NoneOf(lo, hi) => held == Range(lo, hi) && lo <= hi
  }

  ghost function HeldAfter(op: Op, held: set<Lock>): set<Lock> {
    match op
    case One(p) => {p}
    case Two(p, q) => {p, q}
    case Three(p, q, r) => {p, q, r}
    case Again(p, q) => {p, q}
    case Unlock(p) => held - {p}
    case AllOf(lo, hi) => Range(lo, hi)
    case NoneOf(lo, hi) => {}
  }

  ghost predicate Disciplined(ops: seq<Op>, held: set<Lock>)
    decreases |ops|
  {
    if ops == [] then held == {}
    else Allowed(ops[0], held) && Disciplined(ops[1..], HeldAfter(ops[0], held))
  }

  function ExpandAll(ops: seq<Op>): seq<Act> {
    if ops == [] then [] else Expand(ops[0]) + ExpandAll(ops[1..])
  }

  // ---- ordered acquisition ----

  /** Run acts from held: every lock taken is above all held ones, every lock released is
      held; the result is the set held afterwards, or nothing if the order is broken. */
  datatype Outcome = Broken | Holds(locks: set<Lock>)

  ghost function Take(held: set<Lock>, a: Act): Outcome {
    match a
    case Acq(l) => if forall h :: h in held ==> h < l then Holds(held + {l}) else Broken
    case Rel(l) => if l in held then Holds(held - {l}) else Broken
  }

  ghost function After(held: set<Lock>, acts: seq<Act>): Outcome
    decreases |acts|
  {
    if acts == [] then Holds(held)
    else
      match Take(held, acts[0])
      case Broken => Broken
      case Holds(h) => After(h, acts[1..])
  }

  lemma {:induction false} AfterConcat(held: set<Lock>, a: seq<Act>, b: seq<Act>)
    ensures After(held, a + b) ==
              match After(held, a)
              case Broken => Broken
              case Holds(h) => After(h, b)
    decreases |a|
  {
    if a == [] {
      assert a + b == b;
    } else {
      assert (a + b)[1..] == a[1..] + b;
      match Take(held, a[0])
      case Broken =>
      case Holds(h) => AfterConcat(h, a[1..], b);
    }
  }

  lemma After2(held: set<Lock>, a: Act, b: Act)
    ensures After(held, [a, b]) ==
              match Take(held, a)
              case Broken => Broken
              case Holds(h) => Take(h, b)
  {
    assert [a, b] == [a] + [b];
    AfterConcat(held, [a], [b]);
  }

  /** WLOCK_PROC2 takes its two locks in order exactly when they are distinct. */
  lemma Lock2Ordered(p: Lock, q: Lock)
    ensures After({}, Lock2(p, q)) == if p != q then Holds({p, q}) else Broken
  {
    if p < q { After2({}, Acq(p), Acq(q)); } else { After2({}, Acq(q), Acq(p)); }
    assert {} + {p} + {q} == {p, q} && {} + {q} + {p} == {p, q};
  }

  lemma Lock3Order(a: Lock, b: Lock, c: Lock)
    ensures After({}, Lock2(a, b) + [Acq(c)]) ==
              if a != b && a < c && b < c then Holds({a, b, c}) else Broken
  {
    Lock2Ordered(a, b);
    AfterConcat({}, Lock2(a, b), [Acq(c)]);
    assert {a, b} + {c} == {a, b, c};
  }

  /** WLOCK_PROC3 takes its three locks in order exactly when they are distinct. */
  lemma Lock3Ordered(p: Lock, q: Lock, r: Lock)
    ensures After({}, Lock3(p, q, r)) ==
              if p != q && q != r && p != r then Holds({p, q, r}) else Broken
  {
    if p < q {
      if r < q { Lock3Order(p, r, q); assert {p, r, q} == {p, q, r}; } else { Lock3Order(p, q, r); }
    } else {
      if r < p { Lock3Order(q, r, p); assert {q, r, p} == {p, q, r}; }
      else { Lock3Order(q, p, r); assert {q, p, r} == {p, q, r}; }
    }
  }

  /** WLOCK_ORDERED2 keeps the order and ends with both locks exactly when they are distinct. */
  lemma Ordered2Ordered(p: Lock, q: Lock)
    ensures After({p}, Ordered2(p, q)) == if p != q then Holds({p, q}) else Broken
  {
    if p < q {
      assert {p} + {q} == {p, q};
    } else {
      assert [Rel(p), Acq(q), Acq(p)] == [Rel(p)] + [Acq(q), Acq(p)];
      AfterConcat({p}, [Rel(p)], [Acq(q), Acq(p)]);
      assert {p} - {p} == {};
      After2({}, Acq(q), Acq(p));
      assert {} + {q} + {p} == {p, q};
    }
  }

  lemma {:induction false} LockAllOrdered(lo: Lock, mid: Lock, hi: Lock)
    requires lo <= mid <= hi
    ensures After(Range(lo, mid), LockAll(mid, hi)) == Holds(Range(lo, hi))
    decreases hi - mid
  {
    if mid < hi {
      assert Range(lo, mid) + {mid} == Range(lo, mid + 1);
      assert LockAll(mid, hi)[1..] == LockAll(mid + 1, hi);
      LockAllOrdered(lo, mid + 1, hi);
    }
  }

  lemma {:induction false} UnlockAllOrdered(lo: Lock, hi: Lock)
    requires lo <= hi
    ensures After(Range(lo, hi), UnlockAll(lo, hi)) == Holds({})
    decreases hi - lo
  {
    if lo < hi {
      assert Range(lo, hi) - {lo} == Range(lo + 1, hi);
      assert UnlockAll(lo, hi)[1..] == UnlockAll(lo + 1, hi);
      UnlockAllOrdered(lo + 1, hi);
    } else {
      assert Range(lo, hi) == {};
    }
  }

  lemma OpOrdered(op: Op, held: set<Lock>)
    requires Allowed(op, held)
    ensures After(held, Expand(op)) == Holds(HeldAfter(op, held))
  {
    match op
    case One(p) => assert {} + {p} == {p};
    case Two(p, q) => Lock2Ordered(p, q);
    case Three(p, q, r) => Lock3Ordered(p, q, r);
    case Again(p, q) => Ordered2Ordered(p, q);
    case Unlock(p) =>
    case AllOf(lo, hi) =>
      assert Range(lo, lo) == {};
      LockAllOrdered(lo, lo, hi);
    case NoneOf(lo, hi) => UnlockAllOrdered(lo, hi);
  }

  /** A disciplined thread takes locks in ascending order only and ends with none. */
  lemma {:induction false} DisciplineIsOrdered(ops: seq<Op>, held: set<Lock>)
    requires Disciplined(ops, held)
    ensures After(held, ExpandAll(ops)) == Holds({})
    decreases |ops|
  {
    if ops != [] {
      OpOrdered(ops[0], held);
      AfterConcat(held, Expand(ops[0]), ExpandAll(ops[1..]));
      DisciplineIsOrdered(ops[1..], HeldAfter(ops[0], held));
    }
  }

  // ---- any number of threads ----

  /** A thread: what it still has to do, and the locks it holds. */
  datatype Thread = Thread(todo: seq<Act>, held: set<Lock>)

  /** No lock has two owners, and every thread keeps the order to its end. */
  ghost predicate Safe(ts: seq<Thread>) {
    && (forall i, j :: 0 <= i < |ts| && 0 <= j < |ts| && i != j ==> ts[i].held !! ts[j].held)
    && (forall i :: 0 <= i < |ts| ==> After(ts[i].held, ts[i].todo) == Holds({}))
  }

  ghost predicate Waits(ts: seq<Thread>, i: nat, l: Lock) {
    i < |ts| && ts[i].todo != [] && ts[i].todo[0] == Acq(l)
    && exists j :: 0 <= j < |ts| && l in ts[j].held
  }

  ghost predicate CanStep(ts: seq<Thread>, i: nat) {
    && i < |ts| && ts[i].todo != []
    && (ts[i].todo[0].Acq? ==> forall j :: 0 <= j < |ts| ==> ts[i].todo[0].l !in ts[j].held)
  }

  ghost function StepThread(ts: seq<Thread>, i: nat): seq<Thread>
    requires CanStep(ts, i)
  {
    var t := ts[i];
    var held := match t.todo[0] case Acq(l) => t.held + {l} case Rel(l) => t.held - {l};
    ts[i := Thread(t.todo[1..], held)]
  }

  lemma StepSafe(ts: seq<Thread>, i: nat)
    requires Safe(ts) && CanStep(ts, i)
    ensures Safe(StepThread(ts, i))
  {
  }

  /** A waiting thread holds only lower-numbered locks. */
  lemma WaitsAbove(ts: seq<Thread>, i: nat, l: Lock)
    requires Safe(ts) && Waits(ts, i, l)
    ensures forall h :: h in ts[i].held ==> h < l
  {
  }

  ghost function Wanted(ts: seq<Thread>): set<Lock> {
    set i | 0 <= i < |ts| && ts[i].todo != [] && ts[i].todo[0].Acq? :: ts[i].todo[0].l
  }

  /** Following owners from a waiting thread reaches one that can step. */
  lemma {:induction false} FindRunnable(ts: seq<Thread>, i: nat) returns (k: nat)
    requires Safe(ts) && i < |ts| && ts[i].todo != []
    ensures CanStep(ts, k)
    decreases if ts[i].todo[0].Acq? then |set l | l in Wanted(ts) && l > ts[i].todo[0].l| + 1
              else 0
  {
    if CanStep(ts, i) {
      k := i;
    } else {
      var l := ts[i].todo[0].l;
      var j :| 0 <= j < |ts| && l in ts[j].held;
      assert ts[j].todo != [];
      if CanStep(ts, j) {
        k := j;
      } else {
        var m := ts[j].todo[0].l;
        assert m in Wanted(ts) && m > l;
        var above, below := set x | x in Wanted(ts) && x > m, set x | x in Wanted(ts) && x > l;
        assert m in below && m !in above && above <= below;
        SmallerCard(above, below);
        k := FindRunnable(ts, j);
      }
    }
  }

  lemma {:induction false} SmallerCard(a: set<Lock>, b: set<Lock>)
    requires a < b
    ensures |a| < |b|
  {
    assert |b| == |a| + |b - a| by { assert b == a + (b - a); }
    assert b - a != {};
  }

  /** Deadlock freedom: while a thread is unfinished, some thread can step. */
  lemma SomeThreadSteps(ts: seq<Thread>, i: nat)
    requires Safe(ts) && i < |ts| && ts[i].todo != []
    ensures exists k :: CanStep(ts, k)
  {
    var k := FindRunnable(ts, i);
  }

  // ---- no circular wait ----

  /** c[k] waits for a lock that c[k + 1] holds, all along the chain. */
  ghost predicate Chain(ts: seq<Thread>, c: seq<nat>) {
    && |c| > 0
    && (forall k :: 0 <= k < |c| ==> c[k] < |ts| && ts[c[k]].todo != [] && ts[c[k]].todo[0].Acq?)
    && (forall k :: 0 <= k < |c| - 1 ==> ts[c[k]].todo[0].l in ts[c[k + 1]].held)
  }

  lemma {:induction false} ChainAscends(ts: seq<Thread>, c: seq<nat>)
    requires Safe(ts) && Chain(ts, c) && |c| > 1
    ensures ts[c[0]].todo[0].l < ts[c[|c| - 1]].todo[0].l
    decreases |c|
  {
    var n := |c| - 1;
    assert ts[c[n - 1]].todo[0].l in ts[c[n - 1 + 1]].held;
    assert ts[c[n - 1]].todo[0].l < ts[c[n]].todo[0].l;
    if n > 1 {
      ChainAscends(ts, c[..n]);
    }
  }

  /** No reachable state has a circular wait of any length. */
  lemma NoCircularWait(ts: seq<Thread>, c: seq<nat>)
    requires Safe(ts) && Chain(ts, c) && |c| > 1
    ensures c[0] != c[|c| - 1]
  {
    ChainAscends(ts, c);
  }

  // ---- whole runs ----

  ghost function Started(progs: seq<seq<Op>>): seq<Thread> {
    seq(|progs|, i requires 0 <= i < |progs| => Thread(ExpandAll(progs[i]), {}))
  }

  /** ss is a run: each state is the previous one with one thread advanced. */
  ghost predicate IsRun(ss: seq<seq<Thread>>, who: seq<nat>) {
    && |ss| == |who| + 1
    && forall n :: 0 <= n < |who| ==> CanStep(ss[n], who[n]) && ss[n + 1] == StepThread(ss[n], who[n])
  }

  ghost function Work(ts: seq<Thread>): nat {
    if ts == [] then 0 else |ts[0].todo| + Work(ts[1..])
  }

  lemma {:induction false} WorkShrinks(ts: seq<Thread>, i: nat)
    requires CanStep(ts, i)
    ensures Work(StepThread(ts, i)) == Work(ts) - 1
  {
    if i > 0 {
      assert StepThread(ts, i)[1..] == StepThread(ts[1..], i - 1);
      WorkShrinks(ts[1..], i - 1);
    } else {
      assert StepThread(ts, 0)[1..] == ts[1..];
    }
  }

  lemma {:induction false} RunSafe(progs: seq<seq<Op>>, ss: seq<seq<Thread>>, who: seq<nat>, n: nat)
    requires forall i :: 0 <= i < |progs| ==> Disciplined(progs[i], {})
    requires IsRun(ss, who) && ss[0] == Started(progs) && n < |ss|
    ensures Safe(ss[n]) && Work(ss[n]) + n == Work(ss[0])
  {
    if n == 0 {
      forall i | 0 <= i < |progs| ensures After({}, ExpandAll(progs[i])) == Holds({}) {
        DisciplineIsOrdered(progs[i], {});
      }
    } else {
      RunSafe(progs, ss, who, n - 1);
      assert CanStep(ss[n - 1], who[n - 1]) && ss[n - 1 + 1] == StepThread(ss[n - 1], who[n - 1]);
      StepSafe(ss[n - 1], who[n - 1]);
      WorkShrinks(ss[n - 1], who[n - 1]);
    }
  }

  /** In every interleaving of any number of disciplined threads: every waiting thread
      holds only lower-numbered locks, and a state where no thread can step is one where
      every thread has finished. */
  lemma NeverDeadlocked(progs: seq<seq<Op>>, ss: seq<seq<Thread>>, who: seq<nat>, n: nat)
    requires forall i :: 0 <= i < |progs| ==> Disciplined(progs[i], {})
    requires IsRun(ss, who) && ss[0] == Started(progs) && n < |ss|
    ensures n <= Work(ss[0])
    ensures forall i: nat, l :: Waits(ss[n], i, l) ==> forall h :: h in ss[n][i].held ==> h < l
    ensures (forall k :: !CanStep(ss[n], k)) ==> forall i :: 0 <= i < |ss[n]| ==> ss[n][i].todo == []
  {
    RunSafe(progs, ss, who, n);
    forall i | 0 <= i < |ss[n]| && ss[n][i].todo != [] ensures exists k :: CanStep(ss[n], k) {
      SomeThreadSteps(ss[n], i);
    }
  }
}
