/**
 Layout of the process table: the slot size rounded up by doubling, slots addressed by
 shifting, process numbers inside endpoints, and the page order that holds a table.
 */
module Layout {
  import opened Descriptors

  function Pow2(k: nat): (r: nat)
    ensures r >= 1
  {
    if k == 0 then 1 else 2 * Pow2(k - 1)
  }

  lemma {:induction false} Pow2Add(a: nat, b: nat)
    ensures Pow2(a + b) == Pow2(a) * Pow2(b)
  {
    if b > 0 {
      Pow2Add(a, b - 1);
    }
  }

  lemma {:induction false} Pow2Grows(a: nat, b: nat)
    requires a < b
    ensures 2 * Pow2(a) <= Pow2(b)
  {
    if a < b - 1 {
      Pow2Grows(a, b - 1);
    }
  }

  lemma {:induction false} MulUp(a: int, b: int, p: int)
    requires a <= b && p >= 0
    ensures a * p <= b * p && (a < b ==> a * p + p <= b * p)
    decreases b - a
  {
    if a < b {
      MulUp(a + 1, b, p);
      assert (a + 1) * p == a * p + p;
    }
  }

  /** k is the least number of doublings that takes unit to at least need. */
  ghost predicate LeastDoubling(unit: nat, need: int, k: nat) {
    unit * Pow2(k) >= need && forall j: nat :: j < k ==> unit * Pow2(j) < need
  }

  lemma {:induction false} Beyond(unit: nat, k: nat)
    requires unit >= 1
    ensures unit * Pow2(k) > k
  {
    if k > 0 {
      Beyond(unit, k - 1);
      assert unit * Pow2(k) == 2 * (unit * Pow2(k - 1));
    }
  }

  /** The slot size computed by mm_dvs_init: the least doubling of the cache alignment that
      holds a descriptor. */
  method SlotSize(align: nat, size: nat) returns (slot: nat)
    requires align >= 1
    ensures exists k: nat :: LeastDoubling(align, size, k) && slot == align * Pow2(k)
  {
    slot := align;
    ghost var k := 0;
    while size > slot
      invariant slot == align * Pow2(k) && slot >= 1
      invariant forall j: nat :: j < k ==> align * Pow2(j) < size
      decreases size - slot
    {
      assert align * Pow2(k + 1) == 2 * slot;
      slot := slot * 2;
      k := k + 1;
    }
    assert LeastDoubling(align, size, k);
  }

  /** The loop of mm_dc_init: the least order whose 2^order pages hold the table. */
  method PageOrder(page: nat, tab: nat) returns (order: nat)
    requires page >= 1
    ensures LeastDoubling(page, tab, order)
  {
    order := 0;
    while page * Pow2(order) < tab
      invariant forall j: nat :: j < order ==> page * Pow2(j) < tab
      decreases tab - order
    {
      Beyond(page, order);
      order := order + 1;
    }
  }

  /** ilog2: the index of the highest bit. */
  function Ilog2(n: nat): (k: nat)
    requires n >= 1
    ensures Pow2(k) <= n < 2 * Pow2(k)
  {
    if n == 1 then 0 else 1 + Ilog2(n / 2)
  }

  ghost predicate IsPow2(n: nat) {
    exists k: nat :: n == Pow2(k)
  }

  lemma IlogExact(n: nat)
    requires n >= 1
    ensures Pow2(Ilog2(n)) == n <==> IsPow2(n)
  {
    if IsPow2(n) {
      var k: nat :| n == Pow2(k);
      var l := Ilog2(n);
      if l < k {
        Pow2Grows(l, k);
      } else if k < l {
        Pow2Grows(k, l);
      }
    }
  }

  lemma {:induction false} OddPart(align: nat, k: nat, m: nat)
    requires align >= 1 && align * Pow2(k) == Pow2(m)
    ensures k <= m && align == Pow2(m - k)
  {
    if m < k {
      MulUp(1, align, Pow2(k));
      Pow2Grows(m, k);
    } else {
      Pow2Add(m - k, k);
      Cancel(align, Pow2(m - k), Pow2(k));
    }
  }

  lemma Cancel(a: int, b: int, p: int)
    requires p >= 1 && a * p == b * p
    ensures a == b
  {
  }

  /** Shifting by ilog2 of the slot size is multiplying by the slot size, for every index,
      exactly if the cache alignment is a power of two. */
  lemma ShiftIsMultiplicationIff(align: nat, k: nat)
    requires align >= 1
    ensures align * Pow2(k) >= 1
    ensures (forall i: nat :: i * Pow2(Ilog2(align * Pow2(k))) == i * (align * Pow2(k))) <==> IsPow2(align)
  {
    var slot := align * Pow2(k);
    Beyond(align, k);
    IlogExact(slot);
    if IsPow2(align) {
      var m: nat :| align == Pow2(m);
      Pow2Add(m, k);
      assert slot == Pow2(m + k);
    }
    if forall i: nat :: i * Pow2(Ilog2(slot)) == i * slot {
      assert 1 * Pow2(Ilog2(slot)) == 1 * slot;
      var m: nat :| slot == Pow2(m);
      OddPart(align, k, m);
    }
  }

  /** DC_PROC: the first byte of slot i. */
  function SlotAddr(base: int, i: nat, log: nat): int {
    base + i * Pow2(log)
  }

  ghost predicate Apart(a: int, b: int, size: nat) {
    a + size <= b || b + size <= a
  }

  /** In a table of two slots or more, no two slots overlap exactly if a descriptor fits in
      the distance between slots. */
  lemma SlotsApartIff(base: int, total: nat, size: nat, log: nat)
    requires total >= 2 && size >= 1
    ensures (forall i: nat, j: nat :: i < j < total ==> Apart(SlotAddr(base, i, log), SlotAddr(base, j, log), size))
            <==> size <= Pow2(log)
  {
    if size <= Pow2(log) {
      forall i: nat, j: nat | i < j < total ensures Apart(SlotAddr(base, i, log), SlotAddr(base, j, log), size) {
        MulUp(i, j, Pow2(log));
      }
    } else {
      assert SlotAddr(base, 0, log) == base && SlotAddr(base, 1, log) == base + Pow2(log);
      assert !Apart(SlotAddr(base, 0, log), SlotAddr(base, 1, log), size);
    }
  }

  /** For a power-of-two alignment: every process number of the DC has a slot inside the
      table that mm_dc_init allocates, and different numbers have slots that do not overlap. */
  lemma TableLayout(base: int, align: nat, size: nat, k: nat, tasks: nat, procs: nat, a: int, b: int)
    requires align >= 1 && IsPow2(align) && size >= 1 && LeastDoubling(align, size, k)
    requires 0 <= a + tasks < tasks + procs && 0 <= b + tasks < tasks + procs && a != b
    ensures align * Pow2(k) >= 1
    ensures
      var slot := align * Pow2(k);
      var log := Ilog2(slot);
      var x, y := SlotAddr(base, a + tasks, log), SlotAddr(base, b + tasks, log);
      base <= x && x + size <= base + slot * (tasks + procs) && Apart(x, y, size)
  {
    var slot := align * Pow2(k);
    Beyond(align, k);
    var log := Ilog2(slot);
    StrideIsSlot(align, k);
    TableApart(base, tasks + procs, size, log, a + tasks, b + tasks);
    SlotInside(base, a + tasks, tasks + procs, slot, size);
  }

  lemma StrideIsSlot(align: nat, k: nat)
    requires align >= 1 && IsPow2(align)
    ensures align * Pow2(k) >= 1 && Pow2(Ilog2(align * Pow2(k))) == align * Pow2(k)
  {
    ShiftIsMultiplicationIff(align, k);
    var slot := align * Pow2(k);
    assert 1 * Pow2(Ilog2(slot)) == 1 * slot;
  }

  lemma TableApart(base: int, total: nat, size: nat, log: nat, i: nat, j: nat)
    requires i < total && j < total && i != j && 1 <= size <= Pow2(log)
    ensures Apart(SlotAddr(base, i, log), SlotAddr(base, j, log), size)
  {
    SlotsApartIff(base, total, size, log);
    if j < i {
      assert Apart(SlotAddr(base, j, log), SlotAddr(base, i, log), size);
    }
  }

  lemma SlotInside(base: int, i: nat, total: nat, slot: nat, size: nat)
    requires i < total && size <= slot
    ensures base <= base + i * slot && base + i * slot + size <= base + slot * total
  {
    MulUp(0, i, slot);
    MulUp(i, total, slot);
  }

  /** _ENDPOINT: generation g of process number nr. */
  function Endpoint(g: nat, nr: int): int {
    g * ENDPOINT_GENERATION_SIZE + nr
  }

  /** The number comes back out of an endpoint exactly in this range; below the first task it does
      so in generation 0 only, because the remainder of C has the sign of the dividend. */
  predicate NumberFits(g: nat, nr: int) {
    (if g == 0 then -NR_TASKS - ENDPOINT_GENERATION_SIZE < nr else -NR_TASKS <= nr)
    && nr < ENDPOINT_GENERATION_SIZE - NR_TASKS
  }

  /** For such a number the adding form of the slot index names the process's slot, and the
      subtracting form, used when a process is cut out of a queue, names it only in a DC without
      tasks. */
  lemma EndpointRoundTripIff(g: nat, nr: int, tasks: nat)
    ensures EndpointNr(Endpoint(g, nr)) == nr <==> NumberFits(g, nr)
    ensures NumberFits(g, nr) ==>
              SlotOf(tasks, Endpoint(g, nr)) == nr + tasks
              && (EndpointNr(Endpoint(g, nr)) - tasks == nr + tasks <==> tasks == 0)
  {
    var a, m := nr + NR_TASKS, ENDPOINT_GENERATION_SIZE;
    TruncRemFixed(g, a, m);
    assert Endpoint(g, nr) + NR_TASKS == g * m + a;
  }

  lemma TruncRemFixed(g: nat, a: int, m: nat)
    requires m >= 1
    ensures TruncRem(g * m + a, m) == a <==> a < m && if g == 0 then 0 < a + m else 0 <= a
  {
    var d := g * m + a;
    if d >= 0 {
      if 0 <= a < m {
        RemUnique(g, a, d / m, d % m, m);
      }
      if g == 0 {
        assert g * m == 0;
      }
    } else {
      if g > 0 {
        MulUp(0, g, m);
      } else if 0 < a + m {
        RemUnique(0, -a, (-d) / m, (-d) % m, m);
      }
    }
  }

  lemma RemUnique(q: int, r: int, q': int, r': int, m: nat)
    requires 0 <= r < m && 0 <= r' < m && q * m + r == q' * m + r'
    ensures r == r'
  {
    if q < q' {
      MulUp(q, q', m);
    } else {
      MulUp(q', q, m);
    }
  }
}
