/**
 The hotplug bookkeeping of the coretemp driver: one device per CPU package, and in it
 one slot per core, owned by one of the core's online hyper-threads.
 */
module CoreTemp {
  import opened Wrappers

  const BASE_SYSFS_ATTR_NO := 2
  const NUM_REAL_CORES := 32
  const MAX_CORE_DATA := NUM_REAL_CORES + BASE_SYSFS_ATTR_NO

  /** struct temp_data: the CPU it was registered for, and whether it is package data. */
  datatype Temp = Temp(cpu: nat, isPkg: bool)

  /** Package and core id of every CPU, and whether it reports a package temperature. */
  datatype Machine = Machine(pkgOf: nat -> nat, coreOf: nat -> nat, pts: nat -> bool)

  /** core_data of a package device. */
  type Cores = seq<Option<Temp>>

  type Devices = map<nat, Cores>

  // ---- the operations on values ----

  function AttrNo(m: Machine, cpu: nat, pkg: bool): nat {
    if pkg then 1 else m.coreOf(cpu) + BASE_SYSFS_ATTR_NO
  }

  /** create_core_data without failures: an occupied slot keeps its owner. */
  function Created(m: Machine, cs: Cores, cpu: nat, pkg: bool): (r: Cores)
    requires |cs| == MAX_CORE_DATA
    ensures |r| == MAX_CORE_DATA
  {
    var i := AttrNo(m, cpu, pkg);
    if i > MAX_CORE_DATA - 1 || cs[i].Some? then cs else cs[i := Some(Temp(cpu, pkg))]
  }

  const BLANK: Cores := seq(MAX_CORE_DATA, i => None)

  /** The device of cpu's package, added with its package entry if it was missing. */
  function DeviceFor(m: Machine, ds: Devices, cpu: nat): (r: Cores)
    requires forall p :: p in ds ==> |ds[p]| == MAX_CORE_DATA
    ensures |r| == MAX_CORE_DATA
  {
    if m.pkgOf(cpu) in ds then ds[m.pkgOf(cpu)]
    else if m.pts(cpu) then Created(m, BLANK, cpu, true)
    else BLANK
  }

  function Online(m: Machine, ds: Devices, cpu: nat): (r: Devices)
    requires forall p :: p in ds ==> |ds[p]| == MAX_CORE_DATA
    ensures forall p :: p in r ==> |r[p]| == MAX_CORE_DATA
  {
    ds[m.pkgOf(cpu) := Created(m, DeviceFor(m, ds, cpu), cpu, false)]
  }

  /** Taking the core's slot from its owner cpu. */
  function Released(cs: Cores, i: nat, cpu: nat): (r: Cores)
    requires i < |cs|
    ensures |r| == |cs|
  {
    if cs[i].Some? && cs[i].value.cpu == cpu then cs[i := None] else cs
  }

  /** is_any_core_online. */
  predicate AnyCore(cs: Cores) {
    exists i :: 0 <= i < |cs| && cs[i].Some? && !cs[i].value.isPkg
  }

  predicate Siblings(m: Machine, a: nat, b: nat) {
    m.pkgOf(a) == m.pkgOf(b) && m.coreOf(a) == m.coreOf(b)
  }

  /** The first CPU below n, other than cpu, in the mask of cpu's online siblings. */
  function FirstSibling(m: Machine, online: set<nat>, cpu: nat, n: nat): (r: Option<nat>)
    ensures r.Some? ==> r.value in online && r.value != cpu && Siblings(m, r.value, cpu)
    ensures r.None? ==> forall c: nat :: c < n && c in online && Siblings(m, c, cpu) ==> c == cpu
  {
    if n == 0 then None
    else
      var r := FirstSibling(m, online, cpu, n - 1);
      if r.Some? then r
      else if n - 1 in online && n - 1 != cpu && Siblings(m, n - 1, cpu) then Some(n - 1)
      else None
  }

  /** put_core_offline, where sib is the sibling the loop finds. */
  function Offline(m: Machine, ds: Devices, cpu: nat, sib: Option<nat>): (r: Devices)
    requires forall p :: p in ds ==> |ds[p]| == MAX_CORE_DATA
    ensures forall p :: p in r ==> |r[p]| == MAX_CORE_DATA
  {
    var p, i := m.pkgOf(cpu), AttrNo(m, cpu, false);
    if p !in ds || i > MAX_CORE_DATA - 1 then ds
    else
      var d1 := ds[p := Released(ds[p], i, cpu)];
      var d2 := if sib.Some? then Online(m, d1, sib.value) else d1;
      if AnyCore(d2[p]) then d2 else d2 - {p}
  }

  // ---- the invariant ----

  /** Slot i of package p holds o: occupied exactly while a CPU of that core is online, and
      then owned by one. */
  ghost predicate SlotOk(m: Machine, online: set<nat>, p: nat, i: nat, o: Option<Temp>) {
    && (o.Some? <==> exists c :: c in online && m.pkgOf(c) == p && AttrNo(m, c, false) == i)
    && (o.Some? ==> !o.value.isPkg && o.value.cpu in online && m.pkgOf(o.value.cpu) == p && AttrNo(m, o.value.cpu, false) == i)
  }

  ghost predicate DeviceOk(m: Machine, online: set<nat>, p: nat, cs: Cores) {
    && |cs| == MAX_CORE_DATA && cs[0] == None && (cs[1].Some? ==> cs[1].value.isPkg)
    && forall i: nat :: BASE_SYSFS_ATTR_NO <= i < |cs| ==> SlotOk(m, online, p, i, cs[i])
  }

  /** The device of package p exists exactly while a CPU of the package is online. */
  ghost predicate PackageOk(m: Machine, online: set<nat>, ds: Devices, p: nat) {
    && (p in ds <==> exists c :: c in online && m.pkgOf(c) == p)
    && (p in ds ==> DeviceOk(m, online, p, ds[p]))
  }

  ghost predicate HotplugOk(m: Machine, online: set<nat>, ds: Devices) {
    forall p: nat :: PackageOk(m, online, ds, p)
  }

  ghost predicate SmallCores(m: Machine) {
    forall c: nat :: m.coreOf(c) < NUM_REAL_CORES
  }

  lemma Sizes(m: Machine, online: set<nat>, ds: Devices)
    requires HotplugOk(m, online, ds)
    ensures forall p :: p in ds ==> |ds[p]| == MAX_CORE_DATA
  {
    forall p | p in ds ensures |ds[p]| == MAX_CORE_DATA {
      assert PackageOk(m, online, ds, p);
    }
  }

  lemma PackageElsewhere(m: Machine, online: set<nat>, other: set<nat>, ds: Devices, r: Devices, p: nat, cpu: nat)
    requires PackageOk(m, online, ds, p) && p != m.pkgOf(cpu)
    requires other == online + {cpu} || other == online - {cpu}
    requires p in r <==> p in ds
    requires p in ds ==> r[p] == ds[p]
    ensures PackageOk(m, other, r, p)
  {
  }

  // ---- a CPU comes online ----

  /** The device get_core_online works on is sound, also when it was just added. */
  lemma DeviceForOk(m: Machine, online: set<nat>, ds: Devices, cpu: nat)
    requires HotplugOk(m, online, ds)
    ensures forall p :: p in ds ==> |ds[p]| == MAX_CORE_DATA
    ensures DeviceOk(m, online, m.pkgOf(cpu), DeviceFor(m, ds, cpu))
  {
    Sizes(m, online, ds);
    var p, cs := m.pkgOf(cpu), DeviceFor(m, ds, cpu);
    assert PackageOk(m, online, ds, p);
    if p !in ds {
      forall i: nat | BASE_SYSFS_ATTR_NO <= i < |cs| ensures SlotOk(m, online, p, i, cs[i]) {
        assert cs[i] == None;
      }
    }
  }

  lemma CreatedOk(m: Machine, online: set<nat>, cs: Cores, cpu: nat)
    requires DeviceOk(m, online, m.pkgOf(cpu), cs) && m.coreOf(cpu) < NUM_REAL_CORES
    ensures DeviceOk(m, online + {cpu}, m.pkgOf(cpu), Created(m, cs, cpu, false))
  {
  }

  lemma OnlineOk(m: Machine, online: set<nat>, ds: Devices, cpu: nat)
    requires HotplugOk(m, online, ds) && m.coreOf(cpu) < NUM_REAL_CORES
    ensures forall p :: p in ds ==> |ds[p]| == MAX_CORE_DATA
    ensures HotplugOk(m, online + {cpu}, Online(m, ds, cpu))
  {
    DeviceForOk(m, online, ds, cpu);
    CreatedOk(m, online, DeviceFor(m, ds, cpu), cpu);
    var up, r := online + {cpu}, Online(m, ds, cpu);
    forall p: nat ensures PackageOk(m, up, r, p) {
      assert PackageOk(m, online, ds, p);
      if p != m.pkgOf(cpu) {
        PackageElsewhere(m, online, up, ds, r, p, cpu);
      } else {
        assert cpu in up;
      }
    }
  }

  // ---- a CPU goes offline ----

  /** The slot of cpu's core once cpu gave it up and the sibling found took it over. */
  lemma SlotHandedOver(m: Machine, online: set<nat>, cs: Cores, cpu: nat, sib: Option<nat>, r: Cores)
    requires DeviceOk(m, online, m.pkgOf(cpu), cs) && m.coreOf(cpu) < NUM_REAL_CORES && cpu in online
    requires sib.Some? ==> sib.value in online && sib.value != cpu && Siblings(m, sib.value, cpu)
    requires sib.None? ==> forall c: nat :: c in online && Siblings(m, c, cpu) ==> c == cpu
    requires
      var h := Released(cs, AttrNo(m, cpu, false), cpu);
      r == if sib.Some? then Created(m, h, sib.value, false) else h
    ensures DeviceOk(m, online - {cpu}, m.pkgOf(cpu), r)
  {
  }

  /** A sound device has an occupied core slot exactly while a CPU of its package is online. */
  lemma AnyCoreIff(m: Machine, online: set<nat>, p: nat, cs: Cores)
    requires SmallCores(m) && DeviceOk(m, online, p, cs)
    ensures AnyCore(cs) <==> exists c :: c in online && m.pkgOf(c) == p
  {
    if AnyCore(cs) {
      var i :| 0 <= i < |cs| && cs[i].Some? && !cs[i].value.isPkg;
      assert SlotOk(m, online, p, i, cs[i]);
    }
    if exists c :: c in online && m.pkgOf(c) == p {
      var c :| c in online && m.pkgOf(c) == p;
      var i := AttrNo(m, c, false);
      assert SlotOk(m, online, p, i, cs[i]);
    }
  }

  lemma OfflineOk(m: Machine, online: set<nat>, ds: Devices, cpu: nat, sib: Option<nat>)
    requires SmallCores(m) && HotplugOk(m, online, ds) && cpu in online
    requires sib.Some? ==> sib.value in online && sib.value != cpu && Siblings(m, sib.value, cpu)
    requires sib.None? ==> forall c: nat :: c in online && Siblings(m, c, cpu) ==> c == cpu
    ensures forall p :: p in ds ==> |ds[p]| == MAX_CORE_DATA
    ensures HotplugOk(m, online - {cpu}, Offline(m, ds, cpu, sib))
  {
    Sizes(m, online, ds);
    var q, down, r := m.pkgOf(cpu), online - {cpu}, Offline(m, ds, cpu, sib);
    assert PackageOk(m, online, ds, q);
    var h := Released(ds[q], AttrNo(m, cpu, false), cpu);
    var cs := if sib.Some? then Created(m, h, sib.value, false) else h;
    SlotHandedOver(m, online, ds[q], cpu, sib, cs);
    AnyCoreIff(m, down, q, cs);
    forall p: nat ensures PackageOk(m, down, r, p) {
      assert PackageOk(m, online, ds, p);
      if p != q {
        PackageElsewhere(m, online, down, ds, r, p, cpu);
      }
    }
  }

  // ---- every sequence of hotplug events ----

  datatype Event = EvOnline(cpu: nat) | EvOffline(cpu: nat) | EvDownFailed(cpu: nat)

  datatype State = State(online: set<nat>, ds: Devices)

  /** A CPU is plugged, unplugged, or stays because unplugging it failed after the driver had
      already let go of it. All CPUs are below n. */
  ghost predicate Next(m: Machine, n: nat, s: State, e: Event, t: State) {
    && e.cpu < n
    && (forall p :: p in s.ds ==> |s.ds[p]| == MAX_CORE_DATA)
    && match e
       case EvOnline(c) => c !in s.online && t == State(s.online + {c}, Online(m, s.ds, c))
       case EvOffline(c) =>
         c in s.online && t == State(s.online - {c}, Offline(m, s.ds, c, FirstSibling(m, s.online, c, n)))
       case EvDownFailed(c) =>
         c in s.online && t == State(s.online, Online(m, Offline(m, s.ds, c, FirstSibling(m, s.online, c, n)), c))
  }

  ghost predicate StateOk(m: Machine, n: nat, s: State) {
    HotplugOk(m, s.online, s.ds) && forall c :: c in s.online ==> c < n
  }

  lemma NextOk(m: Machine, n: nat, s: State, e: Event, t: State)
    requires SmallCores(m) && StateOk(m, n, s) && Next(m, n, s, e, t)
    ensures StateOk(m, n, t)
  {
    var c := e.cpu;
    if e.EvOnline? {
      OnlineOk(m, s.online, s.ds, c);
    } else {
      var sib := FirstSibling(m, s.online, c, n);
      OfflineOk(m, s.online, s.ds, c, sib);
      if e.EvDownFailed? {
        var d := Offline(m, s.ds, c, sib);
        OnlineOk(m, s.online - {c}, d, c);
        assert s.online - {c} + {c} == s.online;
      }
    }
  }

  ghost predicate IsRun(m: Machine, n: nat, ss: seq<State>, es: seq<Event>) {
    |ss| == |es| + 1 && forall i :: 0 <= i < |es| ==> Next(m, n, ss[i], es[i], ss[i + 1])
  }

  /** After every sequence of events a core's slot is occupied exactly while one of its CPUs
      is online, its owner is one of them, and a package has a device exactly while one of
      its CPUs is online. */
  lemma {:induction false} EveryRunHotplugOk(m: Machine, n: nat, ss: seq<State>, es: seq<Event>, i: nat)
    requires SmallCores(m) && IsRun(m, n, ss, es) && ss[0] == State({}, map[]) && i < |ss|
    ensures StateOk(m, n, ss[i]) && HotplugOk(m, ss[i].online, ss[i].ds)
  {
    if i == 0 {
      forall p: nat ensures PackageOk(m, {}, map[], p) {
      }
    } else {
      EveryRunHotplugOk(m, n, ss, es, i - 1);
      NextOk(m, n, ss[i - 1], es[i - 1], ss[i]);
    }
  }

  /** Without the bound on core ids: the only CPU of a package comes and goes, and the device
      of the package stays behind exactly if its core id is too big for a slot. */
  lemma DeviceLeftIff(m: Machine, online: set<nat>, ds: Devices, cpu: nat)
    requires HotplugOk(m, online, ds) && m.pkgOf(cpu) !in ds
    ensures forall p :: p in ds ==> |ds[p]| == MAX_CORE_DATA
    ensures m.pkgOf(cpu) in Offline(m, Online(m, ds, cpu), cpu, None) <==> m.coreOf(cpu) >= NUM_REAL_CORES
  {
    Sizes(m, online, ds);
    var p, i := m.pkgOf(cpu), AttrNo(m, cpu, false);
    var d := Online(m, ds, cpu);
    if i < MAX_CORE_DATA {
      var cs := Released(d[p], i, cpu);
      assert d[p][i] == Some(Temp(cpu, false));
      forall j | 0 <= j < |cs| && cs[j].Some? ensures cs[j].value.isPkg {
        assert j == 1;
      }
    }
  }

  // ---- the driver ----

  class Driver {
    const m: Machine
    /** The number of CPU numbers, and the mask of CPUs online. */
    const n: nat
    var online: set<nat>
    /** pdev_list with the data of each device. */
    var ds: Devices

    ghost predicate Sized()
      reads this
    {
      (forall p :: p in ds ==> |ds[p]| == MAX_CORE_DATA) && forall c :: c in online ==> c < n
    }

    constructor (m: Machine, n: nat)
      ensures Sized() && online == {} && ds == map[] && HotplugOk(m, online, ds) && this.m == m && this.n == n
    {
      this.m, this.n, online, ds := m, n, {}, map[];
      new;
      forall p: nat ensures PackageOk(m, online, ds, p) {
      }
    }

    /** create_core_data; reg says whether the status register can be read. */
    method CreateCoreData(p: nat, cpu: nat, pkg: bool, reg: bool) returns (ok: bool)
      requires Sized() && p in ds
      modifies this`ds
      ensures Sized() && online == old(online)
      ensures reg ==> ds == old(ds)[p := Created(m, old(ds)[p], cpu, pkg)]
      ensures !reg ==> ds == old(ds)
      ensures ok <==> AttrNo(m, cpu, pkg) < MAX_CORE_DATA && (reg || old(ds)[p][AttrNo(m, cpu, pkg)].Some?)
    {
      var i := AttrNo(m, cpu, pkg);
      if i > MAX_CORE_DATA - 1 {
        assert ds == ds[p := ds[p]];
        return false;
      }
      if ds[p][i].Some? {
        assert ds == ds[p := ds[p]];
        return true;
      }
      if !reg { return false; }
      ds := ds[p := ds[p][i := Some(Temp(cpu, pkg))]];
      return true;
    }

    /** get_core_online of a CPU with sensors, when nothing fails. */
    method GetCoreOnline(cpu: nat)
      requires Sized()
      modifies this`ds
      ensures Sized() && online == old(online) && ds == Online(m, old(ds), cpu)
    {
      var p := m.pkgOf(cpu);
      if p !in ds {
        ds := ds[p := BLANK];
        if m.pts(cpu) {
          var _ := CreateCoreData(p, cpu, true, true);
        }
      }
      var _ := CreateCoreData(p, cpu, false, true);
      assert ds == Online(m, old(ds), cpu);
    }

    /** is_any_core_online: the search from the last slot down. */
    method IsAnyCoreOnline(cs: Cores) returns (found: bool)
      ensures found <==> AnyCore(cs)
    {
      var i := |cs|;
      while i > 0
        invariant 0 <= i <= |cs|
        invariant forall j :: i <= j < |cs| ==> !(cs[j].Some? && !cs[j].value.isPkg)
      {
        i := i - 1;
        if cs[i].Some? && !cs[i].value.isPkg { return true; }
      }
      return false;
    }

    /** The loop over the sibling mask, which stops at the first other sibling. */
    method FindSibling(cpu: nat) returns (r: Option<nat>)
      ensures r == FirstSibling(m, online, cpu, n)
    {
      for i := 0 to n
        invariant FirstSibling(m, online, cpu, i) == None
      {
        if i in online && Siblings(m, i, cpu) && i != cpu {
          FirstSiblingStays(m, online, cpu, i + 1, n);
          return Some(i);
        }
      }
      return None;
    }

    /** put_core_offline, called before the CPU leaves the mask. */
    method PutCoreOffline(cpu: nat)
      requires Sized()
      modifies this`ds
      ensures Sized() && online == old(online)
      ensures ds == Offline(m, old(ds), cpu, FirstSibling(m, online, cpu, n))
    {
      var p, i := m.pkgOf(cpu), AttrNo(m, cpu, false);
      if p !in ds { return; }
      if i > MAX_CORE_DATA - 1 { return; }
      if ds[p][i].Some? && ds[p][i].value.cpu == cpu {
        ds := ds[p := ds[p][i := None]];
      }
      assert ds == old(ds)[p := Released(old(ds)[p], i, cpu)];
      var sib := FindSibling(cpu);
      if sib.Some? {
        GetCoreOnline(sib.value);
      }
      var any := IsAnyCoreOnline(ds[p]);
      if !any {
        ds := ds - {p};
      }
    }

    /** The notifier on CPU_ONLINE, CPU_DOWN_PREPARE and CPU_DOWN_FAILED. */
    method Notify(e: Event)
      requires Sized() && SmallCores(m) && HotplugOk(m, online, ds) && e.cpu < n
      requires e.EvOnline? <==> e.cpu !in online
      modifies this
      ensures Sized() && HotplugOk(m, online, ds)
      ensures Next(m, n, old(State(online, ds)), e, State(online, ds))
    {
      ghost var s := State(online, ds);
      match e {
        case EvOnline(cpu) =>
          online := online + {cpu};
          GetCoreOnline(cpu);
        case EvOffline(cpu) =>
          PutCoreOffline(cpu);
          online := online - {cpu};
        case EvDownFailed(cpu) =>
          PutCoreOffline(cpu);
          GetCoreOnline(cpu);
      }
      NextOk(m, n, s, e, State(online, ds));
    }
  }

  lemma {:induction false} FirstSiblingStays(m: Machine, online: set<nat>, cpu: nat, i: nat, n: nat)
    requires i <= n && FirstSibling(m, online, cpu, i).Some?
    ensures FirstSibling(m, online, cpu, n) == FirstSibling(m, online, cpu, i)
  {
    if i < n {
      FirstSiblingStays(m, online, cpu, i, n - 1);
    }
  }
}
