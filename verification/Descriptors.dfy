/**
 The process descriptor of the M3-IPC kernel module and the pieces every other
 module shares: run-time flags as sets of bits, queues as sequences of slot
 numbers, the remote command carried by a descriptor, and the wake-up macro.
 */
module Descriptors {

  /** The bits of p_rts_flags the module tests; PROC_RUNNING is the empty set. */
  datatype RtsFlag =
    | SlotFree | Sending | Receiving | Signaled | NoEndpoint | OnCopy
    | Migrate | Remote | RmtOper | WaitMigr | WaitUnbind

  /** The bits of p_misc_flags the module tests. */
  datatype MiscFlag = ProxyProc | NeedMigr | RmtBackup | GrpLeader | Replicated

  /** Index of a descriptor in the process table of a DC. */
  type Slot = nat

  const NONE := 0x6ace
  const ANY := 0x7ace
  const SELF := 0x8ace

  const OK := 0
  const EMOLAGAIN := -11
  const EMOLBUSY := -16
  const EMOLNOTCONN := -64
  const EMOLSHUTDOWN := -65
  const EMOLSRCDIED := -108
  const EMOLDSTDIED := -109
  const EMOLBADNODEID := -301
  const EMOLBADDCID := -302
  const EMOLDCNOTRUN := -303
  const EMOLBADPROC := -304
  const EMOLBADPID := -305
  const EMOLENDPOINT := -306
  const EMOLNOPROXY := -307
  const EMOLRMTPROC := -308
  const EMOLLCLPROC := -309
  const EMOLNOTBIND := -310
  const EMOLACKDST := -312
  const EMOLACKSRC := -313
  const EMOLNODCNODE := -319
  const EMOLPROCRUN := -320
  const EMOLPROCSTS := -324
  const EMOLDCNODE := -326
  const EMOLONCOPY := -328
  const EMOLMIGRATE := -332
  const EMOLGRPLEADER := -334
  const EMOLSLOTUSED := -337

  const CMD_NONE := 0
  const CMD_SEND_MSG := 1
  const CMD_NTFY_MSG := 2
  const CMD_SNDREC_MSG := 3
  /** The value of the acknowledge bit, 1 << BIT_ACKNOWLEDGE. */
  const CMD_ACKNOWLEDGE := 8192
  const CMD_SEND_ACK := CMD_SEND_MSG + CMD_ACKNOWLEDGE
  const CMD_SNDREC_ACK := CMD_SNDREC_MSG + CMD_ACKNOWLEDGE

  predicate HasAck(c: nat) {
    (c / CMD_ACKNOWLEDGE) % 2 == 1
  }

  /** c | (1 << BIT_ACKNOWLEDGE) */
  function WithAck(c: nat): (r: nat)
    ensures HasAck(r)
    ensures !HasAck(c) ==> r == c + CMD_ACKNOWLEDGE
  {
    if HasAck(c) then c else c + CMD_ACKNOWLEDGE
  }

  /** The proxy header fields of p_rmtcmd. */
  datatype Cmd = Cmd(cmd: nat, dcid: int, src: int, dst: int, snode: int, dnode: int, rcode: int)

  datatype Proc = Proc(
    endpoint: int, dcid: int, nodeid: int,
    rts: set<RtsFlag>, misc: set<MiscFlag>,
    getfrom: int, sendto: int, waitmigr: int, waitunbind: int, proxy: int,
    sid: nat, notify: set<nat>,
    rcode: int, sem: int, cmd: Cmd,
    plist: seq<Slot>, mlist: seq<Slot>, ulist: seq<Slot>)
  {
    predicate Free() { SlotFree in rts }
    predicate IsRemote() { Remote in rts }
    predicate IsLocal() { Remote !in rts }
  }

  /** init_proc_desc: everything but the endpoint is reset and the slot is free. */
  function InitProc(x: Proc, dcid: int): Proc {
    Proc(x.endpoint, dcid, -1, {SlotFree}, {}, NONE, NONE, NONE, NONE, NONE, 0, {}, OK, 0,
         Cmd(CMD_NONE, dcid, NONE, NONE, -1, -1, OK), [], [], [])
  }

  /** LOCAL_PROC_UP: leave a return code and post the pseudo semaphore. */
  function Up(x: Proc, rcode: int): Proc {
    x.(rcode := rcode, sem := x.sem + 1)
  }

  /** The descriptors of a DC, the queues of its sender proxies and the DC parameters.
      outq holds every descriptor waiting for a sender proxy in arrival order; the
      pair it waits for is the one its proxy field names. */
  datatype Table = Table(
    procs: seq<Proc>, outq: seq<Slot>, net: Net,
    dcid: int, nrTasks: nat, nrSys: nat, nodes: set<int>)

  /** The local node and, for each node whose sender proxy is bound, its proxy pair. */
  datatype Net = Net(local: int, route: map<int, int>)

  const NR_TASKS := 35
  const ENDPOINT_GENERATION_SIZE := NR_TASKS + SELF + 1

  /** The remainder of C, which has the sign of the dividend. */
  function TruncRem(a: int, m: nat): int
    requires m >= 1
  {
    if a >= 0 then a % m else -((-a) % m)
  }

  /** _ENDPOINT_P: the process number inside an endpoint. */
  function EndpointNr(e: int): int {
    TruncRem(e + NR_TASKS, ENDPOINT_GENERATION_SIZE) - NR_TASKS
  }

  /** ENDPOINT2PTR: the slot an endpoint names. */
  function SlotOf(nrTasks: nat, e: int): int {
    EndpointNr(e) + nrTasks
  }

  predicate NoDup(s: seq<Slot>) {
    forall i, j :: 0 <= i < j < |s| ==> s[i] != s[j]
  }

  /** The sequence without any occurrence of x, order kept: LIST_DEL of x. */
  function Without(s: seq<Slot>, x: Slot): (r: seq<Slot>)
    ensures x !in r
    ensures forall y: Slot :: y in r <==> y in s && y != x
    ensures NoDup(s) ==> NoDup(r)
    ensures x !in s ==> r == s
  {
    if s == [] then []
    else
      var n := |s| - 1;
      assert s == s[..n] + [s[n]];
      NoDupAppend(s[..n], s[n]);
      var rest := Without(s[..n], x);
      NoDupAppend(rest, s[n]);
      if s[n] == x then rest else rest + [s[n]]
  }

  lemma NoDupPrefix(s: seq<Slot>, k: nat)
    requires NoDup(s) && k < |s|
    ensures NoDup(s[..k]) && s[k] !in s[..k] && s[..k + 1] == s[..k] + [s[k]]
  {
  }

  // ---- applying a change to the listed elements of a sequence ----

  /** s with f applied to every element whose index is listed in q. */
  function Sweep<T>(s: seq<T>, q: seq<Slot>, f: T -> T): (r: seq<T>)
    ensures |r| == |s|
    ensures forall j :: 0 <= j < |s| ==> r[j] == if j in q then f(s[j]) else s[j]
  {
    seq(|s|, j requires 0 <= j < |s| => if j in q then f(s[j]) else s[j])
  }

  /** The indices listed in q whose element satisfies g, in order. */
  function Pick<T>(s: seq<T>, q: seq<Slot>, g: T -> bool): (r: seq<Slot>)
    ensures forall x: Slot :: x in r <==> x in q && x < |s| && g(s[x])
    ensures NoDup(q) ==> NoDup(r)
  {
    if q == [] then []
    else
      var n := |q| - 1;
      assert q == q[..n] + [q[n]];
      NoDupAppend(q[..n], q[n]);
      var rest := Pick(s, q[..n], g);
      NoDupAppend(rest, q[n]);
      if q[n] < |s| && g(s[q[n]]) then rest + [q[n]] else rest
  }

  lemma PickNone<T>(s: seq<T>, q: seq<Slot>, g: T -> bool)
    requires forall x: Slot :: x in q && x < |s| ==> !g(s[x])
    ensures Pick(s, q, g) == []
  {
  }

  lemma SweepStep<T>(s: seq<T>, q: seq<Slot>, k: nat, f: T -> T, g: T -> bool)
    requires NoDup(q) && k < |q| && q[k] < |s|
    ensures Sweep(s, q[..k], f)[q[k]] == s[q[k]]
    ensures Sweep(s, q[..k + 1], f) == Sweep(s, q[..k], f)[q[k] := f(s[q[k]])]
    ensures Pick(s, q[..k + 1], g) == Pick(s, q[..k], g) + if g(s[q[k]]) then [q[k]] else []
  {
    NoDupPrefix(q, k);
    SweepSnoc(s, q[..k], q[k], f, g);
  }

  lemma SweepSnoc<T>(s: seq<T>, q: seq<Slot>, x: Slot, f: T -> T, g: T -> bool)
    requires x < |s| && x !in q
    ensures Sweep(s, q, f)[x] == s[x]
    ensures Sweep(s, q + [x], f) == Sweep(s, q, f)[x := f(s[x])]
    ensures Pick(s, q + [x], g) == Pick(s, q, g) + if g(s[x]) then [x] else []
  {
  }

  /** One turn of a loop that unlinks the head q[k] from element p and changes it. */
  lemma DrainTurn<T>(s: seq<T>, q: seq<Slot>, k: nat, f: T -> T, g: T -> bool, p: Slot, w: T, w': T)
    requires NoDup(q) && k < |q| && q[k] < |s| && p < |s| && p !in q
    ensures
      var cur := Sweep(s, q[..k], f)[p := w];
      var x := q[k];
      && cur[p := w'][x] == s[x]
      && cur[p := w'][x := f(s[x])] == Sweep(s, q[..k + 1], f)[p := w']
      && Pick(s, q[..k + 1], g) == Pick(s, q[..k], g) + if g(s[x]) then [x] else []
  {
    SweepStep(s, q, k, f, g);
    assert q[k] in q;
  }

  lemma NoDupAppend(s: seq<Slot>, x: Slot)
    ensures NoDup(s + [x]) <==> NoDup(s) && x !in s
  {
    var t := s + [x];
    assert forall i :: 0 <= i < |s| ==> t[i] == s[i];
    if NoDup(t) {
      assert forall i :: 0 <= i < |s| ==> t[i] != t[|s|];
    }
  }

  lemma {:induction false} NoDupConcat(s: seq<Slot>, t: seq<Slot>)
    ensures NoDup(s + t) <==> NoDup(s) && NoDup(t) && forall x: Slot :: x in s ==> x !in t
  {
    if t == [] {
      assert s + t == s;
    } else {
      var n := |t| - 1;
      assert s + t == (s + t[..n]) + [t[n]] && t == t[..n] + [t[n]];
      NoDupConcat(s, t[..n]);
      NoDupAppend(s + t[..n], t[n]);
      NoDupAppend(t[..n], t[n]);
    }
  }

  lemma WithoutSnoc(s: seq<Slot>, y: Slot, x: Slot)
    ensures Without(s + [y], x) == Without(s, x) + if y == x then [] else [y]
  {
  }

  lemma {:induction false} WithoutConcat(s: seq<Slot>, t: seq<Slot>, x: Slot)
    ensures Without(s + t, x) == Without(s, x) + Without(t, x)
  {
    if t == [] {
      assert s + t == s;
    } else {
      var n := |t| - 1;
      var u, y := t[..n], t[n];
      var tail := if y == x then [] else [y];
      calc {
        Without(s + t, x);
        { assert s + t == (s + u) + [y]; }
        Without((s + u) + [y], x);
        { WithoutSnoc(s + u, y, x); }
        Without(s + u, x) + tail;
        { WithoutConcat(s, u, x); }
        Without(s, x) + Without(u, x) + tail;
        { WithoutSnoc(u, y, x); assert t == u + [y]; }
        Without(s, x) + Without(t, x);
      }
    }
  }
}
