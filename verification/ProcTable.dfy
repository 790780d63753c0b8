/**
 Operations on the process table that drain or cut wait queues: flush_migr_list,
 flush_sending_list and do_unbind. Each is a method of class Dc working in place
 on the table, proved equal to a function on the value of the table.
 */
module ProcTable {
  import opened Descriptors

  // ---- acknowledgements built on a remote descriptor ----

  /** generic_ack_lcl2rmt without the enqueue: the descriptor as the proxy will see it. */
  function AckCmd(net: Net, ack: nat, rmt: Proc, lclEp: int, rcode: int): Proc {
    rmt.(rts := rmt.rts + {RmtOper},
         cmd := Cmd(ack, rmt.dcid, lclEp, rmt.endpoint, net.local, rmt.nodeid, rcode))
  }

  /** error_lcl2rmt without the enqueue: the answer is built from the received header h. */
  function ErrorCmd(net: Net, ack: nat, rmt: Proc, h: Cmd, rcode: int): Proc {
    rmt.(rts := rmt.rts + {RmtOper},
         cmd := Cmd(ack, h.dcid, h.dst, rmt.endpoint, net.local, rmt.nodeid, rcode))
  }

  /** sproxy_enqueue fails, leaving the descriptor unlinked, when the proxy slot is free. */
  predicate Routed(net: Net, x: Proc) {
    x.cmd.dnode in net.route
  }

  function Enqueued(net: Net, x: Proc): Proc {
    if Routed(net, x) then x.(proxy := net.route[x.cmd.dnode]) else x
  }

  // ---- draining one queue of one descriptor ----

  /** The loops that empty a queue of a descriptor. */
  datatype DrainKind = SendersDied | MigrWaitersDied | UnbindWaiters | MigrDone | SendersReplay

  function QueueOf(kind: DrainKind, x: Proc): seq<Slot> {
    match kind
    case SendersDied => x.plist
    case SendersReplay => x.plist
    case MigrWaitersDied => x.mlist
    case MigrDone => x.mlist
    case UnbindWaiters => x.ulist
  }

  function WithQueue(kind: DrainKind, x: Proc, q: seq<Slot>): Proc {
    match kind
    case SendersDied => x.(plist := q)
    case SendersReplay => x.(plist := q)
    case MigrWaitersDied => x.(mlist := q)
    case MigrDone => x.(mlist := q)
    case UnbindWaiters => x.(ulist := q)
  }

  lemma QueueLaws(kind: DrainKind, x: Proc, q: seq<Slot>, r: seq<Slot>)
    ensures QueueOf(kind, WithQueue(kind, x, q)) == q
    ensures WithQueue(kind, WithQueue(kind, x, q), r) == WithQueue(kind, x, r)
    ensures WithQueue(kind, x, q).endpoint == x.endpoint
    ensures WithQueue(kind, x, QueueOf(kind, x)) == x
  {
  }

  /** Whether the loop body asks the sender proxy to carry the queued descriptor x. */
  predicate Asks(kind: DrainKind, x: Proc) {
    x.IsRemote() && !kind.MigrDone? && (kind.SendersReplay? ==> !HasAck(x.cmd.cmd))
  }

  /** What the loop body does to a queued descriptor x of the owner of endpoint ep. */
  function Effect(net: Net, kind: DrainKind, ep: int, x: Proc): Proc {
    match kind
    case SendersDied =>
      var y := x.(rts := x.rts - {Sending});
      if x.IsLocal() then Up(y, EMOLDSTDIED) else AckCmd(net, CMD_SEND_ACK, y, ep, EMOLDSTDIED)
    case MigrWaitersDied =>
      var y := x.(rts := x.rts - {WaitMigr}, waitmigr := NONE);
      if x.IsLocal() then Up(y, EMOLNOTBIND) else AckCmd(net, CMD_SEND_ACK, y, ep, EMOLNOTBIND)
    case UnbindWaiters =>
      var y := x.(rts := x.rts - {WaitUnbind}, waitunbind := NONE);
      if x.IsLocal() then Up(y, OK) else AckCmd(net, CMD_SEND_ACK, y, ep, OK)
    case MigrDone =>
      if x.waitmigr == ep then
        var y := x.(rts := x.rts - {WaitMigr}, waitmigr := NONE);
        if y.rts == {} then Up(y, EMOLMIGRATE) else y
      else x
    case SendersReplay =>
      if x.IsLocal() then
        var y := x.(rts := x.rts - {Sending, Receiving}, getfrom := NONE, sendto := NONE);
        if y.rts == {} then Up(y, EMOLMIGRATE) else y
      else if HasAck(x.cmd.cmd) then x
      else ErrorCmd(net, WithAck(x.cmd.cmd), x, x.cmd, EMOLMIGRATE)
  }

  function After(net: Net, kind: DrainKind, ep: int): Proc -> Proc {
    x => if Asks(kind, x) then Enqueued(net, Effect(net, kind, ep, x)) else Effect(net, kind, ep, x)
  }

  function Joins(net: Net, kind: DrainKind): Proc -> bool {
    x => Asks(kind, x) && x.nodeid in net.route
  }

  /** A queue as a C list can be: members of the table other than the owner, each linked once. */
  predicate ListOk(tb: Table, p: Slot, q: seq<Slot>) {
    NoDup(q) && forall x: Slot :: x in q ==> x < |tb.procs| && x != p
  }

  /** The table after the whole queue was handled: every member changed once, the
      members handed to the proxy appended in queue order, the queue empty. */
  function Drained(tb: Table, kind: DrainKind, p: Slot): Table
    requires p < |tb.procs| && ListOk(tb, p, QueueOf(kind, tb.procs[p]))
  {
    var owner := tb.procs[p];
    var q := QueueOf(kind, owner);
    tb.(procs := Sweep(tb.procs, q, After(tb.net, kind, owner.endpoint))[p := WithQueue(kind, owner, [])],
        outq := tb.outq + Pick(tb.procs, q, Joins(tb.net, kind)))
  }

  // ---- the second pass of do_unbind over every other descriptor ----

  /** True if the pass tells descriptor r that its source, of endpoint ep, is gone. */
  predicate AwaitsMessageFrom(r: Proc, ep: int) {
    !r.Free() && Sending !in r.rts && Receiving in r.rts && r.getfrom == ep
  }

  function DropNotify(sid: nat, nrSys: nat, r: Proc): Proc {
    if sid < nrSys then r.(notify := r.notify - {sid}) else r
  }

  function TellReceiver(net: Net, ep: int, r: Proc): Proc {
    if !AwaitsMessageFrom(r, ep) then r
    else if r.IsLocal() then Up(r, EMOLSRCDIED)
    else Enqueued(net, AckCmd(net, CMD_SNDREC_ACK, r.(rts := r.rts - {Receiving}), ep, EMOLSRCDIED))
  }

  function Noticed(net: Net, ep: int, sid: nat, nrSys: nat): Proc -> Proc {
    (r: Proc) => if r.Free() then r else TellReceiver(net, ep, DropNotify(sid, nrSys, r))
  }

  function NoticeJoins(net: Net, ep: int): Proc -> bool {
    r => AwaitsMessageFrom(r, ep) && r.IsRemote() && r.nodeid in net.route
  }

  /** The slots below n other than p, in order: the walk of FOR_EACH_PROC. */
  function Others(n: nat, p: Slot): (r: seq<Slot>)
    ensures forall x: Slot :: x in r <==> x < n && x != p
    ensures NoDup(r)
  {
    if n == 0 then []
    else
      var rest := Others(n - 1, p);
      NoDupAppend(rest, n - 1);
      if n - 1 == p then rest else rest + [n - 1]
  }

  function NoticedAll(tb: Table, p: Slot): Table
    requires p < |tb.procs|
  {
    var x := tb.procs[p];
    var q := Others(|tb.procs|, p);
    tb.(procs := Sweep(tb.procs, q, Noticed(tb.net, x.endpoint, x.sid, tb.nrSys)),
        outq := tb.outq + Pick(tb.procs, q, NoticeJoins(tb.net, x.endpoint)))
  }

  // ---- cutting a descriptor out of the queues it waits on ----

  predicate TargetLocal(tb: Table, e: int) {
    var i := SlotOf(tb.nrTasks, e);
    0 <= i < |tb.procs| && tb.procs[i].IsLocal()
  }

  /** Whether do_unbind unlinks p_link: p waits for a proxy, or for a local destination.
      The slot of the destination is computed with the adding form of ENDPOINT2PTR. */
  predicate CutsLink(tb: Table, x: Proc) {
    || (RmtOper in x.rts && x.proxy != NONE)
    || (Sending in x.rts && TargetLocal(tb, x.sendto))
  }

  /** Leaving the proxy queue and the senders' queue: LIST_DEL_INIT takes p_link off
      whichever list holds it. */
  function CutP(tb: Table, p: Slot): (r: Table)
    requires p < |tb.procs|
    ensures |r.procs| == |tb.procs|
    ensures r.procs[p].mlist == tb.procs[p].mlist && r.procs[p].ulist == tb.procs[p].ulist
  {
    var x := tb.procs[p];
    var cut := CutsLink(tb, x);
    var y := x.(rts := x.rts - {RmtOper, Sending},
                proxy := if RmtOper in x.rts then NONE else x.proxy,
                sendto := if Sending in x.rts then NONE else x.sendto);
    tb.(procs := seq(|tb.procs|, j requires 0 <= j < |tb.procs| =>
                       var z := if j == p then y else tb.procs[j];
                       if cut then z.(plist := Without(z.plist, p)) else z),
        outq := if cut then Without(tb.outq, p) else tb.outq)
  }

  /** Leaving the migration queue. */
  function CutM(tb: Table, p: Slot): (r: Table)
    requires p < |tb.procs|
    ensures |r.procs| == |tb.procs|
    ensures p !in tb.procs[p].mlist ==> r.procs[p].mlist == tb.procs[p].mlist
    ensures r.procs[p].ulist == tb.procs[p].ulist
  {
    var x := tb.procs[p];
    if WaitMigr !in x.rts then tb else
      var y := x.(rts := x.rts - {WaitMigr}, waitmigr := NONE);
      tb.(procs := seq(|tb.procs|, j requires 0 <= j < |tb.procs| =>
                         var z := if j == p then y else tb.procs[j];
                         z.(mlist := Without(z.mlist, p))))
  }

  /** Leaving the unbind-waiters' queue. */
  function CutU(tb: Table, p: Slot): (r: Table)
    requires p < |tb.procs|
    ensures |r.procs| == |tb.procs|
    ensures p !in tb.procs[p].ulist ==> r.procs[p].ulist == tb.procs[p].ulist
  {
    var x := tb.procs[p];
    if WaitUnbind !in x.rts then tb else
      var y := x.(rts := x.rts - {WaitUnbind}, waitunbind := NONE);
      tb.(procs := seq(|tb.procs|, j requires 0 <= j < |tb.procs| =>
                         var z := if j == p then y else tb.procs[j];
                         z.(ulist := Without(z.ulist, p))))
  }

  // ---- do_unbind ----

  predicate ListsOk(tb: Table, p: Slot) {
    p < |tb.procs| &&
    var x := tb.procs[p];
    ListOk(tb, p, x.plist) && ListOk(tb, p, x.mlist) && ListOk(tb, p, x.ulist)
  }

  /** The two passes that answer senders and receivers of p. */
  function Answered(tb: Table, p: Slot): (r: Table)
    requires ListsOk(tb, p)
    ensures |r.procs| == |tb.procs| && r.procs[p] == tb.procs[p].(plist := [])
  {
    NoticedAll(Drained(tb, SendersDied, p), p)
  }

  /** The clean-up up to the last queue. */
  function HalfEmptied(tb: Table, p: Slot): (r: Table)
    requires ListsOk(tb, p)
    ensures |r.procs| == |tb.procs| && r.procs[p].ulist == tb.procs[p].ulist && r.net == tb.net
  {
    CutU(Drained(CutM(CutP(tb, p), p), MigrWaitersDied, p), p)
  }

  /** The rest of the clean-up, before the descriptor is reset. */
  function Emptied(tb: Table, p: Slot): (r: Table)
    requires ListsOk(tb, p)
    ensures |r.procs| == |tb.procs|
  {
    Drained(HalfEmptied(tb, p), UnbindWaiters, p)
  }

  /** The final clean-up path of do_unbind. */
  function Unbound(tb: Table, p: Slot): Table
    requires ListsOk(tb, p)
  {
    var t := Emptied(Answered(tb, p), p);
    t.(procs := t.procs[p := InitProc(t.procs[p], tb.dcid)])
  }
}
