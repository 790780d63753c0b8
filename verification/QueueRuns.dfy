/**
 Runs of a DC: binding, sends, receives, notifications, waits, time-outs, migration, the
 proxies and unbinding, each taken as one atomic step, and the queue invariant over them.
 */
module QueueRuns {
  import opened Descriptors
  import opened ProcTable
  import opened Detach
  import opened UnbindInv
  import opened QueueOps

  // ---- the steps ----

  /** s_id of a bound process: its slot, or nrSys for a user process. */
  function SysId(tb: Table, i: Slot): nat {
    if i < tb.nrSys then i else tb.nrSys
  }

  /** A successful mm_bind into a free slot, of a local process (node is the local one) or of a
      remote one. The queues depend on nothing else of a bind; its outcomes, kinds and flags are in
      Lifecycle, whose lemma BindIsStep says that the two agree. */
  function Bind(tb: Table, i: Slot, node: int): Table
    requires i < |tb.procs|
  {
    var b := InitProc(tb.procs[i], tb.dcid).(nodeid := node, sid := SysId(tb, i));
    if !tb.procs[i].Free() || node !in tb.nodes then tb
    else if node == tb.net.local then Put(tb, i, b.(rts := {}))
    else Put(tb, i, b.(rts := {Remote}))
  }

  /** do_autobind: bind the remote sender of an incoming message under its own endpoint. */
  function Autobind(tb: Table, i: Slot, ep: int, node: int): Table
    requires i < |tb.procs|
  {
    if SlotOf(tb.nrTasks, ep) != i || node !in tb.nodes || !tb.procs[i].Free() || node == tb.net.local then tb
    else
      Put(tb, i, InitProc(tb.procs[i], tb.dcid).(endpoint := ep, rts := {Remote}, nodeid := node, sid := SysId(tb, i)))
  }

  predicate Accepts(d: Proc, ep: int) {
    Receiving in d.rts && Sending !in d.rts && (d.getfrom == ANY || d.getfrom == ep)
  }

  /** A waiting receiver gets its message. */
  function Delivered(d: Proc): Proc {
    var e := d.(rts := d.rts - {Receiving}, getfrom := NONE);
    if e.rts == {} then Up(e, OK) else e
  }

  /** The caller of a blocking send (rec false) or sendrec (rec true) to endpoint ep. */
  function Blocked(x: Proc, ep: int, rec: bool): Proc {
    x.(rts := x.rts + {Sending} + (if rec then {Receiving} else {}), sendto := ep,
       getfrom := if rec then ep else x.getfrom)
  }

  /** The remote arm of a send, sendrec or notification: the caller x waits for the proxy. */
  function RemoteSend(tb: Table, x: Slot, d: Slot, rec: bool, cmd: nat): Table
    requires x < |tb.procs| && d < |tb.procs| && tb.procs[d].nodeid in tb.net.route
  {
    var s, r := tb.procs[x], tb.procs[d];
    var r' := if rec then r else
                r.(rts := r.rts - {Receiving}, getfrom := if r.getfrom == s.endpoint then NONE else r.getfrom);
    var b := Blocked(s, r.endpoint, rec);
    var b' := b.(rts := b.rts + {RmtOper}, proxy := tb.net.route[r.nodeid],
                 cmd := Cmd(cmd, s.dcid, s.endpoint, r.endpoint, tb.net.local, r.nodeid, OK));
    PushOut(Put(Put(tb, d, r'), x, b'), x)
  }

  /** A send or sendrec of x to d once d is known not to migrate. */
  function SendOn(tb: Table, x: Slot, d: Slot, rec: bool): (next: Table)
    requires x < |tb.procs| && d < |tb.procs|
    ensures |next.procs| == |tb.procs|
  {
    var s, r := tb.procs[x], tb.procs[d];
    if r.IsRemote() then
      if r.nodeid !in tb.net.route then tb
      else RemoteSend(tb, x, d, rec, if rec then CMD_SNDREC_MSG else CMD_SEND_MSG)
    else if Accepts(r, s.endpoint) then
      Put(Put(tb, d, Delivered(r)), x, if rec then s.(rts := s.rts + {Receiving}, getfrom := r.endpoint) else s)
    else
      PushP(Put(tb, x, Blocked(s, r.endpoint, rec)), d, x)
  }

  /** A send or sendrec of x to d from the test of the destination on: x waits for the end of a
      migration, or sends. */
  function SendTo(tb: Table, x: Slot, d: Slot, rec: bool): (next: Table)
    requires x < |tb.procs| && d < |tb.procs|
    ensures |next.procs| == |tb.procs|
  {
    var s, r := tb.procs[x], tb.procs[d];
    if x == d || r.Free() then tb
    else if Migrate in r.rts then
      PushM(Put(tb, x, s.(rts := s.rts + {WaitMigr}, waitmigr := r.endpoint)), d, x)
    else SendOn(tb, x, d, rec)
  }

  /** Send or sendrec of a running local process x to d. */
  function Send(tb: Table, x: Slot, d: Slot, rec: bool): (next: Table)
    requires x < |tb.procs| && d < |tb.procs|
    ensures |next.procs| == |tb.procs|
  {
    if tb.procs[x].rts != {} then tb else SendTo(tb, x, d, rec)
  }

  /** x has no send open and waits for no message; flags of a migration, its own or one it waited
      for, may be left. */
  predicate Ready(x: Proc) {
    !x.Free() && x.rts !! {Sending, Receiving, RmtOper}
  }

  /** The send is tried again: after the sleep of a sender that waited for a migration, however
      the sleep ended, or because the destination was found to have migrated. After a time-out or
      a signal x is still linked. If d migrates, the linked descriptor is initialised and appended
      once more; the C list is then no list any more, and here it holds x twice. The process of x
      may itself have left this node meanwhile. */
  function Resend(tb: Table, x: Slot, d: Slot, rec: bool): Table
    requires x < |tb.procs| && d < |tb.procs|
  {
    if !Ready(tb.procs[x]) then tb else SendTo(tb, x, d, rec)
  }

  /** kernel_warn2proc: the exiting process c tells w, which does not migrate. A remote w gets a
      plain send that leaves it as the source to receive from. */
  function Warn(tb: Table, c: Slot, w: Slot): Table
    requires c < |tb.procs| && w < |tb.procs|
  {
    var s, r := tb.procs[c], tb.procs[w];
    if !Ready(s) || c == w || r.Free() || Migrate in r.rts then tb
    else if r.IsLocal() then SendOn(tb, c, w, true)
    else if r.nodeid !in tb.net.route then tb
    else SendOn(Put(tb, c, s.(getfrom := r.endpoint)), c, w, false)
  }

  /** send_rmt2lcl: a message of remote process r reaches the local process d. */
  function Arrive(tb: Table, r: Slot, d: Slot, rec: bool): (next: Table)
    requires r < |tb.procs| && d < |tb.procs|
    ensures |next.procs| == |tb.procs|
  {
    var s, l := tb.procs[r], tb.procs[d];
    if r == d || s.Free() || s.IsLocal() || RmtOper in s.rts || Sending in s.rts
       || l.Free() || l.IsRemote() || Migrate in l.rts then tb
    else if Accepts(l, s.endpoint) then
      var t := Put(tb, d, Delivered(l));
      if rec then Put(t, r, s.(rts := s.rts + {Receiving}, getfrom := l.endpoint))
      else
        var t' := Put(t, r, Enqueued(tb.net, AckCmd(tb.net, CMD_SEND_ACK, s, l.endpoint, OK)));
        if s.nodeid in tb.net.route then PushOut(t', r) else t'
    else
      PushP(Put(tb, r, Blocked(s, l.endpoint, rec)), d, r)
  }

  /** The first queued sender a receive from ep takes. */
  function FirstFrom(tb: Table, q: seq<Slot>, ep: int): (r: seq<Slot>)
    ensures |r| <= 1 && forall y: Slot :: y in r ==> y in q && y < |tb.procs|
  {
    if q == [] then []
    else if q[0] < |tb.procs| && (ep == ANY || tb.procs[q[0]].endpoint == ep) then [q[0]]
    else FirstFrom(tb, q[1..], ep)
  }

  /** The lowest bit of s from i on and below n, or n. */
  function FirstBit(s: set<nat>, i: nat, n: nat): (b: nat)
    requires i <= n
    ensures i <= b <= n && (b < n ==> b in s) && forall j: nat :: i <= j < b ==> j !in s
    decreases n - i
  {
    if i == n || i in s then i else FirstBit(s, i + 1, n)
  }

  /** Receive of a running local process x from ep: take the first pending notification,
      whatever its source, or a queued sender, or block. */
  function Receive(tb: Table, x: Slot, ep: int): (next: Table)
    requires x < |tb.procs|
    ensures |next.procs| == |tb.procs|
  {
    var me := tb.procs[x];
    if me.rts != {} then tb
    else if FirstBit(me.notify, 0, tb.nrSys) < tb.nrSys then
      Put(tb, x, me.(notify := me.notify - {FirstBit(me.notify, 0, tb.nrSys)}))
    else
      var hit := FirstFrom(tb, me.plist, ep);
      if hit == [] then Put(tb, x, me.(rts := {Receiving}, getfrom := ep))
      else
        var y := hit[0];
        assert y in hit;
        var t := Dropping(tb, y, true, false, false);
        var s := t.procs[y];
        if s.Free() || Sending !in s.rts || s.sendto != me.endpoint then t
        else
          var ack := s.IsRemote() && Receiving !in s.rts;
          var a := if ack then Enqueued(tb.net, AckCmd(tb.net, CMD_SEND_ACK, s, me.endpoint, OK)) else s;
          var b := a.(rts := a.rts - {Sending}, sendto := NONE);
          var t' := Put(t, y, if b.rts == {} then Up(b, OK) else b);
          if ack && s.nodeid in tb.net.route then PushOut(t', y) else t'
  }

  /** mm_wait4bind(WAIT_UNBIND): x waits for the unbinding of o. */
  function WaitForUnbind(tb: Table, x: Slot, o: Slot): (next: Table)
    requires x < |tb.procs| && o < |tb.procs|
    ensures |next.procs| == |tb.procs|
  {
    if tb.procs[x].rts != {} || x == o || tb.procs[o].Free() then tb
    else PushU(Put(tb, x, tb.procs[x].(rts := {WaitUnbind}, waitunbind := tb.procs[o].endpoint)), o, x)
  }

  /** The time-out exit of mm_wait4bind. */
  function UnbindTimeout(tb: Table, x: Slot): Table
    requires x < |tb.procs|
  {
    if WaitUnbind !in tb.procs[x].rts then tb
    else
      var t := Dropping(tb, x, false, false, true);
      Put(t, x, t.procs[x].(rts := t.procs[x].rts - {WaitUnbind}, waitunbind := NONE))
  }

  /** The sleep of mm_wait4bind ends without a time-out: the flag is cleared and the link is left
      to whoever woke the process. */
  function UnbindWoken(tb: Table, x: Slot): Table
    requires x < |tb.procs|
  {
    if tb.procs[x].Free() then tb else Put(tb, x, tb.procs[x].(rts := tb.procs[x].rts - {WaitUnbind}))
  }

  /** What the error exit of a send (rec false) or sendrec (rec true) leaves of its caller; only
      the remote arm (rmt) clears RMTOPER and p_proxy. */
  function GivenUp(x: Proc, rmt: bool, rec: bool): Proc {
    x.(rts := x.rts - {Sending} - (if rmt then {RmtOper} else {}) - (if rec then {Receiving} else {}),
       sendto := NONE, proxy := if rmt then NONE else x.proxy, getfrom := if rec then NONE else x.getfrom)
  }

  /** The error exit of a send or sendrec: the link is dropped only if SENDING is still set, the
      flags are cleared in any case. The call is one that can have set the flags x has. A process
      that left this node while it slept runs this exit on what is now a remote descriptor. */
  function GiveUp(tb: Table, x: Slot, rmt: bool, rec: bool): Table
    requires x < |tb.procs|
  {
    var s := tb.procs[x];
    if s.Free() || (RmtOper in s.rts && !rmt) || (Receiving in s.rts && !rec) then tb
    else
      var t := if Sending in s.rts then Dropping(tb, x, true, false, false) else tb;
      Put(t, x, GivenUp(t.procs[x], rmt, rec))
  }

  /** The error exit of a receive. */
  function ReceiveExit(tb: Table, x: Slot): Table
    requires x < |tb.procs|
  {
    var s := tb.procs[x];
    if s.Free() || Sending in s.rts || RmtOper in s.rts then tb
    else Put(tb, x, s.(rts := s.rts - {Receiving}, getfrom := NONE))
  }

  /** A notify of a system process x, which may be replayed, to d: delivered to a waiting receiver, sent to the
      node of a remote one, pending otherwise. */
  function Notify(tb: Table, x: Slot, d: Slot): (next: Table)
    requires x < |tb.procs| && d < |tb.procs|
    ensures |next.procs| == |tb.procs|
  {
    var s, r := tb.procs[x], tb.procs[d];
    if !Ready(s) || s.sid >= tb.nrSys || x == d || r.Free() then tb
    else if Migrate !in r.rts && r.IsRemote() then
      if r.nodeid in tb.net.route then RemoteSend(tb, x, d, false, CMD_NTFY_MSG) else tb
    else if Migrate !in r.rts && Accepts(r, s.endpoint) then Put(tb, d, Delivered(r))
    else if Migrate !in r.rts && r.sid >= tb.nrSys then tb
    else Put(tb, d, r.(notify := r.notify + {s.sid}))
  }

  /** What the proxy leaves of a descriptor whose command it sent off. */
  function SentOff(s: Proc): Proc {
    var done := s.IsRemote() || s.cmd.cmd in {CMD_SNDREC_MSG, CMD_NTFY_MSG};
    var z := s.(rts := s.rts - {RmtOper} - (if done then {Sending} else {}),
                sendto := if done then NONE else s.sendto, proxy := NONE, cmd := s.cmd.(cmd := CMD_NONE));
    if s.cmd.cmd == CMD_NTFY_MSG && z.rts == {} then Up(z, OK) else z
  }

  /** A sender proxy takes x off its queue and sends its command off. Each pair has its own queue
      and thread, so x need not be the oldest of all. A free or migrating one is turned down. */
  function ProxyTake(tb: Table, x: Slot): (next: Table)
    ensures |next.procs| == |tb.procs|
  {
    if x !in tb.outq || x >= |tb.procs| || tb.procs[x].Free() || Migrate in tb.procs[x].rts then tb
    else
      var t := Dropping(tb, x, true, false, false);
      Put(t, x, SentOff(t.procs[x]))
  }

  /** What the proxy leaves of a descriptor it cannot send off, or whose destination has
      migrated: all its flags are gone, and a local process is woken with the error. */
  function TurnedDown(s: Proc, rcode: int): Proc {
    if s.IsRemote() then s.(rts := {Remote}, proxy := NONE)
    else Up(s.(rts := {}, proxy := NONE, sendto := NONE), rcode)
  }

  function ProxyFail(tb: Table, x: Slot, rcode: int): Table {
    if x !in tb.outq || x >= |tb.procs| then tb
    else
      var t := Dropping(tb, x, true, false, false);
      Put(t, x, TurnedDown(t.procs[x], rcode))
  }

  /** What flush_sending_procs leaves of a descriptor queued for a node that is disconnected. */
  function CutOff(s: Proc): Proc {
    if s.IsRemote() then s.(rts := {Remote}, proxy := NONE, getfrom := NONE, sendto := NONE)
    else
      var rec, any := s.cmd.cmd == CMD_SNDREC_MSG, s.cmd.cmd in {CMD_SEND_MSG, CMD_SNDREC_MSG, CMD_NTFY_MSG};
      var y := s.(rts := s.rts - {RmtOper} - (if any then {Sending} else {}) - (if rec then {Receiving} else {}),
                  proxy := NONE, sendto := if any then NONE else s.sendto, getfrom := if rec then NONE else s.getfrom);
      if any && y.rts == {} then Up(y, EMOLNOTCONN) else y
  }

  /** flush_sending_procs for one queued descriptor; a freed slot has no command any more. */
  function FlushSender(tb: Table, x: Slot, node: int): Table {
    if x !in tb.outq || x >= |tb.procs| || tb.procs[x].Free() || tb.procs[x].cmd.dnode != node then tb
    else
      var t := Dropping(tb, x, true, false, false);
      Put(t, x, CutOff(t.procs[x]))
  }

  /** Endpoint ep names a process on node. */
  predicate LivesOn(tb: Table, ep: int, node: int) {
    var i := SlotOf(tb.nrTasks, ep);
    ep != ANY && ep != NONE && 0 <= i < |tb.procs| && tb.procs[i].nodeid == node
  }

  function WokenCut(x: Proc, f: RtsFlag): Proc {
    var y := x.(rts := x.rts - {f});
    if y.rts == {} then Up(y, EMOLNOTCONN) else y
  }

  /** What flush_receiving_procs does to one descriptor: a local process stops waiting for a
      message of a process on the disconnected node, and for one to take its own. */
  function Unheard(tb: Table, node: int): Proc -> Proc {
    (x: Proc) =>
      if x.Free() || x.IsRemote() then x
      else
        var a := x.(rcode := EMOLNOTCONN);
        var b := if Receiving in a.rts && LivesOn(tb, a.getfrom, node) then WokenCut(a, Receiving) else a;
        if Sending in b.rts && LivesOn(tb, b.sendto, node) then WokenCut(b, Sending) else b
  }

  /** flush_receiving_procs, under the locks of all processes: no link is touched. */
  function FlushReceivers(tb: Table, node: int): Table {
    tb.(procs := seq(|tb.procs|, j requires 0 <= j < |tb.procs| => Unheard(tb, node)(tb.procs[j])))
  }

  /** send_ack_rmt2lcl: an acknowledgement of remote r reaches local l. */
  function SendAck(tb: Table, r: Slot, l: Slot, rcode: int): Table
    requires r < |tb.procs| && l < |tb.procs|
  {
    var s, d := tb.procs[r], tb.procs[l];
    if s.Free() || s.IsLocal() || d.Free() || d.IsRemote() || Sending in s.rts || Sending !in d.rts
       || d.sendto != s.endpoint then tb
    else
      var e := d.(rts := d.rts - {Sending}, sendto := NONE);
      Put(tb, l, if e.rts == {} then Up(e, rcode) else e)
  }

  /** A thread marked NEEDMIGR stops at its next call, or START marks a remote descriptor. */
  function Freeze(tb: Table, p: Slot): Table
    requires p < |tb.procs|
  {
    if tb.procs[p].Free() then tb else Put(tb, p, tb.procs[p].(rts := tb.procs[p].rts + {Migrate}))
  }

  /** The second loop of migr_rollback for thread p. */
  function Roll(tb: Table, p: Slot): Table
    requires ListsOk(tb, p)
  {
    var x := tb.procs[p];
    var t := Drained(Put(tb, p, x.(rts := x.rts - {Migrate}, misc := x.misc - {NeedMigr})), MigrDone, p);
    if t.procs[p].rts == {} then Put(t, p, Up(t.procs[p], OK)) else t
  }

  /** Rollback of descriptor p; a remote one keeps its migration queue. */
  function RollBack(tb: Table, p: Slot): Table
    requires ListsOk(tb, p)
  {
    var x := tb.procs[p];
    if x.Free() then tb
    else if x.IsRemote() then Put(tb, p, x.(rts := x.rts - {Migrate}, misc := x.misc - {NeedMigr}))
    else Roll(tb, p)
  }

  /** Commit seen by a node that is neither the old nor the new one. */
  function Thaw(tb: Table, p: Slot, node: int): Table
    requires ListsOk(tb, p)
  {
    var x := tb.procs[p];
    if x.Free() || x.IsLocal() then tb
    else Drained(Put(tb, p, x.(rts := x.rts - {Migrate}, misc := x.misc - {NeedMigr}, nodeid := node)), MigrDone, p)
  }

  /** The descriptor part of old_migrate. */
  function BecomeRemote(x: Proc, node: int): Proc {
    var y := x.(rts := x.rts - {Migrate}, nodeid := node);
    var z := y.(rts := y.rts + {Remote});
    if y.rts != {} then Up(z, EMOLRMTPROC) else z
  }

  /** Commit on the old node: the frozen local descriptor becomes a remote one and its queues
      are flushed. */
  function LeaveNode(tb: Table, p: Slot, node: int): Table
    requires ListsOk(tb, p)
  {
    var x := tb.procs[p];
    if Migrate !in x.rts || x.IsRemote() then tb
    else Drained(Drained(Put(tb, p, BecomeRemote(x, node)), SendersReplay, p), MigrDone, p)
  }

  /** new_migrate: the remote descriptor becomes a running local one. */
  function EnterNode(tb: Table, p: Slot): Table
    requires p < |tb.procs|
  {
    if tb.procs[p].Free() || tb.procs[p].IsLocal() then tb
    else Put(tb, p, tb.procs[p].(rts := {}, nodeid := tb.net.local))
  }

  // ---- each step keeps the invariant ----

  lemma BindInv(tb: Table, i: Slot, node: int)
    requires QueueInv(tb) && i < |tb.procs|
    ensures QueueInv(Bind(tb, i, node))
  {
    if tb.procs[i].Free() {
      var b := InitProc(tb.procs[i], tb.dcid).(nodeid := node, sid := SysId(tb, i));
      BindKeeps(tb, i, b.(rts := {}));
      BindKeeps(tb, i, b.(rts := {Remote}));
    }
  }

  lemma AutobindInv(tb: Table, i: Slot, ep: int, node: int)
    requires QueueInv(tb) && i < |tb.procs|
    ensures QueueInv(Autobind(tb, i, ep, node))
  {
    if tb.procs[i].Free() && SlotOf(tb.nrTasks, ep) == i {
      BindKeeps(tb, i, InitProc(tb.procs[i], tb.dcid).(endpoint := ep, rts := {Remote}, nodeid := node, sid := SysId(tb, i)));
    }
  }

  /** Rewriting a descriptor that is on no queue and keeps its own queues. */
  lemma PutUnlinked(tb: Table, j: Slot, b: Proc)
    requires QueueInv(tb) && j < |tb.procs| && !LinkedP(tb, j) && !LinkedM(tb, j) && !LinkedU(tb, j)
    requires var a := tb.procs[j];
             && b.plist == a.plist && b.mlist == a.mlist && b.ulist == a.ulist
             && b.endpoint == a.endpoint && b.notify <= a.notify && !b.Free() && (b.IsRemote() ==> a.plist == [])
    ensures QueueInv(Put(tb, j, b))
    ensures forall x: Slot :: LinkedP(Put(tb, j, b), x) == LinkedP(tb, x)
    ensures forall x: Slot :: LinkedM(Put(tb, j, b), x) == LinkedM(tb, x)
    ensures forall x: Slot :: LinkedU(Put(tb, j, b), x) == LinkedU(tb, x)
  {
    assert OwnerOk(tb, tb.procs[j]);
    PutKeeps(tb, j, b);
    PutLinks(tb, j, b);
  }

  lemma PutLinks(tb: Table, j: Slot, b: Proc)
    requires j < |tb.procs|
    requires var a := tb.procs[j]; b.plist == a.plist && b.mlist == a.mlist && b.ulist == a.ulist
    ensures forall x: Slot :: LinkedP(Put(tb, j, b), x) == LinkedP(tb, x)
    ensures forall x: Slot :: LinkedM(Put(tb, j, b), x) == LinkedM(tb, x)
    ensures forall x: Slot :: LinkedU(Put(tb, j, b), x) == LinkedU(tb, x)
  {
    var t := Put(tb, j, b);
    assert forall o :: 0 <= o < |tb.procs| ==>
        t.procs[o].plist == tb.procs[o].plist && t.procs[o].mlist == tb.procs[o].mlist && t.procs[o].ulist == tb.procs[o].ulist;
  }

  /** Rewriting a receiver: only Receiving, the source it waits for and its wake-ups change. */
  lemma PutReceiver(tb: Table, d: Slot, b: Proc)
    requires QueueInv(tb) && d < |tb.procs| && !tb.procs[d].Free()
    requires var a := tb.procs[d];
             b == a.(rts := b.rts, getfrom := b.getfrom, rcode := b.rcode, sem := b.sem) && b.rts == a.rts - {Receiving}
    ensures QueueInv(Put(tb, d, b))
    ensures forall x: Slot :: LinkedP(Put(tb, d, b), x) == LinkedP(tb, x)
    ensures forall x: Slot :: LinkedM(Put(tb, d, b), x) == LinkedM(tb, x)
    ensures forall x: Slot :: LinkedU(Put(tb, d, b), x) == LinkedU(tb, x)
  {
    assert OwnerOk(tb, tb.procs[d]);
    PutKeeps(tb, d, b);
    PutLinks(tb, d, b);
  }

  /** Rewriting descriptor j by changing flags it has no link for. */
  lemma PutFlags(tb: Table, j: Slot, b: Proc)
    requires QueueInv(tb) && j < |tb.procs| && !tb.procs[j].Free()
    requires var a := tb.procs[j];
             && b.plist == a.plist && b.mlist == a.mlist && b.ulist == a.ulist && b.endpoint == a.endpoint
             && b.notify == a.notify && b.waitmigr == a.waitmigr && b.waitunbind == a.waitunbind
             && !b.Free() && b.IsRemote() == a.IsRemote()
             && (WaitMigr in a.rts ==> WaitMigr in b.rts) && (WaitUnbind in a.rts ==> WaitUnbind in b.rts)
    requires !LinkedP(tb, j) ||
             (var a := tb.procs[j];
              && (Sending in a.rts ==> Sending in b.rts) && b.sendto == a.sendto
              && (RmtOper in a.rts ==> RmtOper in b.rts) && b.proxy == a.proxy)
    ensures QueueInv(Put(tb, j, b))
    ensures forall x: Slot :: LinkedP(Put(tb, j, b), x) == LinkedP(tb, x)
  {
    assert OwnerOk(tb, tb.procs[j]);
    PutKeeps(tb, j, b);
    PutLinks(tb, j, b);
  }

  lemma RemoteSendInv(tb: Table, x: Slot, d: Slot, rec: bool, cmd: nat)
    requires QueueInv(tb) && x < |tb.procs| && d < |tb.procs| && x != d && !tb.procs[d].Free()
    requires !tb.procs[x].Free() && tb.procs[x].rts !! {Sending, RmtOper} && tb.procs[d].nodeid in tb.net.route
    ensures QueueInv(RemoteSend(tb, x, d, rec, cmd))
  {
    var s, r := tb.procs[x], tb.procs[d];
    RunningUnlinked(tb, x);
    var r' := if rec then r else
                r.(rts := r.rts - {Receiving}, getfrom := if r.getfrom == s.endpoint then NONE else r.getfrom);
    var b := Blocked(s, r.endpoint, rec);
    var b' := b.(rts := b.rts + {RmtOper}, proxy := tb.net.route[r.nodeid],
                 cmd := Cmd(cmd, s.dcid, s.endpoint, r.endpoint, tb.net.local, r.nodeid, OK));
    if rec {
      assert Put(tb, d, r') == tb;
    } else {
      PutReceiver(tb, d, r');
    }
    var t := Put(tb, d, r');
    PutFlags(t, x, b');
    PushOutKeeps(Put(t, x, b'), x);
  }

  lemma SendOnInv(tb: Table, x: Slot, d: Slot, rec: bool)
    requires QueueInv(tb) && x < |tb.procs| && d < |tb.procs| && x != d && !tb.procs[d].Free()
    requires !tb.procs[x].Free() && tb.procs[x].rts !! {Sending, RmtOper}
    ensures QueueInv(SendOn(tb, x, d, rec))
  {
    var s, r := tb.procs[x], tb.procs[d];
    RunningUnlinked(tb, x);
    if r.IsRemote() {
      if r.nodeid in tb.net.route {
        RemoteSendInv(tb, x, d, rec, if rec then CMD_SNDREC_MSG else CMD_SEND_MSG);
      }
    } else if Accepts(r, s.endpoint) {
      PutReceiver(tb, d, Delivered(r));
      PutFlags(Put(tb, d, Delivered(r)), x, if rec then s.(rts := s.rts + {Receiving}, getfrom := r.endpoint) else s);
    } else {
      var b := Blocked(s, r.endpoint, rec);
      PutFlags(tb, x, b);
      PushPKeeps(Put(tb, x, b), d, x);
    }
  }

  /** A send tried again keeps the invariant exactly if it does not wait for a migration, or its
      process is local and waits on no migration queue yet. */
  lemma ResendKeepsInvIff(tb: Table, x: Slot, d: Slot, rec: bool)
    requires QueueInv(tb) && x < |tb.procs| && d < |tb.procs|
    requires Ready(tb.procs[x]) && x != d && !tb.procs[d].Free()
    ensures QueueInv(Resend(tb, x, d, rec)) <==> Migrate !in tb.procs[d].rts || (tb.procs[x].IsLocal() && !LinkedM(tb, x))
  {
    var s, r := tb.procs[x], tb.procs[d];
    if Migrate !in r.rts {
      SendOnInv(tb, x, d, rec);
    } else {
      WaitInvIff(tb, x, d, s.(rts := s.rts + {WaitMigr}, waitmigr := r.endpoint));
    }
  }

  lemma WaitInvIff(tb: Table, x: Slot, d: Slot, b: Proc)
    requires QueueInv(tb) && x < |tb.procs| && d < |tb.procs| && x != d && !tb.procs[d].Free() && Ready(tb.procs[x])
    requires b == tb.procs[x].(rts := tb.procs[x].rts + {WaitMigr}, waitmigr := tb.procs[d].endpoint)
    ensures QueueInv(PushM(Put(tb, x, b), d, x)) <==> tb.procs[x].IsLocal() && !LinkedM(tb, x)
  {
    var t, u := Put(tb, x, b), PushM(Put(tb, x, b), d, x);
    RunningUnlinked(tb, x);
    assert OwnerOk(tb, tb.procs[x]);
    assert u.procs[d].mlist == tb.procs[d].mlist + [x];
    if tb.procs[x].IsRemote() {
      assert x in u.procs[d].mlist;
    } else if !LinkedM(tb, x) {
      PutKeeps(tb, x, b);
      PutLinks(tb, x, b);
      PushMKeeps(t, d, x);
    } else {
      var o :| 0 <= o < |tb.procs| && x in tb.procs[o].mlist;
      if o == d {
        NoDupAppend(tb.procs[d].mlist, x);
        assert !OwnerOk(u, u.procs[d]);
      } else {
        assert x in u.procs[o].mlist && u.procs[x].waitmigr == u.procs[d].endpoint;
        assert SlotOf(tb.nrTasks, u.procs[d].endpoint) != SlotOf(tb.nrTasks, u.procs[o].endpoint);
      }
    }
  }

  lemma SendInv(tb: Table, x: Slot, d: Slot, rec: bool)
    requires QueueInv(tb) && x < |tb.procs| && d < |tb.procs|
    ensures QueueInv(Send(tb, x, d, rec))
  {
    if tb.procs[x].rts == {} && x != d && !tb.procs[d].Free() {
      RunningUnlinked(tb, x);
      ResendKeepsInvIff(tb, x, d, rec);
    }
  }

  lemma WarnInv(tb: Table, c: Slot, w: Slot)
    requires QueueInv(tb) && c < |tb.procs| && w < |tb.procs|
    ensures QueueInv(Warn(tb, c, w))
  {
    var s, r := tb.procs[c], tb.procs[w];
    if !Ready(s) || c == w || r.Free() || Migrate in r.rts {
    } else if r.IsLocal() {
      SendOnInv(tb, c, w, true);
    } else if r.nodeid in tb.net.route {
      PutFlags(tb, c, s.(getfrom := r.endpoint));
      SendOnInv(Put(tb, c, s.(getfrom := r.endpoint)), c, w, false);
    }
  }

  lemma ArriveInv(tb: Table, r: Slot, d: Slot, rec: bool)
    requires QueueInv(tb) && r < |tb.procs| && d < |tb.procs|
    ensures QueueInv(Arrive(tb, r, d, rec))
  {
    var s, l := tb.procs[r], tb.procs[d];
    if r == d || s.Free() || s.IsLocal() || RmtOper in s.rts || Sending in s.rts
       || l.Free() || l.IsRemote() || Migrate in l.rts {
    } else {
      RunningUnlinked(tb, r);
      if Accepts(l, s.endpoint) {
        PutReceiver(tb, d, Delivered(l));
        var t := Put(tb, d, Delivered(l));
        if rec {
          PutFlags(t, r, s.(rts := s.rts + {Receiving}, getfrom := l.endpoint));
        } else {
          var a := Enqueued(tb.net, AckCmd(tb.net, CMD_SEND_ACK, s, l.endpoint, OK));
          PutFlags(t, r, a);
          if s.nodeid in tb.net.route {
            PushOutKeeps(Put(t, r, a), r);
          }
        }
      } else {
        var b := Blocked(s, l.endpoint, rec);
        PutFlags(tb, r, b);
        PushPKeeps(Put(tb, r, b), d, r);
      }
    }
  }

  lemma ReceiveInv(tb: Table, x: Slot, ep: int)
    requires QueueInv(tb) && x < |tb.procs|
    ensures QueueInv(Receive(tb, x, ep))
  {
    var me := tb.procs[x];
    if me.rts == {} {
      RunningUnlinked(tb, x);
      var hit := FirstFrom(tb, me.plist, ep);
      var bit := FirstBit(me.notify, 0, tb.nrSys);
      if bit < tb.nrSys {
        PutUnlinked(tb, x, me.(notify := me.notify - {bit}));
      } else if hit == [] {
        PutUnlinked(tb, x, me.(rts := {Receiving}, getfrom := ep));
      } else {
        assert hit[0] in hit;
        TakeInv(tb, hit[0], me.endpoint);
      }
    }
  }

  /** Taking sender y off the queue it is on and completing its send to endpoint ep. */
  lemma TakeInv(tb: Table, y: Slot, ep: int)
    requires QueueInv(tb) && y < |tb.procs|
    ensures
      var t := Dropping(tb, y, true, false, false);
      var s := t.procs[y];
      var ack := s.IsRemote() && Receiving !in s.rts;
      var a := if ack then Enqueued(tb.net, AckCmd(tb.net, CMD_SEND_ACK, s, ep, OK)) else s;
      var b := a.(rts := a.rts - {Sending}, sendto := NONE);
      var t' := Put(t, y, if b.rts == {} then Up(b, OK) else b);
      && QueueInv(t)
      && (!s.Free() ==> QueueInv(if ack && s.nodeid in tb.net.route then PushOut(t', y) else t'))
  {
    DroppingKeeps(tb, y, true, false, false);
    var t := Dropping(tb, y, true, false, false);
    var s := t.procs[y];
    if !s.Free() {
      var ack := s.IsRemote() && Receiving !in s.rts;
      var a := if ack then Enqueued(tb.net, AckCmd(tb.net, CMD_SEND_ACK, s, ep, OK)) else s;
      var b := a.(rts := a.rts - {Sending}, sendto := NONE);
      var c := if b.rts == {} then Up(b, OK) else b;
      PutFlags(t, y, c);
      if ack && s.nodeid in tb.net.route {
        PushOutKeeps(Put(t, y, c), y);
      }
    }
  }

  lemma WaitForUnbindInv(tb: Table, x: Slot, o: Slot)
    requires QueueInv(tb) && x < |tb.procs| && o < |tb.procs|
    ensures QueueInv(WaitForUnbind(tb, x, o))
  {
    if tb.procs[x].rts == {} && x != o && !tb.procs[o].Free() {
      RunningUnlinked(tb, x);
      var b := tb.procs[x].(rts := {WaitUnbind}, waitunbind := tb.procs[o].endpoint);
      PutUnlinked(tb, x, b);
      PushUKeeps(Put(tb, x, b), o, x);
    }
  }

  lemma UnbindTimeoutInv(tb: Table, x: Slot)
    requires QueueInv(tb) && x < |tb.procs|
    ensures QueueInv(UnbindTimeout(tb, x))
  {
    if WaitUnbind in tb.procs[x].rts {
      DroppingKeeps(tb, x, false, false, true);
      var t := Dropping(tb, x, false, false, true);
      assert OwnerOk(t, t.procs[x]);
      PutKeeps(t, x, t.procs[x].(rts := t.procs[x].rts - {WaitUnbind}, waitunbind := NONE));
    }
  }

  /** That exit keeps the invariant exactly if the waiter was unlinked before: it is not if a
      signal ended the sleep. */
  lemma UnbindWokenKeepsInvIff(tb: Table, x: Slot)
    requires QueueInv(tb) && x < |tb.procs| && !tb.procs[x].Free()
    ensures QueueInv(UnbindWoken(tb, x)) <==> !LinkedU(tb, x)
  {
    var b := tb.procs[x].(rts := tb.procs[x].rts - {WaitUnbind});
    assert OwnerOk(tb, tb.procs[x]);
    if !LinkedU(tb, x) {
      PutKeeps(tb, x, b);
    } else {
      PutLinks(tb, x, b);
      var o :| 0 <= o < |tb.procs| && x in Put(tb, x, b).procs[o].ulist;
    }
  }

  /** The error exit keeps the invariant exactly if SENDING is still set or no proxy holds the
      descriptor: else it leaves a link behind that its flags no longer account for. */
  lemma GiveUpKeepsInvIff(tb: Table, x: Slot, rmt: bool, rec: bool)
    requires QueueInv(tb) && x < |tb.procs| && !tb.procs[x].Free()
    requires (RmtOper in tb.procs[x].rts ==> rmt) && (Receiving in tb.procs[x].rts ==> rec)
    ensures QueueInv(GiveUp(tb, x, rmt, rec)) <==> Sending in tb.procs[x].rts || x !in tb.outq
  {
    assert OwnerOk(tb, tb.procs[x]);
    if Sending in tb.procs[x].rts {
      DroppingKeeps(tb, x, true, false, false);
      var t := Dropping(tb, x, true, false, false);
      PutFlags(t, x, GivenUp(t.procs[x], rmt, rec));
    } else if x !in tb.outq {
      assert !LinkedP(tb, x);
      PutFlags(tb, x, GivenUp(tb.procs[x], rmt, rec));
    }
  }

  lemma ReceiveExitInv(tb: Table, x: Slot)
    requires QueueInv(tb) && x < |tb.procs|
    ensures QueueInv(ReceiveExit(tb, x))
  {
    if !tb.procs[x].Free() {
      PutReceiver(tb, x, tb.procs[x].(rts := tb.procs[x].rts - {Receiving}, getfrom := NONE));
    }
  }

  lemma NotifyInv(tb: Table, x: Slot, d: Slot)
    requires QueueInv(tb) && x < |tb.procs| && d < |tb.procs|
    ensures QueueInv(Notify(tb, x, d))
  {
    var s, r := tb.procs[x], tb.procs[d];
    if !Ready(s) || s.sid >= tb.nrSys || x == d || r.Free() {
    } else if Migrate !in r.rts && r.IsRemote() {
      if r.nodeid in tb.net.route {
        RemoteSendInv(tb, x, d, false, CMD_NTFY_MSG);
      }
    } else if Migrate !in r.rts && Accepts(r, s.endpoint) {
      PutReceiver(tb, d, Delivered(r));
    } else {
      assert OwnerOk(tb, r);
      PutKeeps(tb, d, r.(notify := r.notify + {s.sid}));
    }
  }

  lemma ProxyTakeInv(tb: Table, x: Slot)
    requires QueueInv(tb)
    ensures QueueInv(ProxyTake(tb, x))
  {
    if x in tb.outq {
      DroppingKeeps(tb, x, true, false, false);
      var t := Dropping(tb, x, true, false, false);
      PutFlags(t, x, SentOff(t.procs[x]));
    }
  }

  /** A command the proxy turns down costs the process all its flags: the invariant is kept
      exactly if the process waits on no migration or unbinding queue. */
  lemma ProxyFailKeepsInvIff(tb: Table, x: Slot, rcode: int)
    requires QueueInv(tb) && x in tb.outq
    ensures QueueInv(ProxyFail(tb, x, rcode)) <==> !LinkedM(tb, x) && !LinkedU(tb, x)
  {
    DroppingKeeps(tb, x, true, false, false);
    DroppingLinks(tb, x);
    var t := Dropping(tb, x, true, false, false);
    var b := TurnedDown(t.procs[x], rcode);
    if !LinkedM(t, x) && !LinkedU(t, x) {
      assert OwnerOk(t, t.procs[x]);
      PutUnlinked(t, x, b);
    } else {
      StrippedBreaks(t, x, b);
    }
  }

  lemma FlushSenderInv(tb: Table, x: Slot, node: int)
    requires QueueInv(tb)
    ensures QueueInv(FlushSender(tb, x, node))
  {
    if FlushSender(tb, x, node) != tb {
      DroppingKeeps(tb, x, true, false, false);
      DroppingLinks(tb, x);
      var t := Dropping(tb, x, true, false, false);
      assert OwnerOk(t, t.procs[x]);
      if t.procs[x].IsRemote() {
        RemoteUnlinked(t, x);
        PutUnlinked(t, x, CutOff(t.procs[x]));
      } else {
        PutFlags(t, x, CutOff(t.procs[x]));
      }
    }
  }

  /** No local process is queued on a local one that is said to live on node. */
  ghost predicate NoneCut(tb: Table, node: int) {
    forall o, x: Slot {:trigger x in tb.procs[o].plist} ::
      0 <= o < |tb.procs| && x in tb.procs[o].plist && x < |tb.procs| && tb.procs[x].IsLocal() ==> tb.procs[o].nodeid != node
  }

  /** b is a, only that it may have stopped sending or receiving and been woken. */
  ghost predicate Eased(a: Proc, b: Proc) {
    b == a.(rts := b.rts, rcode := b.rcode, sem := b.sem) && a.rts - {Receiving, Sending} <= b.rts <= a.rts
  }

  lemma UnheardAt(tb: Table, node: int, x: Proc)
    ensures
      var y := Unheard(tb, node)(x);
      && Eased(x, y) && (x.Free() ==> y == x)
      && (Sending in x.rts && !x.Free() ==> (Sending in y.rts <==> x.IsRemote() || !LivesOn(tb, x.sendto, node)))
  {
  }

  ghost predicate AllEased(tb: Table, t: Table) {
    && t == tb.(procs := t.procs) && |t.procs| == |tb.procs|
    && forall j :: 0 <= j < |tb.procs| ==> Eased(tb.procs[j], t.procs[j]) && (tb.procs[j].Free() ==> t.procs[j] == tb.procs[j])
  }

  lemma EasedOwners(tb: Table, t: Table)
    requires QueueInv(tb) && AllEased(tb, t)
    ensures EndpointsOk(t) && OwnersOk(t) && OutqOk(t)
  {
    forall o | 0 <= o < |t.procs| ensures OwnerOk(t, t.procs[o]) {
      assert OwnerOk(tb, tb.procs[o]) && Eased(tb.procs[o], t.procs[o]);
    }
  }

  lemma EasedWaiters(tb: Table, t: Table)
    requires QueueInv(tb) && AllEased(tb, t)
    ensures MigrWaitersOk(t) && UnbindWaitersOk(t)
  {
    forall o, x: Slot | 0 <= o < |t.procs| && x in t.procs[o].mlist
      ensures && BoundSlot(t, x) && x != o && t.procs[x].IsLocal()
              && WaitMigr in t.procs[x].rts && t.procs[x].waitmigr == t.procs[o].endpoint
    {
      assert x in tb.procs[o].mlist && Eased(tb.procs[x], t.procs[x]);
    }
    forall o, x: Slot | 0 <= o < |t.procs| && x in t.procs[o].ulist
      ensures && BoundSlot(t, x) && x != o && t.procs[x].IsLocal()
              && WaitUnbind in t.procs[x].rts && t.procs[x].waitunbind == t.procs[o].endpoint
    {
      assert x in tb.procs[o].ulist && Eased(tb.procs[x], t.procs[x]);
    }
  }

  /** No process of the table has a magic endpoint. */
  lemma NotMagic(tb: Table, o: Slot, node: int)
    requires QueueInv(tb) && o < |tb.procs|
    ensures LivesOn(tb, tb.procs[o].endpoint, node) <==> tb.procs[o].nodeid == node
  {
    assert SlotOf(tb.nrTasks, tb.procs[o].endpoint) == o;
  }

  lemma QueuedCut(tb: Table, node: int, o: Slot, x: Slot)
    requires QueueInv(tb) && o < |tb.procs| && x in tb.procs[o].plist
    ensures Sending in FlushReceivers(tb, node).procs[x].rts <==> tb.procs[x].IsRemote() || tb.procs[o].nodeid != node
  {
    UnheardAt(tb, node, tb.procs[x]);
    NotMagic(tb, o, node);
  }

  /** The flush keeps the invariant exactly if it takes SENDING from no queued sender. */
  lemma FlushReceiversKeepsInvIff(tb: Table, node: int)
    requires QueueInv(tb)
    ensures QueueInv(FlushReceivers(tb, node)) <==> NoneCut(tb, node)
  {
    var t := FlushReceivers(tb, node);
    forall j | 0 <= j < |tb.procs| ensures Eased(tb.procs[j], t.procs[j]) && (tb.procs[j].Free() ==> t.procs[j] == tb.procs[j]) {
      UnheardAt(tb, node, tb.procs[j]);
    }
    EasedOwners(tb, t);
    EasedWaiters(tb, t);
    EasedSendersIff(tb, t, node);
  }

  lemma EasedSendersIff(tb: Table, t: Table, node: int)
    requires QueueInv(tb) && t == FlushReceivers(tb, node) && AllEased(tb, t)
    ensures SendersOk(t) <==> NoneCut(tb, node)
  {
    forall o, x: Slot | 0 <= o < |tb.procs| && x in tb.procs[o].plist
      ensures x < |tb.procs| && Eased(tb.procs[x], t.procs[x]) && Eased(tb.procs[o], t.procs[o])
      ensures Sending in t.procs[x].rts <==> tb.procs[x].IsRemote() || tb.procs[o].nodeid != node
    {
      QueuedCut(tb, node, o, x);
    }
  }

  lemma RemoteUnlinked(tb: Table, x: Slot)
    requires QueueInv(tb) && x < |tb.procs| && tb.procs[x].IsRemote()
    ensures !LinkedM(tb, x) && !LinkedU(tb, x)
  {
  }

  lemma DroppingLinks(tb: Table, y: Slot)
    ensures LinkedM(Dropping(tb, y, true, false, false), y) <==> LinkedM(tb, y)
    ensures LinkedU(Dropping(tb, y, true, false, false), y) <==> LinkedU(tb, y)
  {
    var t := Dropping(tb, y, true, false, false);
    assert forall o :: 0 <= o < |tb.procs| ==> t.procs[o].mlist == tb.procs[o].mlist && t.procs[o].ulist == tb.procs[o].ulist;
  }

  /** A descriptor on a waiting queue may neither lose its waiting flags nor become remote. */
  lemma StrippedBreaks(t: Table, y: Slot, b: Proc)
    requires QueueInv(t) && y < |t.procs| && (LinkedM(t, y) || LinkedU(t, y))
    requires b.plist == t.procs[y].plist && b.mlist == t.procs[y].mlist && b.ulist == t.procs[y].ulist
    requires b.IsRemote() || b.rts !! {WaitMigr, WaitUnbind}
    ensures !QueueInv(Put(t, y, b))
  {
    var u := Put(t, y, b);
    PutLinks(t, y, b);
    if LinkedM(u, y) {
      var o :| 0 <= o < |u.procs| && y in u.procs[o].mlist;
    } else {
      var o :| 0 <= o < |u.procs| && y in u.procs[o].ulist;
    }
  }

  lemma FreezeInv(tb: Table, p: Slot)
    requires QueueInv(tb) && p < |tb.procs|
    ensures QueueInv(Freeze(tb, p))
  {
    if !tb.procs[p].Free() {
      PutFlags(tb, p, tb.procs[p].(rts := tb.procs[p].rts + {Migrate}));
    }
  }

  lemma ThawInv(tb: Table, p: Slot, node: int)
    requires QueueInv(tb) && p < |tb.procs| && ListsOk(tb, p)
    ensures QueueInv(Thaw(tb, p, node))
  {
    var x := tb.procs[p];
    if !x.Free() {
      var b := x.(rts := x.rts - {Migrate}, misc := x.misc - {NeedMigr}, nodeid := node);
      PutFlags(tb, p, b);
      InvGivesLists(Put(tb, p, b), p);
      MigrDoneKeeps(Put(tb, p, b), p);
    }
  }

  lemma RollBackInv(tb: Table, p: Slot)
    requires QueueInv(tb) && p < |tb.procs| && ListsOk(tb, p)
    ensures QueueInv(RollBack(tb, p))
  {
    var x := tb.procs[p];
    if !x.Free() {
      var b := x.(rts := x.rts - {Migrate}, misc := x.misc - {NeedMigr});
      PutFlags(tb, p, b);
      InvGivesLists(Put(tb, p, b), p);
      MigrDoneKeeps(Put(tb, p, b), p);
      var t := Drained(Put(tb, p, b), MigrDone, p);
      if x.IsLocal() && t.procs[p].rts == {} {
        PutFlags(t, p, Up(t.procs[p], OK));
      }
    }
  }

  lemma SendAckInv(tb: Table, r: Slot, l: Slot, rcode: int)
    requires QueueInv(tb) && r < |tb.procs| && l < |tb.procs|
    ensures QueueInv(SendAck(tb, r, l, rcode))
  {
    var s, d := tb.procs[r], tb.procs[l];
    if s.Free() || s.IsLocal() || d.Free() || d.IsRemote() || Sending in s.rts || Sending !in d.rts
       || d.sendto != s.endpoint {
    } else {
      assert OwnerOk(tb, s) && OwnerOk(tb, d);
      assert !OnSenders(tb, l);
      var e := d.(rts := d.rts - {Sending}, sendto := NONE);
      PutKeeps(tb, l, if e.rts == {} then Up(e, rcode) else e);
    }
  }

  /** Draining a queue of p does not depend on the other fields of p. */
  lemma DrainPut(tb: Table, p: Slot, z: Proc, kind: DrainKind)
    requires ListsOk(tb, p) && kind in {SendersReplay, MigrDone}
    requires z.endpoint == tb.procs[p].endpoint && QueueOf(kind, z) == QueueOf(kind, tb.procs[p])
    ensures ListOk(Put(tb, p, z), p, QueueOf(kind, z))
    ensures Drained(Put(tb, p, z), kind, p) == Put(Drained(tb, kind, p), p, WithQueue(kind, z, []))
  {
    var q, f, g := QueueOf(kind, z), After(tb.net, kind, z.endpoint), Joins(tb.net, kind);
    assert Sweep(tb.procs[p := z], q, f)[p := WithQueue(kind, z, [])]
        == Sweep(tb.procs, q, f)[p := WithQueue(kind, z, [])];
    PickPut(tb.procs, p, z, q, g);
  }

  lemma PickPut<T>(s: seq<T>, p: Slot, z: T, q: seq<Slot>, g: T -> bool)
    requires p < |s| && p !in q
    ensures Pick(s[p := z], q, g) == Pick(s, q, g)
  {
    if q != [] {
      PickPut(s, p, z, q[..|q| - 1], g);
    }
  }

  /** Both queues of p drained, p otherwise untouched. */
  function Flushed(tb: Table, p: Slot): (r: Table)
    requires ListsOk(tb, p)
    ensures |r.procs| == |tb.procs| && r.procs[p] == tb.procs[p].(plist := [], mlist := [])
  {
    Drained(Drained(tb, SendersReplay, p), MigrDone, p)
  }

  lemma LeaveNodeShape(tb: Table, p: Slot, node: int)
    requires ListsOk(tb, p) && Migrate in tb.procs[p].rts && tb.procs[p].IsLocal()
    ensures LeaveNode(tb, p, node) == Put(Flushed(tb, p), p, BecomeRemote(tb.procs[p], node).(plist := [], mlist := []))
  {
    var z := BecomeRemote(tb.procs[p], node);
    DrainPut(tb, p, z, SendersReplay);
    DrainPut(Drained(tb, SendersReplay, p), p, z.(plist := []), MigrDone);
  }

  /** Flushing the queues of p leaves p itself where it waits. */
  lemma FlushedLinks(tb: Table, p: Slot)
    requires ListsOk(tb, p)
    ensures LinkedM(Flushed(tb, p), p) <==> LinkedM(tb, p)
    ensures LinkedU(Flushed(tb, p), p) <==> LinkedU(tb, p)
  {
    var t := Drained(tb, SendersReplay, p);
    var u := Flushed(tb, p);
    forall o | 0 <= o < |tb.procs| && o != p
      ensures u.procs[o].mlist == tb.procs[o].mlist && u.procs[o].ulist == tb.procs[o].ulist
    {
      DrainAt(tb, SendersReplay, p, o);
      DrainAt(t, MigrDone, p, o);
    }
  }

  /** Commit on the old node keeps the invariant exactly if the process itself waits on no
      migration or unbinding queue, whose members are local. */
  lemma LeaveNodeKeepsInvIff(tb: Table, p: Slot, node: int)
    requires QueueInv(tb) && ListsOk(tb, p) && Migrate in tb.procs[p].rts && tb.procs[p].IsLocal()
    ensures QueueInv(LeaveNode(tb, p, node)) <==> !LinkedM(tb, p) && !LinkedU(tb, p)
  {
    assert OwnerOk(tb, tb.procs[p]);
    LeaveNodeShape(tb, p, node);
    FlushedLinks(tb, p);
    var t := Drained(tb, SendersReplay, p);
    SendersReplayKeeps(tb, p);
    InvGivesLists(t, p);
    MigrDoneKeeps(t, p);
    LeaveFlushedIff(Flushed(tb, p), p, tb.procs[p], node);
  }

  lemma LeaveFlushedIff(u: Table, p: Slot, x: Proc, node: int)
    requires QueueInv(u) && p < |u.procs| && u.procs[p] == x.(plist := [], mlist := []) && !x.Free()
    ensures
      QueueInv(Put(u, p, BecomeRemote(x, node).(plist := [], mlist := []))) <==> !LinkedM(u, p) && !LinkedU(u, p)
  {
    var b := BecomeRemote(x, node).(plist := [], mlist := []);
    assert OwnerOk(u, u.procs[p]);
    if !LinkedM(u, p) && !LinkedU(u, p) {
      PutKeeps(u, p, b);
    } else {
      StrippedBreaks(u, p, b);
    }
  }

  /** new_migrate resets the flags of a descriptor that may still be queued: it keeps the
      invariant exactly when the link of the descriptor is on no queue. */
  lemma EnterNodeKeepsInvIff(tb: Table, p: Slot)
    requires QueueInv(tb) && p < |tb.procs| && !tb.procs[p].Free() && tb.procs[p].IsRemote()
    ensures QueueInv(EnterNode(tb, p)) <==> !LinkedP(tb, p)
  {
    var b := tb.procs[p].(rts := {}, nodeid := tb.net.local);
    assert !LinkedM(tb, p) && !LinkedU(tb, p);
    if !LinkedP(tb, p) {
      PutUnlinked(tb, p, b);
    } else if OnSenders(tb, p) {
      PutLinks(tb, p, b);
      var t := Put(tb, p, b);
      assert LinkedP(t, p);
      var o :| 0 <= o < |t.procs| && p in t.procs[o].plist;
    }
  }

  // ---- runs ----

  datatype Event =
    | EvBind(i: Slot, node: int)
    | EvAutobind(i: Slot, ep: int, node: int)
    | EvSend(x: Slot, d: Slot, rec: bool)
    | EvResend(x: Slot, d: Slot, rec: bool)
    | EvWarn(c: Slot, w: Slot)
    | EvArrive(r: Slot, d: Slot, rec: bool)
    | EvReceive(x: Slot, ep: int)
    | EvReceiveExit(x: Slot)
    | EvWaitUnbind(x: Slot, o: Slot)
    | EvUnbindTimeout(x: Slot)
    | EvUnbindWoken(x: Slot)
    | EvGiveUp(x: Slot, rmt: bool, rec: bool)
    | EvNotify(x: Slot, d: Slot)
    | EvProxyTake(x: Slot)
    | EvProxyFail(x: Slot, rcode: int)
    | EvFlushSender(x: Slot, node: int)
    | EvFlushReceivers(node: int)
    | EvSendAck(r: Slot, l: Slot, rcode: int)
    | EvFreeze(p: Slot)
    | EvRollback(p: Slot)
    | EvThaw(p: Slot, node: int)
    | EvLeave(p: Slot, node: int)
    | EvEnter(p: Slot)
    | EvUnbind(p: Slot)
    | EvRewire(nodes: set<int>, route: map<int, int>)

  predicate IsIpc(e: Event) {
    || e.EvSend? || e.EvWarn? || e.EvArrive? || e.EvReceive? || e.EvReceiveExit? || e.EvNotify?
    || e.EvProxyTake? || e.EvSendAck?
  }

  predicate IsWait(e: Event) {
    || e.EvBind? || e.EvAutobind? || e.EvWaitUnbind? || e.EvUnbindTimeout? || e.EvFreeze? || e.EvRollback? || e.EvThaw?
    || e.EvFlushSender?
  }

  function IpcStep(tb: Table, e: Event): Table
    requires IsIpc(e)
  {
    var n := |tb.procs|;
    match e
    case EvSend(x, d, rec) => if x < n && d < n then Send(tb, x, d, rec) else tb
    case EvWarn(c, w) => if c < n && w < n then Warn(tb, c, w) else tb
    case EvArrive(r, d, rec) => if r < n && d < n then Arrive(tb, r, d, rec) else tb
    case EvReceive(x, ep) => if x < n then Receive(tb, x, ep) else tb
    case EvReceiveExit(x) => if x < n then ReceiveExit(tb, x) else tb
    case EvNotify(x, d) => if x < n && d < n then Notify(tb, x, d) else tb
    case EvProxyTake(x) => ProxyTake(tb, x)
    case EvSendAck(r, l, rcode) => if r < n && l < n then SendAck(tb, r, l, rcode) else tb
  }

  function WaitStep(tb: Table, e: Event): Table
    requires IsWait(e)
  {
    var n := |tb.procs|;
    match e
    case EvBind(i, node) => if i < n then Bind(tb, i, node) else tb
    case EvAutobind(i, ep, node) => if i < n then Autobind(tb, i, ep, node) else tb
    case EvWaitUnbind(x, o) => if x < n && o < n then WaitForUnbind(tb, x, o) else tb
    case EvUnbindTimeout(x) => if x < n then UnbindTimeout(tb, x) else tb
    case EvFreeze(p) => if p < n then Freeze(tb, p) else tb
    case EvRollback(p) => if ListsOk(tb, p) then RollBack(tb, p) else tb
    case EvThaw(p, node) => if ListsOk(tb, p) then Thaw(tb, p, node) else tb
    case EvFlushSender(x, node) => FlushSender(tb, x, node)
  }

  function UnbindOf(tb: Table, p: Slot): Table {
    if ListsOk(tb, p) && !tb.procs[p].Free() then Unbound(tb, p) else tb
  }

  /** The steps that do not always keep the invariant. */
  function HardStep(tb: Table, e: Event): Table
    requires !IsIpc(e) && !IsWait(e)
  {
    var n := |tb.procs|;
    match e
    case EvResend(x, d, rec) => if x < n && d < n then Resend(tb, x, d, rec) else tb
    case EvGiveUp(x, rmt, rec) => if x < n then GiveUp(tb, x, rmt, rec) else tb
    case EvUnbindWoken(x) => if x < n then UnbindWoken(tb, x) else tb
    case EvProxyFail(x, rcode) => ProxyFail(tb, x, rcode)
    case EvFlushReceivers(node) => FlushReceivers(tb, node)
    case EvLeave(p, node) => if ListsOk(tb, p) then LeaveNode(tb, p, node) else tb
    case EvEnter(p) => if p < n then EnterNode(tb, p) else tb
    case EvUnbind(p) => UnbindOf(tb, p)
    case EvRewire(nodes, route) => tb.(nodes := nodes, net := tb.net.(route := route))
  }

  function Step(tb: Table, e: Event): Table {
    if IsIpc(e) then IpcStep(tb, e) else if IsWait(e) then WaitStep(tb, e) else HardStep(tb, e)
  }

  /** The steps that can break the invariant, each with its exact condition. */
  ghost predicate Legal(tb: Table, e: Event) {
    var n := |tb.procs|;
    match e
    case EvUnbind(p) => p < n && !tb.procs[p].Free() ==> !DoubleAck(tb, p)
    case EvEnter(p) => p < n && !tb.procs[p].Free() && tb.procs[p].IsRemote() ==> !LinkedP(tb, p)
    case EvLeave(p, _) =>
      p < n && Migrate in tb.procs[p].rts && tb.procs[p].IsLocal() ==> !LinkedM(tb, p) && !LinkedU(tb, p)
    case EvResend(x, d, _) =>
      x < n && d < n && Ready(tb.procs[x]) && x != d && !tb.procs[d].Free() && Migrate in tb.procs[d].rts ==>
        tb.procs[x].IsLocal() && !LinkedM(tb, x)
    case EvGiveUp(x, rmt, rec) =>
      x < n && !tb.procs[x].Free() && (RmtOper in tb.procs[x].rts ==> rmt) && (Receiving in tb.procs[x].rts ==> rec) ==>
        Sending in tb.procs[x].rts || x !in tb.outq
    case EvUnbindWoken(x) => x < n && !tb.procs[x].Free() ==> !LinkedU(tb, x)
    case EvProxyFail(x, _) => x in tb.outq ==> !LinkedM(tb, x) && !LinkedU(tb, x)
    case EvFlushReceivers(node) => NoneCut(tb, node)
    case EvRewire(_, route) => forall n :: n in route ==> route[n] != NONE
    case _ => true
  }

  lemma RewireInv(tb: Table, nodes: set<int>, route: map<int, int>)
    requires QueueInv(tb)
    ensures QueueInv(tb.(nodes := nodes, net := tb.net.(route := route))) <==> forall n :: n in route ==> route[n] != NONE
  {
    var t := tb.(nodes := nodes, net := tb.net.(route := route));
    forall o | 0 <= o < |t.procs| ensures OwnerOk(t, t.procs[o]) {
      assert OwnerOk(tb, tb.procs[o]);
    }
    assert SendersOk(t) && MigrWaitersOk(t) && UnbindWaitersOk(t) && OutqOk(t);
  }

  lemma IpcStepInv(tb: Table, e: Event)
    requires QueueInv(tb) && IsIpc(e)
    ensures QueueInv(IpcStep(tb, e))
  {
    var n := |tb.procs|;
    match e
    case EvSend(x, d, rec) => if x < n && d < n { SendInv(tb, x, d, rec); }
    case EvWarn(c, w) => if c < n && w < n { WarnInv(tb, c, w); }
    case EvArrive(r, d, rec) => if r < n && d < n { ArriveInv(tb, r, d, rec); }
    case EvReceive(x, ep) => if x < n { ReceiveInv(tb, x, ep); }
    case EvReceiveExit(x) => if x < n { ReceiveExitInv(tb, x); }
    case EvNotify(x, d) => if x < n && d < n { NotifyInv(tb, x, d); }
    case EvProxyTake(x) => ProxyTakeInv(tb, x);
    case EvSendAck(r, l, rcode) => if r < n && l < n { SendAckInv(tb, r, l, rcode); }
  }

  lemma WaitStepInv(tb: Table, e: Event)
    requires QueueInv(tb) && IsWait(e)
    ensures QueueInv(WaitStep(tb, e))
  {
    var n := |tb.procs|;
    match e
    case EvBind(i, node) => if i < n { BindInv(tb, i, node); }
    case EvAutobind(i, ep, node) => if i < n { AutobindInv(tb, i, ep, node); }
    case EvWaitUnbind(x, o) => if x < n && o < n { WaitForUnbindInv(tb, x, o); }
    case EvUnbindTimeout(x) => if x < n { UnbindTimeoutInv(tb, x); }
    case EvFreeze(p) => if p < n { FreezeInv(tb, p); }
    case EvRollback(p) => if p < n { InvGivesLists(tb, p); RollBackInv(tb, p); }
    case EvThaw(p, node) => if p < n { InvGivesLists(tb, p); ThawInv(tb, p, node); }
    case EvFlushSender(x, node) => FlushSenderInv(tb, x, node);
  }

  lemma HardStepKeepsInvIff(tb: Table, e: Event)
    requires QueueInv(tb) && !IsIpc(e) && !IsWait(e)
    ensures QueueInv(HardStep(tb, e)) <==> Legal(tb, e)
  {
    var n := |tb.procs|;
    match e
    case EvResend(x, d, rec) =>
      if x < n && d < n && Ready(tb.procs[x]) && x != d && !tb.procs[d].Free() { ResendKeepsInvIff(tb, x, d, rec); }
    case EvGiveUp(x, rmt, rec) =>
      if x < n && !tb.procs[x].Free() && (RmtOper in tb.procs[x].rts ==> rmt) && (Receiving in tb.procs[x].rts ==> rec) {
        GiveUpKeepsInvIff(tb, x, rmt, rec);
      }
    case EvUnbindWoken(x) => if x < n && !tb.procs[x].Free() { UnbindWokenKeepsInvIff(tb, x); }
    case EvProxyFail(x, rcode) => if x in tb.outq { ProxyFailKeepsInvIff(tb, x, rcode); }
    case EvFlushReceivers(node) => FlushReceiversKeepsInvIff(tb, node);
    case EvLeave(p, node) =>
      if p < n && Migrate in tb.procs[p].rts && tb.procs[p].IsLocal() {
        InvGivesLists(tb, p);
        LeaveNodeKeepsInvIff(tb, p, node);
      }
    case EvEnter(p) => if p < n && !tb.procs[p].Free() && tb.procs[p].IsRemote() { EnterNodeKeepsInvIff(tb, p); }
    case EvUnbind(p) => if p < n { InvGivesLists(tb, p); UnbindKeepsInvIff(tb, p); }
    case EvRewire(nodes, route) => RewireInv(tb, nodes, route);
  }

  /** A step of a DC keeps the invariant if and only if it is legal. */
  lemma StepKeepsInvIff(tb: Table, e: Event)
    requires QueueInv(tb)
    ensures QueueInv(Step(tb, e)) <==> Legal(tb, e)
  {
    if IsIpc(e) {
      IpcStepInv(tb, e);
    } else if IsWait(e) {
      WaitStepInv(tb, e);
    } else {
      HardStepKeepsInvIff(tb, e);
    }
  }

  /** A run: tables ts joined by legal events es. */
  ghost predicate IsRun(ts: seq<Table>, es: seq<Event>) {
    && |ts| == |es| + 1
    && forall i :: 0 <= i < |es| ==> Legal(ts[i], es[i]) && ts[i + 1] == Step(ts[i], es[i])
  }

  /** The table mm_dc_init builds. */
  ghost predicate Fresh(tb: Table) {
    && tb.nrTasks <= NR_TASKS && |tb.procs| <= 256 && tb.outq == []
    && (forall n :: n in tb.net.route ==> tb.net.route[n] != NONE)
    && forall i :: 0 <= i < |tb.procs| ==>
         tb.procs[i] == InitProc(tb.procs[i], tb.dcid).(endpoint := i - tb.nrTasks, sem := 1)
  }

  lemma FreshSlot(tb: Table, i: Slot)
    requires Fresh(tb) && i < |tb.procs|
    ensures OwnerOk(tb, tb.procs[i]) && SlotOf(tb.nrTasks, tb.procs[i].endpoint) == i
    ensures tb.procs[i].plist == [] && tb.procs[i].mlist == [] && tb.procs[i].ulist == []
  {
    assert tb.procs[i].endpoint == i - tb.nrTasks;
  }

  lemma FreshInv(tb: Table)
    requires Fresh(tb)
    ensures QueueInv(tb)
  {
    forall i: Slot | i < |tb.procs|
      ensures OwnerOk(tb, tb.procs[i]) && SlotOf(tb.nrTasks, tb.procs[i].endpoint) == i
      ensures tb.procs[i].plist == [] && tb.procs[i].mlist == [] && tb.procs[i].ulist == []
    {
      FreshSlot(tb, i);
    }
  }

  /** The queue invariant over every run of a DC: in every table reached, a descriptor is
      queued on another only while its flag is set and its target names that owner, so
      flush_migr_list never meets a waiter of another endpoint. */
  lemma {:induction false} EveryRunKeepsQueues(ts: seq<Table>, es: seq<Event>, k: nat)
    requires IsRun(ts, es) && Fresh(ts[0]) && k < |ts|
    ensures QueueInv(ts[k])
    ensures forall p: Slot, x: Slot :: p < |ts[k].procs| && x in ts[k].procs[p].mlist ==>
              x < |ts[k].procs| && ts[k].procs[x].waitmigr == ts[k].procs[p].endpoint
  {
    if k == 0 {
      FreshInv(ts[0]);
    } else {
      EveryRunKeepsQueues(ts, es, k - 1);
      StepKeepsInvIff(ts[k - 1], es[k - 1]);
    }
  }

  // ---- runs in which these conditions fail ----

  /** A DC with one local process in slot 0 and a second process in slot 1 on node. */
  ghost function TwoBound(tb: Table, node: int): Table
    requires |tb.procs| >= 2
  {
    Bind(Bind(tb, 0, tb.net.local), 1, node)
  }

  lemma TwoBoundOk(tb: Table, node: int)
    requires Fresh(tb) && |tb.procs| >= 2 && {tb.net.local, node} <= tb.nodes
    ensures
      var t := TwoBound(tb, node);
      && QueueInv(t) && |t.procs| == |tb.procs| && t.net == tb.net && t.outq == [] && t.procs[0].rts == {}
      && t.procs[1].rts == (if node == tb.net.local then {} else {Remote}) && t.procs[1].nodeid == node
      && t.procs[0].endpoint != t.procs[1].endpoint && t.procs[1].getfrom == NONE
      && t.procs[0].plist == [] && t.procs[1].plist == [] && t.procs[1].mlist == [] && t.procs[1].ulist == []
  {
    FreshInv(tb);
    BindInv(tb, 0, tb.net.local);
    BindInv(Bind(tb, 0, tb.net.local), 1, node);
  }

  /** do_unbind: a remote sendrec request that finds its local destination not receiving,
      followed by the destination's unbinding. */
  lemma RemoteSendrecThenUnbind(tb: Table, r: Slot, p: Slot)
    requires QueueInv(tb) && r < |tb.procs| && p < |tb.procs| && r != p
    requires tb.procs[r].rts == {Remote} && tb.procs[r].nodeid in tb.net.route && tb.procs[p].rts == {}
    ensures
      var t := Arrive(tb, r, p, true);
      QueueInv(t) && |t.procs| == |tb.procs| && DoubleAck(t, p) && ListsOk(t, p) && !QueueInv(Unbound(t, p))
  {
    ArriveInv(tb, r, p, true);
    var t := Arrive(tb, r, p, true);
    assert t.procs[p].plist == tb.procs[p].plist + [r];
    assert LinkedTwice(t, p, r);
    UnbindKeepsInvIff(t, p);
  }

  /** Two binds and one request in a fresh DC reach that family. */
  lemma UnbindCanFail(tb: Table, node: int)
    requires Fresh(tb) && |tb.procs| >= 2 && {tb.net.local, node} <= tb.nodes
    requires node != tb.net.local && node in tb.net.route
    ensures
      var t := Arrive(TwoBound(tb, node), 1, 0, true);
      QueueInv(t) && ListsOk(t, 0) && !QueueInv(Unbound(t, 0))
  {
    TwoBoundOk(tb, node);
    RemoteSendrecThenUnbind(TwoBound(tb, node), 1, 0);
  }

  /** Process 0 waits for the answer of remote process 1, its request still with the proxy. */
  ghost predicate Left(t: Table) {
    && |t.procs| >= 2 && t.procs[0].rts == {Sending, Receiving, RmtOper}
    && t.procs[0].getfrom == t.procs[1].endpoint && t.procs[1].rts == {Remote}
    && t.procs[1].plist == [] && t.procs[1].mlist == [] && t.procs[1].ulist == [] && t.outq == [0]
  }

  ghost predicate StillWaits(a: Proc, b: Proc) {
    b.sem <= a.sem && Sending in b.rts && Receiving in b.rts
  }

  /** A local process whose sendrec to a remote one still waits for the sender proxy is not woken
      when the remote one is unbound, and goes on waiting. */
  lemma ReceiverCanBeLeft(tb: Table, node: int)
    requires Fresh(tb) && |tb.procs| >= 2 && {tb.net.local, node} <= tb.nodes
    requires node != tb.net.local && node in tb.net.route
    ensures
      var t := Send(TwoBound(tb, node), 0, 1, true);
      && QueueInv(t) && Left(t) && ListsOk(t, 1) && Legal(t, EvUnbind(1))
      && |Unbound(t, 1).procs| == |t.procs| && StillWaits(t.procs[0], Unbound(t, 1).procs[0])
  {
    TwoBoundOk(tb, node);
    var a := TwoBound(tb, node);
    SendInv(a, 0, 1, true);
    SentIsLeft(a);
    StaysLeft(Send(a, 0, 1, true));
  }

  lemma StaysLeft(t: Table)
    requires QueueInv(t) && Left(t)
    ensures ListsOk(t, 1) && !DoubleAck(t, 1)
    ensures |Unbound(t, 1).procs| == |t.procs| && StillWaits(t.procs[0], Unbound(t, 1).procs[0])
  {
    ReceiverWokenIff(t, 1, 0);
    UnboundKeepsWaits(t, 1, 0);
    KeptWaiting(t, Unbound(t, 1).procs[0]);
    SendingNotTwice(t);
  }

  lemma SentIsLeft(a: Table)
    requires |a.procs| >= 2 && a.procs[0].rts == {} && a.procs[1].rts == {Remote} && a.procs[1].nodeid in a.net.route
    requires a.procs[1].plist == [] && a.procs[1].mlist == [] && a.procs[1].ulist == [] && a.outq == []
    ensures Left(Send(a, 0, 1, true)) && |Send(a, 0, 1, true).procs| == |a.procs|
  {
  }

  lemma KeptWaiting(t: Table, b: Proc)
    requires Left(t) && KeepsWaits(t, 1, 0, b)
    ensures Sending in b.rts && Receiving in b.rts
  {
  }

  lemma SendingNotTwice(t: Table)
    requires |t.procs| >= 2 && t.procs[0].IsLocal() && t.procs[1].plist == [] && t.outq == [0]
    ensures !DoubleAck(t, 1)
  {
  }

  /** new_migrate: a message of the remote process is queued on a busy local one when the remote
      process enters this node. */
  lemma EnterCanFail(tb: Table, node: int, rec: bool)
    requires Fresh(tb) && |tb.procs| >= 2 && {tb.net.local, node} <= tb.nodes && node != tb.net.local
    ensures
      var t := Arrive(TwoBound(tb, node), 1, 0, rec);
      QueueInv(t) && |t.procs| == |tb.procs| && !QueueInv(EnterNode(t, 1))
  {
    TwoBoundOk(tb, node);
    var a := TwoBound(tb, node);
    ArriveInv(a, 1, 0, rec);
    var t := Arrive(a, 1, 0, rec);
    assert t.procs[0].plist == [1];
    EnterNodeKeepsInvIff(t, 1);
  }

  /** A send to a frozen process that times out. */
  lemma ResendCanFail(tb: Table, rec: bool)
    requires Fresh(tb) && |tb.procs| >= 2 && tb.net.local in tb.nodes
    ensures
      var t := Send(Freeze(TwoBound(tb, tb.net.local), 1), 0, 1, rec);
      QueueInv(t) && |t.procs| == |tb.procs| && !QueueInv(Resend(t, 0, 1, rec))
  {
    TwoBoundOk(tb, tb.net.local);
    var a := TwoBound(tb, tb.net.local);
    FreezeInv(a, 1);
    SendInv(Freeze(a, 1), 0, 1, rec);
    var t := Send(Freeze(a, 1), 0, 1, rec);
    assert t.procs[1].mlist == [0];
    ResendKeepsInvIff(t, 0, 1, rec);
  }

  /** The same send to a remote process whose migration is rolled back, which leaves the sender
      linked; the sender is marked to migrate itself while it sleeps, and sends when it times
      out. */
  ghost function StaleWaiter(tb: Table, node: int): Table
    requires |tb.procs| >= 2
  {
    var t := Send(Freeze(TwoBound(tb, node), 1), 0, 1, false);
    var u := if |t.procs| >= 2 && ListsOk(t, 1) then RollBack(t, 1) else t;
    if |u.procs| >= 2 && |Freeze(u, 0).procs| >= 2 then Resend(Freeze(u, 0), 0, 1, false) else u
  }

  /** The first two steps, up to the rollback. */
  lemma LeftLinked(tb: Table, node: int)
    requires Fresh(tb) && |tb.procs| >= 2 && {tb.net.local, node} <= tb.nodes && node != tb.net.local
    ensures
      var t := Send(Freeze(TwoBound(tb, node), 1), 0, 1, false);
      && QueueInv(t) && |t.procs| == |tb.procs| && t.net == tb.net && t.outq == [] && t.procs[1].nodeid == node
      && t.procs[1].mlist == [0] && t.procs[1].rts == {Remote, Migrate} && t.procs[0].rts == {WaitMigr}
  {
    TwoBoundOk(tb, node);
    var a := TwoBound(tb, node);
    FreezeInv(a, 1);
    SendInv(Freeze(a, 1), 0, 1, false);
  }

  lemma StaleWaiterOk(tb: Table, node: int)
    requires Fresh(tb) && |tb.procs| >= 2 && {tb.net.local, node} <= tb.nodes
    requires node != tb.net.local && node in tb.net.route
    ensures
      var t := StaleWaiter(tb, node);
      && QueueInv(t) && |t.procs| == |tb.procs| && t.procs[1].mlist == [0] && t.outq == [0]
      && Migrate in t.procs[0].rts && t.procs[0].IsLocal()
  {
    LeftLinked(tb, node);
    var t := Send(Freeze(TwoBound(tb, node), 1), 0, 1, false);
    InvGivesLists(t, 1);
    RollBackInv(t, 1);
    var v := Freeze(RollBack(t, 1), 0);
    FreezeInv(RollBack(t, 1), 0);
    assert v.procs[1].mlist == [0] && v.procs[1].rts == {Remote} && v.procs[0].rts == {WaitMigr, Migrate};
    StaleSend(v, node);
  }

  lemma StaleSend(v: Table, node: int)
    requires QueueInv(v) && |v.procs| >= 2 && v.outq == [] && node in v.net.route && v.procs[1].nodeid == node
    requires v.procs[1].mlist == [0] && v.procs[1].rts == {Remote} && v.procs[0].rts == {WaitMigr, Migrate}
    ensures
      var t := Resend(v, 0, 1, false);
      && QueueInv(t) && |t.procs| == |v.procs| && t.procs[1].mlist == [0] && t.outq == [0]
      && Migrate in t.procs[0].rts && t.procs[0].IsLocal()
  {
    ResendKeepsInvIff(v, 0, 1, false);
  }

  /** Then neither its own commit nor a failure of the proxy keeps the invariant. */
  lemma LeaveAndProxyCanFail(tb: Table, node: int, to: int, rcode: int)
    requires Fresh(tb) && |tb.procs| >= 2 && {tb.net.local, node} <= tb.nodes
    requires node != tb.net.local && node in tb.net.route
    ensures
      var t := StaleWaiter(tb, node);
      && QueueInv(t) && ListsOk(t, 0) && !QueueInv(LeaveNode(t, 0, to)) && !QueueInv(ProxyFail(t, 0, rcode))
  {
    StaleWaiterOk(tb, node);
    var t := StaleWaiter(tb, node);
    InvGivesLists(t, 0);
    assert 0 in t.procs[1].mlist;
    assert LinkedM(t, 0);
    LeaveNodeKeepsInvIff(t, 0, to);
    ProxyFailKeepsInvIff(t, 0, rcode);
  }

  /** A signal during mm_wait4bind. */
  lemma UnbindWokenCanFail(tb: Table)
    requires Fresh(tb) && |tb.procs| >= 2 && tb.net.local in tb.nodes
    ensures
      var t := WaitForUnbind(TwoBound(tb, tb.net.local), 0, 1);
      QueueInv(t) && |t.procs| == |tb.procs| && !QueueInv(UnbindWoken(t, 0))
  {
    TwoBoundOk(tb, tb.net.local);
    var a := TwoBound(tb, tb.net.local);
    WaitForUnbindInv(a, 0, 1);
    var t := WaitForUnbind(a, 0, 1);
    assert t.procs[1].ulist == [0];
    UnbindWokenKeepsInvIff(t, 0);
  }

  lemma Extend(ts: seq<Table>, es: seq<Event>, e: Event) returns (ts': seq<Table>, es': seq<Event>)
    requires IsRun(ts, es) && Legal(ts[|es|], e)
    ensures IsRun(ts', es') && ts'[0] == ts[0] && ts'[|es'|] == Step(ts[|es|], e)
  {
    ts', es' := ts + [Step(ts[|es|], e)], es + [e];
  }

  /** Process 0 has the given flags towards remote process 1, and the given proxy queue waits. */
  ghost predicate Towards(tb: Table, t: Table, rts: set<RtsFlag>, q: seq<Slot>) {
    && |t.procs| == |tb.procs| >= 2 && t.net == tb.net && t.outq == q && t.procs[0].rts == rts
    && t.procs[1].rts == {Remote} && t.procs[1].nodeid in t.net.route
    && (Sending in rts ==> t.procs[0].sendto == t.procs[1].endpoint)
    && (RmtOper in rts ==> t.procs[0].cmd.cmd == CMD_SEND_MSG)
  }

  /** A run from tb to such a table. */
  ghost predicate Reaches(tb: Table, ts: seq<Table>, es: seq<Event>, rts: set<RtsFlag>, q: seq<Slot>) {
    IsRun(ts, es) && ts[0] == tb && Towards(tb, ts[|es|], rts, q)
  }

  lemma BothBound(tb: Table, node: int) returns (ts: seq<Table>, es: seq<Event>)
    requires Fresh(tb) && |tb.procs| >= 2 && {tb.net.local, node} <= tb.nodes
    requires node != tb.net.local && node in tb.net.route
    ensures Reaches(tb, ts, es, {}, [])
  {
    TwoBoundOk(tb, node);
    ts, es := Extend([tb], [], EvBind(0, tb.net.local));
    ts, es := Extend(ts, es, EvBind(1, node));
  }

  lemma SendsOut(tb: Table, ts: seq<Table>, es: seq<Event>) returns (ts': seq<Table>, es': seq<Event>)
    requires Reaches(tb, ts, es, {}, [])
    ensures Reaches(tb, ts', es', {Sending, RmtOper}, [0])
  {
    ts', es' := Extend(ts, es, EvSend(0, 1, false));
  }

  lemma GoesOut(tb: Table, ts: seq<Table>, es: seq<Event>) returns (ts': seq<Table>, es': seq<Event>)
    requires Reaches(tb, ts, es, {Sending, RmtOper}, [0])
    ensures Reaches(tb, ts', es', {Sending}, [])
  {
    ts', es' := Extend(ts, es, EvProxyTake(0));
  }

  lemma IsGivenUp(tb: Table, ts: seq<Table>, es: seq<Event>) returns (ts': seq<Table>, es': seq<Event>)
    requires Reaches(tb, ts, es, {Sending}, [])
    ensures Reaches(tb, ts', es', {}, [])
  {
    ts', es' := Extend(ts, es, EvGiveUp(0, true, false));
  }

  lemma IsAcked(tb: Table, ts: seq<Table>, es: seq<Event>) returns (ts': seq<Table>, es': seq<Event>)
    requires Reaches(tb, ts, es, {Sending, RmtOper}, [0])
    ensures Reaches(tb, ts', es', {RmtOper}, [0])
  {
    ts', es' := Extend(ts, es, EvSendAck(1, 0, OK));
  }

  /** A send goes out and is given up; the acknowledgement comes late and finds the next send of
      the process, whose command is still with the proxy. Giving that one up leaves the link. */
  lemma GiveUpCanFail(tb: Table, node: int) returns (ts: seq<Table>, es: seq<Event>)
    requires Fresh(tb) && |tb.procs| >= 2 && {tb.net.local, node} <= tb.nodes
    requires node != tb.net.local && node in tb.net.route
    ensures IsRun(ts, es) && ts[0] == tb && !QueueInv(Step(ts[|es|], EvGiveUp(0, true, false)))
  {
    ts, es := BothBound(tb, node);
    ts, es := SendsOut(tb, ts, es);
    ts, es := GoesOut(tb, ts, es);
    ts, es := IsGivenUp(tb, ts, es);
    ts, es := SendsOut(tb, ts, es);
    ts, es := IsAcked(tb, ts, es);
    EveryRunKeepsQueues(ts, es, |es|);
    StepKeepsInvIff(ts[|es|], EvGiveUp(0, true, false));
  }
}
