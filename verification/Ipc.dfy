/**
 What the calls of the IPC do for the processes at both ends: whom a receive takes, where a send
 goes, and that a send and the receive that meets it, in whatever order and on whatever nodes,
 leave both sides running.
 */
module Ipc {
  import opened Descriptors
  import opened ProcTable
  import opened Detach
  import opened QueueOps
  import opened QueueRuns

  /** t is tb but for the descriptors in s and the proxy queue. */
  ghost predicate Only(tb: Table, t: Table, s: set<Slot>) {
    && |t.procs| == |tb.procs| && t == tb.(procs := t.procs, outq := t.outq)
    && forall j: Slot :: j < |tb.procs| && j !in s ==> t.procs[j] == tb.procs[j]
  }

  /** b is a with the given flags, woken with rcode exactly if there are none. */
  ghost predicate WokenIfDone(a: Proc, b: Proc, rts: set<RtsFlag>, rcode: int) {
    b.rts == rts && (if rts == {} then b.sem == a.sem + 1 && b.rcode == rcode else b.sem == a.sem && b.rcode == a.rcode)
  }

  // ---- receive ----

  predicate Matches(tb: Table, y: Slot, ep: int) {
    y < |tb.procs| && (ep == ANY || tb.procs[y].endpoint == ep)
  }

  /** The message of y, queued on x, is delivered: y stops sending and is woken if it waits for
      nothing else; a remote y that expects no answer is acknowledged. */
  ghost predicate DeliveredFrom(tb: Table, t: Table, x: Slot, y: Slot)
    requires x < |tb.procs| && y < |tb.procs| && |t.procs| == |tb.procs|
  {
    var a, b, ep := tb.procs[y], t.procs[y], tb.procs[x].endpoint;
    var ack := a.IsRemote() && Receiving !in a.rts;
    && WokenIfDone(a, b, a.rts - {Sending} + (if ack then {RmtOper} else {}), OK)
    && b.sendto == NONE
    && b.cmd == (if ack then Cmd(CMD_SEND_ACK, a.dcid, ep, a.endpoint, tb.net.local, a.nodeid, OK) else a.cmd)
    && b.proxy == (if ack && a.nodeid in tb.net.route then tb.net.route[a.nodeid] else a.proxy)
    && b == a.(rts := b.rts, sendto := b.sendto, cmd := b.cmd, proxy := b.proxy, rcode := b.rcode, sem := b.sem)
    && t.outq == tb.outq + if ack && a.nodeid in tb.net.route then [y] else []
  }

  /** A pending notification is taken before any message, the lowest first, whoever is asked for. */
  lemma ReceiveNotified(tb: Table, x: Slot, ep: int)
    requires QueueInv(tb) && x < |tb.procs| && tb.procs[x].rts == {} && tb.procs[x].notify != {}
    ensures
      exists i :: i in tb.procs[x].notify && (forall k :: k in tb.procs[x].notify ==> i <= k)
                  && Receive(tb, x, ep) == Put(tb, x, tb.procs[x].(notify := tb.procs[x].notify - {i}))
  {
    var me := tb.procs[x];
    var i := FirstBit(me.notify, 0, tb.nrSys);
    assert OwnerOk(tb, me);
    var k :| k in me.notify;
    assert k < tb.nrSys;
  }

  /** Without one, the process blocks exactly if nobody it asks for is queued on it. */
  lemma ReceiveBlocks(tb: Table, x: Slot, ep: int)
    requires QueueInv(tb) && x < |tb.procs| && tb.procs[x].rts == {} && tb.procs[x].notify == {}
    requires forall y: Slot :: y in tb.procs[x].plist ==> !Matches(tb, y, ep)
    ensures Receive(tb, x, ep) == Put(tb, x, tb.procs[x].(rts := {Receiving}, getfrom := ep))
  {
    FirstFromNone(tb, tb.procs[x].plist, ep);
  }

  /** Else the first in the queue that it asks for leaves the queue and is served; the others stay in
      their order, and the process goes on. */
  lemma ReceiveTakesFirst(tb: Table, x: Slot, ep: int, k: nat)
    requires QueueInv(tb) && x < |tb.procs| && tb.procs[x].rts == {} && tb.procs[x].notify == {}
    requires k < |tb.procs[x].plist| && Matches(tb, tb.procs[x].plist[k], ep)
    requires forall i :: 0 <= i < k ==> !Matches(tb, tb.procs[x].plist[i], ep)
    ensures
      var q, t := tb.procs[x].plist, Receive(tb, x, ep);
      && q[k] < |tb.procs| && q[k] != x && Only(tb, t, {x, q[k]})
      && t.procs[x] == tb.procs[x].(plist := q[..k] + q[k + 1..]) && DeliveredFrom(tb, t, x, q[k])
  {
    var me := tb.procs[x];
    var q := me.plist;
    assert OwnerOk(tb, me) && q[k] in q;
    FirstFromAt(tb, q, ep, k);
    WithoutAt(q, k);
    DroppedQueued(tb, x, q[k]);
    Serves(tb, Put(tb, x, me.(plist := q[..k] + q[k + 1..])), x, q[k], ep, Receive(tb, x, ep));
  }

  /** The last part of a receive that takes y off its queue. */
  lemma Serves(tb: Table, u: Table, x: Slot, y: Slot, ep: int, t: Table)
    requires x < |tb.procs| && y < |tb.procs| && x != y && tb.procs[x].rts == {} && tb.procs[x].notify == {}
    requires !tb.procs[y].Free() && Sending in tb.procs[y].rts && tb.procs[y].sendto == tb.procs[x].endpoint
    requires FirstFrom(tb, tb.procs[x].plist, ep) == [y] && Dropping(tb, y, true, false, false) == u
    requires u == Put(tb, x, tb.procs[x].(plist := u.procs[x].plist)) && t == Receive(tb, x, ep)
    ensures Only(tb, t, {x, y}) && t.procs[x] == u.procs[x] && DeliveredFrom(tb, t, x, y)
  {
    var a := tb.procs[y];
    if a.IsRemote() && Receiving !in a.rts {
      assert a.rts + {RmtOper} - {Sending} == a.rts - {Sending} + {RmtOper};
    }
    assert Remote in a.rts ==> a.rts - {Sending} != {};
  }

  lemma {:induction false} FirstFromNone(tb: Table, q: seq<Slot>, ep: int)
    requires forall y: Slot :: y in q ==> !Matches(tb, y, ep)
    ensures FirstFrom(tb, q, ep) == []
  {
    if q != [] {
      assert q[0] in q;
      assert forall y: Slot :: y in q[1..] ==> y in q;
      FirstFromNone(tb, q[1..], ep);
    }
  }

  lemma {:induction false} FirstFromAt(tb: Table, q: seq<Slot>, ep: int, k: nat)
    requires k < |q| && Matches(tb, q[k], ep) && forall i :: 0 <= i < k ==> !Matches(tb, q[i], ep)
    ensures FirstFrom(tb, q, ep) == [q[k]]
  {
    if k > 0 {
      assert !Matches(tb, q[0], ep);
      assert forall i :: 0 <= i < k - 1 ==> q[1..][i] == q[i + 1];
      FirstFromAt(tb, q[1..], ep, k - 1);
    }
  }

  lemma {:induction false} WithoutAt(q: seq<Slot>, k: nat)
    requires NoDup(q) && k < |q|
    ensures Without(q, q[k]) == q[..k] + q[k + 1..]
    decreases |q|
  {
    var n := |q| - 1;
    var front := q[..n];
    assert q == front + [q[n]];
    WithoutSnoc(front, q[n], q[k]);
    NoDupAppend(front, q[n]);
    if k < n {
      WithoutAt(front, k);
      assert front[..k] == q[..k] && front[k + 1..] + [q[n]] == q[k + 1..];
    }
  }

  /** A queued sender is on no other queue of its kind. */
  lemma OneOwner(tb: Table, x: Slot, j: Slot, y: Slot)
    requires QueueInv(tb) && x < |tb.procs| && j < |tb.procs| && j != x && y in tb.procs[x].plist
    ensures y !in tb.procs[j].plist
  {
    assert SlotOf(tb.nrTasks, tb.procs[j].endpoint) != SlotOf(tb.nrTasks, tb.procs[x].endpoint);
  }

  lemma DroppedQueued(tb: Table, x: Slot, y: Slot)
    requires QueueInv(tb) && x < |tb.procs| && y in tb.procs[x].plist
    ensures Dropping(tb, y, true, false, false) == Put(tb, x, tb.procs[x].(plist := Without(tb.procs[x].plist, y)))
  {
    var t, u := Dropping(tb, y, true, false, false), Put(tb, x, tb.procs[x].(plist := Without(tb.procs[x].plist, y)));
    forall j: Slot | j < |tb.procs| ensures t.procs[j] == u.procs[j] {
      if j != x {
        OneOwner(tb, x, j, y);
      }
    }
    assert t.procs == u.procs;
  }

  // ---- where a send goes ----

  /** d waits for a message of the process with endpoint ep and for nothing else before. */
  predicate Awaits(d: Proc, ep: int) {
    Receiving in d.rts && Sending !in d.rts && d.getfrom in {ANY, ep}
  }

  /** The receiver got its message: b is d, waiting for it no more. */
  ghost predicate GotMessage(d: Proc, b: Proc) {
    && WokenIfDone(d, b, d.rts - {Receiving}, OK) && b.getfrom == NONE
    && b == d.(rts := b.rts, getfrom := NONE, rcode := b.rcode, sem := b.sem)
  }

  /** b is s blocked in a send, or a sendrec (rec), to endpoint ep. */
  ghost predicate BlockedIn(s: Proc, b: Proc, ep: int, rec: bool) {
    && b.rts == s.rts + (if rec then {Sending, Receiving} else {Sending})
    && b == s.(rts := b.rts, sendto := ep, getfrom := if rec then ep else s.getfrom)
  }

  /** The command of s is with the proxy of the node of r. */
  ghost predicate Outbound(tb: Table, s: Proc, b: Proc, r: Proc, rec: bool, cmd: nat) {
    && r.nodeid in tb.net.route
    && b.rts == s.rts + (if rec then {Sending, Receiving, RmtOper} else {Sending, RmtOper})
    && b == s.(rts := b.rts, sendto := r.endpoint, getfrom := if rec then r.endpoint else s.getfrom,
               proxy := tb.net.route[r.nodeid],
               cmd := Cmd(cmd, s.dcid, s.endpoint, r.endpoint, tb.net.local, r.nodeid, OK))
  }

  lemma RemoteSendGoes(tb: Table, x: Slot, d: Slot, rec: bool, cmd: nat)
    requires x < |tb.procs| && d < |tb.procs| && x != d && tb.procs[d].nodeid in tb.net.route
    ensures
      var t, s, r := RemoteSend(tb, x, d, rec, cmd), tb.procs[x], tb.procs[d];
      && Only(tb, t, {x, d}) && t.outq == tb.outq + [x] && Outbound(tb, s, t.procs[x], r, rec, cmd)
      && t.procs[d] == if rec then r else
                         r.(rts := r.rts - {Receiving}, getfrom := if r.getfrom == s.endpoint then NONE else r.getfrom)
  {
    var s := tb.procs[x];
    assert s.rts + {Sending} + {} + {RmtOper} == s.rts + {Sending, RmtOper};
    assert s.rts + {Sending} + {Receiving} + {RmtOper} == s.rts + {Sending, Receiving, RmtOper};
  }

  /** A send or sendrec of a process that runs goes where the destination is: nowhere if that is not
      bound or its node has no proxy, to the migration queue, to the proxy, straight to a receiver
      that awaits it, or to the end of the senders' queue. */
  lemma SendGoes(tb: Table, x: Slot, d: Slot, rec: bool)
    requires x < |tb.procs| && d < |tb.procs| && x != d && tb.procs[x].rts == {}
    ensures
      var t, s, r := Send(tb, x, d, rec), tb.procs[x], tb.procs[d];
      && Only(tb, t, {x, d})
      && if r.Free() || (r.IsRemote() && Migrate !in r.rts && r.nodeid !in tb.net.route) then t == tb
         else if Migrate in r.rts then
           && t.procs[x] == s.(rts := {WaitMigr}, waitmigr := r.endpoint)
           && t.procs[d] == r.(mlist := r.mlist + [x]) && t.outq == tb.outq
         else if r.IsRemote() then
           && t.outq == tb.outq + [x]
           && Outbound(tb, s, t.procs[x], r, rec, if rec then CMD_SNDREC_MSG else CMD_SEND_MSG)
           && t.procs[d] == if rec then r else
                              r.(rts := r.rts - {Receiving}, getfrom := if r.getfrom == s.endpoint then NONE else r.getfrom)
         else if Awaits(r, s.endpoint) then
           && GotMessage(r, t.procs[d]) && t.outq == tb.outq
           && t.procs[x] == if rec then s.(rts := {Receiving}, getfrom := r.endpoint) else s
         else
           && BlockedIn(s, t.procs[x], r.endpoint, rec) && t.procs[d] == r.(plist := r.plist + [x]) && t.outq == tb.outq
  {
    var s, r := tb.procs[x], tb.procs[d];
    assert s.rts + {WaitMigr} == {WaitMigr} && s.rts + {Receiving} == {Receiving};
    if r.IsRemote() && r.nodeid in tb.net.route {
      RemoteSendGoes(tb, x, d, rec, if rec then CMD_SNDREC_MSG else CMD_SEND_MSG);
    }
    assert s.rts + {Sending} + {Receiving} == s.rts + {Sending, Receiving} && s.rts + {Sending} + {} == s.rts + {Sending};
  }

  /** A replayed send goes the same way; the flags of migrations stay. */
  lemma ResendGoes(tb: Table, x: Slot, d: Slot, rec: bool)
    requires x < |tb.procs| && d < |tb.procs|
    ensures tb.procs[x].rts == {} ==> Resend(tb, x, d, rec) == Send(tb, x, d, rec)
    ensures tb.procs[x].rts * {SlotFree, Sending, Receiving, RmtOper} != {} || x == d ==> Resend(tb, x, d, rec) == tb
    ensures
      var t, s, r := Resend(tb, x, d, rec), tb.procs[x], tb.procs[d];
      x != d && !r.Free() && s.rts !! {SlotFree, Sending, Receiving, RmtOper} ==>
        if Migrate in r.rts then
          && t.procs[d].mlist == r.mlist + [x] && t.procs[x].rts == s.rts + {WaitMigr} && t.procs[x].waitmigr == r.endpoint
        else if r.IsLocal() && !Awaits(r, s.endpoint) then
          t.procs[d].plist == r.plist + [x] && BlockedIn(s, t.procs[x], r.endpoint, rec)
        else if r.IsRemote() && r.nodeid in tb.net.route then x in t.outq else x in t.outq <==> x in tb.outq
  {
    var s, r := tb.procs[x], tb.procs[d];
    assert s.rts + {Sending} + {Receiving} == s.rts + {Sending, Receiving} && s.rts + {Sending} + {} == s.rts + {Sending};
  }

  /** The warning of an exiting process is a sendrec to a local process, and a send to a remote one
      that leaves the caller ready to hear from it. */
  lemma WarnGoes(tb: Table, c: Slot, w: Slot)
    requires c < |tb.procs| && w < |tb.procs| && c != w && tb.procs[c].rts == {} && Migrate !in tb.procs[w].rts
    ensures
      var t, s, r := Warn(tb, c, w), tb.procs[c], tb.procs[w];
      if r.IsLocal() then t == Send(tb, c, w, true)
      else if r.Free() || r.nodeid !in tb.net.route then t == tb
      else t == Send(Put(tb, c, s.(getfrom := r.endpoint)), c, w, false)
  {
  }

  /** A notification of a system process: given to a receiver that awaits it, sent to the node of a
      remote one, and else left pending; to a process without a number for it only while that
      process migrates. */
  lemma NotifyGoes(tb: Table, x: Slot, d: Slot)
    requires x < |tb.procs| && d < |tb.procs| && x != d && tb.procs[x].rts == {}
    ensures
      var t, s, r := Notify(tb, x, d), tb.procs[x], tb.procs[d];
      if s.sid >= tb.nrSys || r.Free() then t == tb
      else if Migrate in r.rts then t == Put(tb, d, r.(notify := r.notify + {s.sid}))
      else if r.IsRemote() then
        if r.nodeid !in tb.net.route then t == tb
        else Only(tb, t, {x, d}) && t.outq == tb.outq + [x] && Outbound(tb, s, t.procs[x], r, false, CMD_NTFY_MSG)
      else if Awaits(r, s.endpoint) then Only(tb, t, {d}) && t.outq == tb.outq && GotMessage(r, t.procs[d])
      else if r.sid >= tb.nrSys then t == tb
      else t == Put(tb, d, r.(notify := r.notify + {s.sid}))
  {
    if tb.procs[d].nodeid in tb.net.route {
      RemoteSendGoes(tb, x, d, false, CMD_NTFY_MSG);
    }
  }

  /** A message from another node: given to a receiver that awaits it, with an acknowledgement unless
      the sender waits for an answer; else its sender joins the queue. Nothing happens if either is
      not what the message says, or the receiver migrates. */
  lemma ArriveGoes(tb: Table, r: Slot, d: Slot, rec: bool)
    requires r < |tb.procs| && d < |tb.procs| && r != d
    ensures
      var t, s, l := Arrive(tb, r, d, rec), tb.procs[r], tb.procs[d];
      var ok := && !s.Free() && s.IsRemote() && s.rts !! {RmtOper, Sending}
                && !l.Free() && l.IsLocal() && Migrate !in l.rts;
      && Only(tb, t, {r, d})
      && if !ok then t == tb
         else if Awaits(l, s.endpoint) then
           && GotMessage(l, t.procs[d])
           && t.outq == tb.outq + (if !rec && s.nodeid in tb.net.route then [r] else [])
           && t.procs[r] == if rec then s.(rts := s.rts + {Receiving}, getfrom := l.endpoint)
                            else s.(rts := s.rts + {RmtOper},
                                    cmd := Cmd(CMD_SEND_ACK, s.dcid, l.endpoint, s.endpoint, tb.net.local, s.nodeid, OK),
                                    proxy := if s.nodeid in tb.net.route then tb.net.route[s.nodeid] else s.proxy)
         else
           BlockedIn(s, t.procs[r], l.endpoint, rec) && t.procs[d] == l.(plist := l.plist + [r]) && t.outq == tb.outq
  {
    var s := tb.procs[r];
    assert s.rts + {Sending} + {Receiving} == s.rts + {Sending, Receiving} && s.rts + {Sending} + {} == s.rts + {Sending};
  }

  // ---- what the proxies leave ----

  /** A command sent off: a request that is still to be acknowledged keeps its sender in SENDING; a
      sendrec or notification counts as sent, and the caller of a notification is woken; a remote
      descriptor is free of the operation. */
  lemma TakenBecomes(tb: Table, x: Slot)
    requires QueueInv(tb) && x in tb.outq && Migrate !in tb.procs[x].rts
    ensures
      var t, a := ProxyTake(tb, x), tb.procs[x];
      var b, sent := t.procs[x], a.IsRemote() || a.cmd.cmd in {CMD_SNDREC_MSG, CMD_NTFY_MSG};
      && Only(tb, t, {x}) && t.outq == Without(tb.outq, x)
      && b.rts == a.rts - (if sent then {RmtOper, Sending} else {RmtOper})
      && b.proxy == NONE && b.cmd.cmd == CMD_NONE && b.sendto == (if sent then NONE else a.sendto)
      && (if a.cmd.cmd == CMD_NTFY_MSG && b.rts == {} then b.sem == a.sem + 1 && b.rcode == OK
          else b.sem == a.sem && b.rcode == a.rcode)
      && b == a.(rts := b.rts, proxy := NONE, cmd := a.cmd.(cmd := CMD_NONE), sendto := b.sendto, rcode := b.rcode, sem := b.sem)
  {
    DroppedOut(tb, x);
    var a := tb.procs[x];
    assert a.rts - {RmtOper} - {Sending} == a.rts - {RmtOper, Sending} && a.rts - {RmtOper} - {} == a.rts - {RmtOper};
  }

  /** A command turned down: a local process runs again and learns why, a remote one is only
      remote. */
  lemma TurnedDownBecomes(tb: Table, x: Slot, rcode: int)
    requires QueueInv(tb) && x in tb.outq
    ensures
      var t, a := ProxyFail(tb, x, rcode), tb.procs[x];
      && Only(tb, t, {x}) && t.outq == Without(tb.outq, x)
      && t.procs[x] == if a.IsRemote() then a.(rts := {Remote}, proxy := NONE)
                       else a.(rts := {}, proxy := NONE, sendto := NONE, rcode := rcode, sem := a.sem + 1)
  {
    DroppedOut(tb, x);
  }

  /** A command flushed because its node is disconnected: its local caller gives up exactly the waits
      of that command and is woken with EMOLNOTCONN if none is left. */
  lemma FlushedBecomes(tb: Table, x: Slot, node: int)
    requires QueueInv(tb) && x < |tb.procs|
    ensures
      var t, a := FlushSender(tb, x, node), tb.procs[x];
      var b, c := t.procs[x], a.cmd.cmd;
      if x !in tb.outq || a.cmd.dnode != node then t == tb
      else
        && Only(tb, t, {x}) && t.outq == Without(tb.outq, x) && b.proxy == NONE
        && (a.IsRemote() ==> b == a.(rts := {Remote}, proxy := NONE, getfrom := NONE, sendto := NONE))
        && (a.IsLocal() && c == CMD_SNDREC_MSG ==>
              WokenIfDone(a, b, a.rts - {RmtOper, Sending, Receiving}, EMOLNOTCONN) && b.sendto == NONE && b.getfrom == NONE)
        && (a.IsLocal() && c in {CMD_SEND_MSG, CMD_NTFY_MSG} ==>
              WokenIfDone(a, b, a.rts - {RmtOper, Sending}, EMOLNOTCONN) && b.sendto == NONE && b.getfrom == a.getfrom)
  {
    if x in tb.outq {
      DroppedOut(tb, x);
      var r := tb.procs[x].rts;
      assert r - {RmtOper} - {Sending} - {Receiving} == r - {RmtOper, Sending, Receiving};
      assert r - {RmtOper} - {Sending} - {} == r - {RmtOper, Sending};
    }
  }

  /** The flush of a receiver proxy, on one process: a local one stops waiting for a message from the
      node, and for one to take its own, and is woken exactly if that leaves it running. */
  lemma UnheardBecomes(tb: Table, node: int, j: Slot)
    requires j < |tb.procs|
    ensures
      var a, b := tb.procs[j], FlushReceivers(tb, node).procs[j];
      var deaf := Receiving in a.rts && LivesOn(tb, a.getfrom, node);
      var mute := Sending in a.rts && LivesOn(tb, a.sendto, node);
      if a.Free() || a.IsRemote() then b == a
      else
        && b.rts == a.rts - (if deaf then {Receiving} else {}) - (if mute then {Sending} else {})
        && b.rcode == EMOLNOTCONN && b.sem == a.sem + (if (deaf || mute) && b.rts == {} then 1 else 0)
        && b == a.(rts := b.rts, rcode := b.rcode, sem := b.sem)
  {
    assert FlushReceivers(tb, node).procs[j] == Unheard(tb, node)(tb.procs[j]);
    var a := tb.procs[j].(rcode := EMOLNOTCONN);
    assert a.rts - {Receiving} - {} == a.rts - {Receiving};
  }

  /** A descriptor with a proxy is queued nowhere else by the same link. */
  lemma DroppedOut(tb: Table, x: Slot)
    requires QueueInv(tb) && x in tb.outq
    ensures Dropping(tb, x, true, false, false) == tb.(outq := Without(tb.outq, x))
  {
    var t := Dropping(tb, x, true, false, false);
    forall j: Slot | j < |tb.procs| ensures t.procs[j] == tb.procs[j] {
      assert x !in tb.procs[j].plist;
    }
    assert t.procs == tb.procs;
  }

  // ---- both ends together ----

  /** x and d are running local processes that have nothing to say to each other yet. */
  ghost predicate Strangers(tb: Table, x: Slot, d: Slot) {
    && QueueInv(tb) && x < |tb.procs| && d < |tb.procs| && x != d && tb.procs[x].rts == {} && tb.procs[d].rts == {}
    && tb.procs[d].notify == {}
  }

  lemma RunningNotQueued(tb: Table, x: Slot, d: Slot)
    requires QueueInv(tb) && x < |tb.procs| && d < |tb.procs| && tb.procs[x].rts == {}
    ensures x !in tb.procs[d].plist && x !in tb.outq
  {
    RunningUnlinked(tb, x);
  }

  /** Send, then receive: the sender waits, and the receive that asks for it or for anybody, none
      before it in the queue being asked for, wakes it; the queue is as before. */
  lemma SendThenReceive(tb: Table, x: Slot, d: Slot, ep: int)
    requires Strangers(tb, x, d) && ep in {ANY, tb.procs[x].endpoint}
    requires forall y: Slot :: y in tb.procs[d].plist ==> !Matches(tb, y, ep)
    ensures
      var t := Receive(Send(tb, x, d, false), d, ep);
      && Only(tb, t, {x, d}) && t.outq == tb.outq && t.procs[d] == tb.procs[d]
      && t.procs[x] == tb.procs[x].(sendto := NONE, rcode := OK, sem := tb.procs[x].sem + 1)
  {
    var u, s, r := Send(tb, x, d, false), tb.procs[x], tb.procs[d];
    SendGoes(tb, x, d, false);
    SendInv(tb, x, d, false);
    RunningNotQueued(tb, x, d);
    var q := u.procs[d].plist;
    assert q == r.plist + [x] && q[|r.plist|] == x;
    forall i | 0 <= i < |r.plist| ensures !Matches(u, q[i], ep) {
      assert q[i] in r.plist && q[i] != x && q[i] != d;
    }
    ReceiveTakesFirst(u, d, ep, |r.plist|);
    assert q[..|r.plist|] + q[|r.plist| + 1..] == r.plist;
    assert {Sending} - {Sending} + {} == {};
  }

  /** Receive, then send: the receiver waits and is woken. Either way both run afterwards, nobody is
      queued, and the one that had to wait was woken once. */
  lemma ReceiveThenSend(tb: Table, x: Slot, d: Slot, ep: int)
    requires Strangers(tb, x, d) && ep in {ANY, tb.procs[x].endpoint}
    requires forall y: Slot :: y in tb.procs[d].plist ==> !Matches(tb, y, ep)
    ensures
      var t := Send(Receive(tb, d, ep), x, d, false);
      && Only(tb, t, {x, d}) && t.outq == tb.outq && t.procs[x] == tb.procs[x]
      && t.procs[d] == tb.procs[d].(getfrom := NONE, rcode := OK, sem := tb.procs[d].sem + 1)
  {
    ReceiveBlocks(tb, d, ep);
    SendGoes(Receive(tb, d, ep), x, d, false);
    assert {Receiving} - {Receiving} == {};
  }

  /** Request and answer: after a sendrec to a waiting server and the server's send back, both run and
      the client was woken once, with OK. */
  lemma CallAndAnswer(tb: Table, x: Slot, d: Slot)
    requires Strangers(tb, x, d) && tb.procs[x].endpoint != ANY && tb.procs[d].endpoint != ANY
    requires forall y: Slot :: y in tb.procs[d].plist ==> !Matches(tb, y, ANY)
    ensures
      var t := Send(Send(Receive(tb, d, ANY), x, d, true), d, x, false);
      && Only(tb, t, {x, d}) && t.outq == tb.outq && t.procs[d].rts == {} && t.procs[d].sem == tb.procs[d].sem + 1
      && t.procs[x] == tb.procs[x].(getfrom := NONE, rcode := OK, sem := tb.procs[x].sem + 1)
  {
    ReceiveBlocks(tb, d, ANY);
    var a := Receive(tb, d, ANY);
    SendGoes(a, x, d, true);
    var b := Send(a, x, d, true);
    assert {Receiving} - {Receiving} == {};
    SendGoes(b, d, x, false);
  }

  /** A send to another node, taken by the proxy and acknowledged, leaves its caller running, woken
      once with the code of the acknowledgement, and the proxy queue as before. */
  lemma RemoteSendCompletes(tb: Table, x: Slot, d: Slot, rcode: int)
    requires QueueInv(tb) && x < |tb.procs| && d < |tb.procs| && x != d && tb.procs[x].rts == {}
    requires tb.procs[d].rts == {Remote} && tb.procs[d].nodeid in tb.net.route
    ensures
      var t := SendAck(ProxyTake(Send(tb, x, d, false), x), d, x, rcode);
      && |t.procs| == |tb.procs| && t.outq == tb.outq && t.procs[x].rts == {} && t.procs[x].rcode == rcode
      && t.procs[x].sem == tb.procs[x].sem + 1 && t.procs[x].sendto == NONE && t.procs[x].proxy == NONE
      && t.procs[d].rts == {Remote}
  {
    var u := Send(tb, x, d, false);
    SendGoes(tb, x, d, false);
    SendInv(tb, x, d, false);
    RunningNotQueued(tb, x, d);
    TakenBecomes(u, x);
    WithoutSnoc(tb.outq, x, x);
    var v := ProxyTake(u, x);
    assert v.procs[x].rts == {Sending};
    assert v.procs[x].rts - {Sending} == {};
  }

  /** A sendrec to another node, taken by the proxy, waits for the answer; the message that brings it
      leaves its caller running. */
  lemma RemoteCallCompletes(tb: Table, x: Slot, d: Slot)
    requires QueueInv(tb) && x < |tb.procs| && d < |tb.procs| && x != d && tb.procs[x].rts == {}
    requires tb.procs[d].rts == {Remote} && tb.procs[d].nodeid in tb.net.route
    ensures
      var u := ProxyTake(Send(tb, x, d, true), x);
      var t := Arrive(u, d, x, false);
      && u.procs[x].rts == {Receiving} && u.procs[x].getfrom == tb.procs[d].endpoint && u.outq == tb.outq
      && t.procs[x].rts == {} && t.procs[x].rcode == OK && t.procs[x].sem == tb.procs[x].sem + 1
      && t.outq == tb.outq + [d] && t.procs[d].cmd.cmd == CMD_SEND_ACK && t.procs[d].cmd.dst == tb.procs[d].endpoint
  {
    RemoteCallTaken(tb, x, d);
    AnswerArrives(ProxyTake(Send(tb, x, d, true), x), d, x);
  }

  lemma RemoteCallTaken(tb: Table, x: Slot, d: Slot)
    requires QueueInv(tb) && x < |tb.procs| && d < |tb.procs| && x != d && tb.procs[x].rts == {}
    requires tb.procs[d].rts == {Remote} && tb.procs[d].nodeid in tb.net.route
    ensures
      var u := ProxyTake(Send(tb, x, d, true), x);
      && Only(tb, u, {x}) && u.outq == tb.outq && u.procs[x].rts == {Receiving}
      && u.procs[x].getfrom == tb.procs[d].endpoint && u.procs[x].sem == tb.procs[x].sem
  {
    var v := Send(tb, x, d, true);
    SendGoes(tb, x, d, true);
    SendInv(tb, x, d, true);
    RunningNotQueued(tb, x, d);
    TakenBecomes(v, x);
    WithoutSnoc(tb.outq, x, x);
    assert ProxyTake(v, x).procs[x].rts == {Receiving};
  }

  lemma AnswerArrives(u: Table, d: Slot, x: Slot)
    requires x < |u.procs| && d < |u.procs| && x != d && u.procs[x].rts == {Receiving}
    requires u.procs[d].rts == {Remote} && u.procs[d].nodeid in u.net.route && u.procs[x].getfrom == u.procs[d].endpoint
    ensures
      var t := Arrive(u, d, x, false);
      && Only(u, t, {d, x}) && t.procs[x].rts == {} && t.procs[x].rcode == OK && t.procs[x].sem == u.procs[x].sem + 1
      && t.outq == u.outq + [d] && t.procs[d].cmd.cmd == CMD_SEND_ACK && t.procs[d].cmd.dst == u.procs[d].endpoint
  {
    ArriveGoes(u, d, x, false);
    assert {Receiving} - {Receiving} == {};
  }

  /** r is a remote process with a proxy, d a running local one, and neither is queued for the other. */
  ghost predicate AcrossNodes(tb: Table, r: Slot, d: Slot) {
    && QueueInv(tb) && r < |tb.procs| && d < |tb.procs| && r != d && tb.procs[r].rts == {Remote}
    && tb.procs[r].nodeid in tb.net.route && tb.procs[d].rts == {} && tb.procs[d].notify == {}
    && tb.procs[r].endpoint != ANY
  }

  /** The message of r is acknowledged and the acknowledgement is with the proxy; d runs. */
  ghost predicate Acknowledged(tb: Table, t: Table, r: Slot, d: Slot)
    requires r < |tb.procs| && d < |tb.procs|
  {
    var a := tb.procs[r];
    && |t.procs| == |tb.procs| && t.outq == tb.outq + [r] && t.procs[d].rts == {} && t.procs[r].rts == {Remote, RmtOper}
    && t.procs[r].cmd == Cmd(CMD_SEND_ACK, a.dcid, tb.procs[d].endpoint, a.endpoint, tb.net.local, a.nodeid, OK)
    && a.nodeid in tb.net.route && t.procs[r].proxy == tb.net.route[a.nodeid]
  }

  /** A message from another node that comes after the receiver asked for it is answered at once. */
  lemma LateArrival(tb: Table, r: Slot, d: Slot)
    requires AcrossNodes(tb, r, d)
    ensures Acknowledged(tb, Arrive(Receive(tb, d, tb.procs[r].endpoint), r, d, false), r, d)
  {
    var ep := tb.procs[r].endpoint;
    RunningUnlinked(tb, r);
    OneEndpoint(tb, d, r);
    ReceiveBlocks(tb, d, ep);
    ArriveGoes(Receive(tb, d, ep), r, d, false);
    assert {Receiving} - {Receiving} == {};
  }

  /** One that finds the receiver busy waits in its queue, and is answered when it is asked for. */
  lemma EarlyArrival(tb: Table, r: Slot, d: Slot)
    requires AcrossNodes(tb, r, d)
    ensures Acknowledged(tb, Receive(Arrive(tb, r, d, false), d, tb.procs[r].endpoint), r, d)
  {
    var ep, q := tb.procs[r].endpoint, tb.procs[d].plist;
    var u := Arrive(tb, r, d, false);
    ArrivalQueued(tb, r, d, u);
    ReceiveTakesFirst(u, d, ep, |q|);
    assert {Remote, Sending} - {Sending} + {RmtOper} == {Remote, RmtOper};
  }

  lemma ArrivalQueued(tb: Table, r: Slot, d: Slot, u: Table)
    requires AcrossNodes(tb, r, d) && u == Arrive(tb, r, d, false)
    ensures
      var q := tb.procs[d].plist;
      && QueueInv(u) && Only(tb, u, {r, d}) && u.outq == tb.outq && u.procs[d] == tb.procs[d].(plist := q + [r])
      && u.procs[r] == tb.procs[r].(rts := {Remote, Sending}, sendto := tb.procs[d].endpoint)
      && (q + [r])[|q|] == r && Matches(u, r, tb.procs[r].endpoint)
      && forall i :: 0 <= i < |q| ==> !Matches(u, (q + [r])[i], tb.procs[r].endpoint)
  {
    var ep, q := tb.procs[r].endpoint, tb.procs[d].plist;
    RunningUnlinked(tb, r);
    OneEndpoint(tb, d, r);
    ArriveGoes(tb, r, d, false);
    ArriveInv(tb, r, d, false);
    assert {Remote} + {Sending} == {Remote, Sending};
    forall i | 0 <= i < |q| ensures !Matches(u, (q + [r])[i], ep) {
      assert (q + [r])[i] == q[i] && q[i] in q;
    }
  }

  /** Once the proxy has sent the acknowledgement off, the remote descriptor is as before. */
  lemma AnswerSentOff(tb: Table, t: Table, r: Slot, d: Slot)
    requires AcrossNodes(tb, r, d) && QueueInv(t) && Acknowledged(tb, t, r, d)
    ensures ProxyTake(t, r).outq == tb.outq && ProxyTake(t, r).procs[r].rts == {Remote}
  {
    RunningUnlinked(tb, r);
    TakenBecomes(t, r);
    WithoutSnoc(tb.outq, r, r);
    assert {Remote, RmtOper} - {RmtOper, Sending} == {Remote};
  }

  /** The members of a queue that r is not on have other endpoints than r. */
  lemma OneEndpoint(tb: Table, d: Slot, r: Slot)
    requires QueueInv(tb) && d < |tb.procs| && r < |tb.procs| && r !in tb.procs[d].plist && tb.procs[r].endpoint != ANY
    ensures forall y: Slot :: y in tb.procs[d].plist ==> y != r && !Matches(tb, y, tb.procs[r].endpoint)
  {
    forall y: Slot | y in tb.procs[d].plist ensures y != r && !Matches(tb, y, tb.procs[r].endpoint) {
      assert SlotOf(tb.nrTasks, tb.procs[y].endpoint) == y && SlotOf(tb.nrTasks, tb.procs[r].endpoint) == r;
    }
  }

  // ---- calls that undo each other ----

  /** Giving up a send that waits in a queue takes the caller out of it and leaves every other
      descriptor as it was. */
  lemma SendThenGiveUp(tb: Table, x: Slot, d: Slot, rec: bool)
    requires Strangers(tb, x, d)
    ensures
      var t := GiveUp(Send(tb, x, d, rec), x, false, rec);
      && Only(tb, t, {x}) && t.outq == tb.outq
      && t.procs[x] == tb.procs[x].(sendto := NONE, getfrom := if rec then NONE else tb.procs[x].getfrom)
  {
    var u, r := Send(tb, x, d, rec), tb.procs[d];
    SendGoes(tb, x, d, rec);
    SendInv(tb, x, d, rec);
    RunningNotQueued(tb, x, d);
    assert u.procs[d].plist == r.plist + [x];
    WithoutSnoc(r.plist, x, x);
    assert x in u.procs[d].plist;
    GiveUpQueued(u, d, x, rec);
    Undone(tb, u, GiveUp(u, x, false, rec), x, d, rec);
  }

  lemma Undone(tb: Table, u: Table, t: Table, x: Slot, d: Slot, rec: bool)
    requires x < |tb.procs| && d < |tb.procs| && x != d && tb.procs[x].rts == {}
    requires Only(tb, u, {x, d}) && Only(u, t, {x, d}) && t.outq == u.outq == tb.outq
    requires BlockedIn(tb.procs[x], u.procs[x], tb.procs[d].endpoint, rec)
    requires u.procs[d] == tb.procs[d].(plist := u.procs[d].plist)
    requires t.procs[d] == u.procs[d].(plist := tb.procs[d].plist)
    requires t.procs[x] == u.procs[x].(rts := {}, sendto := NONE, getfrom := if rec then NONE else u.procs[x].getfrom)
    ensures Only(tb, t, {x})
    ensures t.procs[x] == tb.procs[x].(sendto := NONE, getfrom := if rec then NONE else tb.procs[x].getfrom)
  {
  }

  lemma GiveUpQueued(u: Table, d: Slot, x: Slot, rec: bool)
    requires QueueInv(u) && d < |u.procs| && x in u.procs[d].plist
    requires u.procs[x].rts == if rec then {Sending, Receiving} else {Sending}
    ensures
      var a, t := u.procs[x], GiveUp(u, x, false, rec);
      && Only(u, t, {x, d}) && t.outq == u.outq && t.procs[d] == u.procs[d].(plist := Without(u.procs[d].plist, x))
      && t.procs[x] == a.(rts := {}, sendto := NONE, getfrom := if rec then NONE else a.getfrom)
  {
    DroppedQueued(u, d, x);
    GivenUpRuns(u.procs[x], rec);
  }

  lemma GivenUpRuns(b: Proc, rec: bool)
    requires b.rts == if rec then {Sending, Receiving} else {Sending}
    ensures GivenUp(b, false, rec) == b.(rts := {}, sendto := NONE, getfrom := if rec then NONE else b.getfrom)
  {
    assert b.rts - {Sending} - {} - (if rec then {Receiving} else {}) == {};
  }

  /** The same of a send still with the proxy, but that a plain send has already taken RECEIVING from
      the remote descriptor. */
  lemma RemoteSendThenGiveUp(tb: Table, x: Slot, d: Slot, rec: bool)
    requires QueueInv(tb) && x < |tb.procs| && d < |tb.procs| && x != d && tb.procs[x].rts == {}
    requires Remote in tb.procs[d].rts && tb.procs[d].rts !! {Migrate, SlotFree} && tb.procs[d].nodeid in tb.net.route
    ensures
      var t := GiveUp(Send(tb, x, d, rec), x, true, rec);
      && Only(tb, t, {x, d}) && t.outq == tb.outq && t.procs[x].rts == {} && t.procs[x].sem == tb.procs[x].sem
      && t.procs[x].sendto == NONE && t.procs[x].proxy == NONE
      && t.procs[d].rts == if rec then tb.procs[d].rts else tb.procs[d].rts - {Receiving}
  {
    var u := Send(tb, x, d, rec);
    SendGoes(tb, x, d, rec);
    SendInv(tb, x, d, rec);
    RunningNotQueued(tb, x, d);
    assert x in u.outq;
    DroppedOut(u, x);
    WithoutSnoc(tb.outq, x, x);
    assert (if rec then {Sending, Receiving, RmtOper} else {Sending, RmtOper}) - {Sending} - {RmtOper}
           - (if rec then {Receiving} else {}) == {};
  }

  /** A receive that blocked and gives up leaves no trace but its source. */
  lemma ReceiveThenExit(tb: Table, x: Slot, ep: int)
    requires QueueInv(tb) && x < |tb.procs| && tb.procs[x].rts == {} && tb.procs[x].notify == {}
    requires forall y: Slot :: y in tb.procs[x].plist ==> !Matches(tb, y, ep)
    ensures ReceiveExit(Receive(tb, x, ep), x) == Put(tb, x, tb.procs[x].(getfrom := NONE))
  {
    ReceiveBlocks(tb, x, ep);
    assert {Receiving} - {Receiving} == {};
  }

  lemma WaitGoes(tb: Table, x: Slot, o: Slot)
    requires x < |tb.procs| && o < |tb.procs| && x != o && tb.procs[x].rts == {} && !tb.procs[o].Free()
    ensures
      var u := WaitForUnbind(tb, x, o);
      && u.procs[x] == tb.procs[x].(rts := {WaitUnbind}, waitunbind := tb.procs[o].endpoint)
      && u.procs[o] == tb.procs[o].(ulist := tb.procs[o].ulist + [x]) && Only(tb, u, {x, o}) && u.outq == tb.outq
  {
  }

  /** A wait for an unbinding that times out leaves both descriptors as they were. */
  lemma WaitThenTimeout(tb: Table, x: Slot, o: Slot)
    requires QueueInv(tb) && x < |tb.procs| && o < |tb.procs| && x != o && tb.procs[x].rts == {} && !tb.procs[o].Free()
    ensures
      var t := UnbindTimeout(WaitForUnbind(tb, x, o), x);
      Only(tb, t, {x}) && t.outq == tb.outq && t.procs[x] == tb.procs[x].(waitunbind := NONE)
  {
    RunningUnlinked(tb, x);
    var u := WaitForUnbind(tb, x, o);
    WaitGoes(tb, x, o);
    WithoutSnoc(tb.procs[o].ulist, x, x);
    UnlinkedU(u, tb, x, o);
    TimedOut(u, x, Dropping(u, x, false, false, true));
  }

  lemma TimedOut(u: Table, x: Slot, d: Table)
    requires x < |u.procs| && u.procs[x].rts == {WaitUnbind} && d == Dropping(u, x, false, false, true)
    ensures UnbindTimeout(u, x) == Put(d, x, d.procs[x].(rts := {}, waitunbind := NONE))
  {
    assert {WaitUnbind} - {WaitUnbind} == {};
  }

  lemma UnlinkedU(u: Table, tb: Table, x: Slot, o: Slot)
    requires Only(tb, u, {x, o}) && x < |tb.procs| && o < |tb.procs| && x != o && !LinkedU(tb, x)
    requires Without(u.procs[o].ulist, x) == tb.procs[o].ulist && u.procs[o] == tb.procs[o].(ulist := u.procs[o].ulist)
    requires u.procs[x].ulist == tb.procs[x].ulist
    ensures Dropping(u, x, false, false, true) == tb.(procs := tb.procs[x := u.procs[x]], outq := u.outq)
  {
    var t := Dropping(u, x, false, false, true);
    forall j: Slot | j < |tb.procs| ensures t.procs[j] == tb.procs[x := u.procs[x]][j] {
      assert x !in tb.procs[j].ulist;
    }
    assert t.procs == tb.procs[x := u.procs[x]];
  }

  /** A wait that ends by its own exit drops the link of that wait and no other. */
  lemma ExitsUnlinkOnly(tb: Table, x: Slot, rmt: bool, rec: bool, j: Slot)
    requires x < |tb.procs| && j < |tb.procs|
    ensures
      var t, a := UnbindTimeout(tb, x), tb.procs[j];
      && |t.procs| == |tb.procs| && t.outq == tb.outq && t.procs[j].plist == a.plist && t.procs[j].mlist == a.mlist
      && t.procs[j].ulist == if WaitUnbind in tb.procs[x].rts then Without(a.ulist, x) else a.ulist
    ensures
      var t, a := GiveUp(tb, x, rmt, rec), tb.procs[j];
      && |t.procs| == |tb.procs| && t.procs[j].mlist == a.mlist && t.procs[j].ulist == a.ulist
      && (Sending !in tb.procs[x].rts ==> t.procs[j].plist == a.plist && t.outq == tb.outq)
  {
  }

  /** A notification left pending is what the next receive takes. */
  lemma NotifyThenReceive(tb: Table, x: Slot, d: Slot, ep: int)
    requires Strangers(tb, x, d) && tb.procs[x].sid < tb.nrSys && tb.procs[d].sid < tb.nrSys
    ensures Receive(Notify(tb, x, d), d, ep) == tb
  {
    var i, r := tb.procs[x].sid, tb.procs[d];
    NotifyGoes(tb, x, d);
    NotifyInv(tb, x, d);
    var u := Notify(tb, x, d);
    assert u.procs[d].notify == {i};
    ReceiveNotified(u, d, ep);
    assert {i} - {i} == {};
    assert Put(u, d, r) == tb;
  }
}
