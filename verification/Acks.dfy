/**
 Acknowledgements of remote sends, over every run of a DC: an accepted acknowledgement
 belongs to a send of its own, to the endpoint it came from.
 */
module Acks {
  import opened Descriptors
  import opened ProcTable
  import opened QueueOps
  import opened QueueRuns
  import opened Steps

  /** One step, seen by process l: it goes on with the send it had, or it stops sending, or
      it was not sending and starts a send. */
  lemma StepSend(tb: Table, e: Event, l: Slot)
    requires l < |tb.procs|
    ensures
      var t := Step(tb, e);
      && |t.procs| == |tb.procs|
      && (NoNewSend(tb.procs[l], t.procs[l]) || Starts(tb, t, e, l))
  {
    if IsSend(e) || e.EvArrive? {
      if Sender(e) < |tb.procs| && Dest(e) < |tb.procs| {
        StepOpens(tb, e);
        assert Kept(tb.procs[l], Step(tb, e).procs[l])
            || (l == Sender(e) && Opened(tb.procs[l], Step(tb, e).procs[l], tb.procs[Dest(e)].endpoint));
      }
    } else if e.EvBind? || e.EvAutobind? {
      BindSends(tb, e, l);
    } else if e.EvUnbind? {
      UnbindSends(tb, e.p, l);
    } else if e.EvProxyFail? {
      ProxyFailQuiet(tb, e.x, e.rcode);
    } else if e.EvEnter? {
      EnterSends(tb, e.p, l);
    } else {
      StepQuiet(tb, e);
      assert Kept(tb.procs[l], Step(tb, e).procs[l]);
    }
  }

  /** The step from tb to t is a send of l: of its own if l is local, to the endpoint it then
      waits for; of a message that arrived from its node if l is remote. */
  ghost predicate Starts(tb: Table, t: Table, e: Event, l: Slot)
    requires |t.procs| == |tb.procs| && l < |tb.procs|
  {
    && Sending !in tb.procs[l].rts && Sending in t.procs[l].rts
    && (t.procs[l].IsLocal() ==>
          IsSend(e) && Sender(e) == l && Dest(e) < |tb.procs| && t.procs[l].sendto == tb.procs[Dest(e)].endpoint)
  }

  // ---- accepted acknowledgements ----

  /** The three tests of send_ack_rmt2lcl, on descriptors the proxy already checked. */
  predicate Accepted(tb: Table, r: Slot, l: Slot) {
    && r < |tb.procs| && l < |tb.procs| && !tb.procs[r].Free() && tb.procs[r].IsRemote()
    && !tb.procs[l].Free() && tb.procs[l].IsLocal()
    && Sending !in tb.procs[r].rts && Sending in tb.procs[l].rts && tb.procs[l].sendto == tb.procs[r].endpoint
  }

  /** What an acknowledgement does: an accepted one ends the send, and wakes the process if
      and only if it waits for nothing else; any other changes nothing. */
  lemma AckEffect(tb: Table, r: Slot, l: Slot, rcode: int)
    requires r < |tb.procs| && l < |tb.procs|
    ensures !Accepted(tb, r, l) ==> SendAck(tb, r, l, rcode) == tb
    ensures Accepted(tb, r, l) ==>
              var t := SendAck(tb, r, l, rcode);
              var a, b := tb.procs[l], t.procs[l];
              && t == Put(tb, l, b) && b.rts == a.rts - {Sending} && b.sendto == NONE
              && (b.sem == a.sem + 1 && b.rcode == rcode <==> a.rts == {Sending})
              && (b.sem == a.sem && b.rcode == a.rcode <==> a.rts != {Sending})
              && (Receiving in a.rts ==> b.sem == a.sem)
  {
  }

  /** Step i accepts an acknowledgement for l. */
  ghost predicate AckAt(ts: seq<Table>, es: seq<Event>, i: nat, l: Slot)
    requires i < |es| && |ts| == |es| + 1
  {
    es[i].EvSendAck? && es[i].l == l && Accepted(ts[i], es[i].r, l)
  }

  ghost predicate StartAt(ts: seq<Table>, es: seq<Event>, i: nat, l: Slot)
    requires i < |es| && |ts| == |es| + 1
  {
    l < |ts[i].procs| && |ts[i + 1].procs| == |ts[i].procs| && Starts(ts[i], ts[i + 1], es[i], l)
  }

  /** l has been sending to the same endpoint since the step after m, up to table i. */
  ghost predicate SendingSince(ts: seq<Table>, l: Slot, m: nat, i: nat)
    requires i < |ts|
  {
    l < |ts[i].procs|
    && forall j :: m < j <= i ==>
         && l < |ts[j].procs| && Sending in ts[j].procs[l].rts
         && ts[j].procs[l].sendto == ts[i].procs[l].sendto
         && (ts[j].procs[l].IsRemote() ==> ts[i].procs[l].IsRemote())
  }

  lemma RunStep(ts: seq<Table>, es: seq<Event>, i: nat, l: Slot)
    requires IsRun(ts, es) && i < |es|
    ensures |ts[i + 1].procs| == |ts[i].procs|
    ensures l < |ts[i].procs| ==> NoNewSend(ts[i].procs[l], ts[i + 1].procs[l]) || StartAt(ts, es, i, l)
  {
    if l < |ts[i].procs| {
      StepSend(ts[i], es[i], l);
    } else if |ts[i].procs| > 0 {
      StepSend(ts[i], es[i], 0);
    }
  }

  /** What a run means for the sends of l, step by step. */
  ghost predicate Trail(ts: seq<Table>, es: seq<Event>, l: Slot) {
    && |ts| == |es| + 1 && (forall i :: 0 <= i < |ts| ==> |ts[i].procs| == |ts[0].procs|)
    && l < |ts[0].procs|
    && forall i :: 0 <= i < |es| ==> NoNewSend(ts[i].procs[l], ts[i + 1].procs[l]) || StartAt(ts, es, i, l)
  }

  lemma {:induction false} RunSize(ts: seq<Table>, es: seq<Event>, i: nat)
    requires IsRun(ts, es) && i < |ts|
    ensures |ts[i].procs| == |ts[0].procs|
  {
    if i > 0 {
      RunSize(ts, es, i - 1);
      RunStep(ts, es, i - 1, 0);
    }
  }

  lemma RunTrail(ts: seq<Table>, es: seq<Event>, l: Slot)
    requires IsRun(ts, es) && l < |ts[0].procs|
    ensures Trail(ts, es, l)
  {
    forall i | 0 <= i < |ts| ensures |ts[i].procs| == |ts[0].procs| {
      RunSize(ts, es, i);
    }
    forall i | 0 <= i < |es| ensures NoNewSend(ts[i].procs[l], ts[i + 1].procs[l]) || StartAt(ts, es, i, l) {
      RunStep(ts, es, i, l);
    }
  }

  lemma SinceExtends(ts: seq<Table>, l: Slot, m: nat, i: nat)
    requires 0 < i < |ts| && SendingSince(ts, l, m, i - 1) && m < i - 1 && l < |ts[i].procs|
    requires Sending in ts[i].procs[l].rts && NoNewSend(ts[i - 1].procs[l], ts[i].procs[l])
    ensures SendingSince(ts, l, m, i)
  {
  }

  /** A process found sending started that send at some step and kept to it since. */
  lemma {:induction false} SendHasStart(ts: seq<Table>, es: seq<Event>, i: nat, l: Slot) returns (m: nat)
    requires Trail(ts, es, l) && i < |ts|
    requires Sending !in ts[0].procs[l].rts && Sending in ts[i].procs[l].rts
    ensures m < i && StartAt(ts, es, m, l) && SendingSince(ts, l, m, i)
  {
    if StartAt(ts, es, i - 1, l) {
      m := i - 1;
    } else {
      m := SendHasStart(ts, es, i - 1, l);
      SinceExtends(ts, l, m, i);
    }
  }

  /** In every run, whatever acknowledgements are duplicated, late or misaddressed: an
      accepted one answers a send l itself made, to the very endpoint it comes from, that no
      earlier acknowledgement answered. */
  lemma AckMatchesSend(ts: seq<Table>, es: seq<Event>, i: nat, l: Slot) returns (m: nat)
    requires IsRun(ts, es) && i < |es| && l < |ts[0].procs| && Sending !in ts[0].procs[l].rts
    requires AckAt(ts, es, i, l)
    ensures m < i && StartAt(ts, es, m, l) && SendingSince(ts, l, m, i)
    ensures IsSend(es[m]) && Sender(es[m]) == l && Dest(es[m]) < |ts[m].procs|
            && ts[m].procs[Dest(es[m])].endpoint == ts[i].procs[es[i].r].endpoint
    ensures Sending !in ts[i + 1].procs[l].rts
    ensures forall j :: m < j < i ==> !AckAt(ts, es, j, l)
  {
    RunTrail(ts, es, l);
    m := SendHasStart(ts, es, i, l);
    assert ts[m + 1].procs[l].IsLocal();
    AckEffect(ts[i], es[i].r, l, es[i].rcode);
    forall j | m < j < i ensures !AckAt(ts, es, j, l) {
      assert Sending in ts[j + 1].procs[l].rts;
      if AckAt(ts, es, j, l) {
        AckEffect(ts[j], es[j].r, l, es[j].rcode);
        assert false;
      }
    }
  }

  // ---- counting ----

  ghost function Acks(ts: seq<Table>, es: seq<Event>, i: nat, l: Slot): nat
    requires i <= |es| && |ts| == |es| + 1
  {
    if i == 0 then 0 else Acks(ts, es, i - 1, l) + if AckAt(ts, es, i - 1, l) then 1 else 0
  }

  ghost function Sends(ts: seq<Table>, es: seq<Event>, i: nat, l: Slot): nat
    requires i <= |es| && |ts| == |es| + 1
  {
    if i == 0 then 0 else Sends(ts, es, i - 1, l) + if StartAt(ts, es, i - 1, l) then 1 else 0
  }

  lemma AckCloses(ts: seq<Table>, es: seq<Event>, i: nat, l: Slot)
    requires IsRun(ts, es) && i < |es| && |ts[i + 1].procs| == |ts[i].procs|
    ensures AckAt(ts, es, i, l) ==> Sending in ts[i].procs[l].rts && Sending !in ts[i + 1].procs[l].rts
  {
  }

  /** In every run, no process has had more acknowledgements accepted than it made sends, and
      strictly fewer while a send of its is still open. */
  lemma {:induction false} AcksNeverExceedSends(ts: seq<Table>, es: seq<Event>, i: nat, l: Slot)
    requires IsRun(ts, es) && i <= |es| && l < |ts[0].procs| && Sending !in ts[0].procs[l].rts
    ensures |ts[i].procs| == |ts[0].procs|
    ensures Acks(ts, es, i, l) + (if Sending in ts[i].procs[l].rts then 1 else 0) <= Sends(ts, es, i, l)
  {
    RunSize(ts, es, i);
    if i > 0 {
      AcksNeverExceedSends(ts, es, i - 1, l);
      RunStep(ts, es, i - 1, l);
      AckCloses(ts, es, i - 1, l);
    }
  }
}
