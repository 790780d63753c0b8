/**
 Which nodes belong to which DC, and which proxy pair carries which node: the bitmaps
 and connection flags of the DVS, as values, and the operations that change them.
 */
module Topology {

  datatype DcEnt = DcEnt(running: bool, nodes: set<nat>, limit: int)

  datatype NodeFlag = Attached | SConnected | RConnected

  /** A cluster node; NODE_FREE is the empty set of flags. */
  datatype NodeEnt = NodeEnt(flags: set<NodeFlag>, dcs: set<nat>, pair: int)

  const NO_PROXIES := -1

  /** A proxy pair: px_flags, and the node maps of its sender and receiver. */
  datatype Pair = Pair(inuse: bool, sconn: bool, rconn: bool, smap: set<nat>, rmap: set<nat>)

  datatype Dvs = Dvs(local: nat, dcs: seq<DcEnt>, nodes: seq<NodeEnt>, pairs: seq<Pair>)

  datatype Side = Sender | Receiver

  const FREE_NODE := NodeEnt({}, {}, NO_PROXIES)
  const FREE_PAIR := Pair(false, false, false, {}, {})

  // ---- the operations on values ----

  /** mm_dc_init; the ranges of its parameters are its caller's duty. */
  function DcInit(v: Dvs, d: nat, limit: int): Dvs
    requires d < |v.dcs| && v.local < |v.nodes|
  {
    if v.dcs[d].running then v
    else v.(dcs := v.dcs[d := DcEnt(true, {v.local}, limit)],
            nodes := v.nodes[v.local := v.nodes[v.local].(dcs := v.nodes[v.local].dcs + {d})])
  }

  predicate Addable(v: Dvs, d: nat, n: nat)
    requires d < |v.dcs| && n < |v.nodes|
  {
    && n != v.local && v.nodes[n].flags != {} && v.dcs[d].running
    && n !in v.dcs[d].nodes && d !in v.nodes[n].dcs && |v.dcs[d].nodes| < v.dcs[d].limit
  }

  function AddNode(v: Dvs, d: nat, n: nat): Dvs
    requires d < |v.dcs| && n < |v.nodes|
  {
    if !Addable(v, d, n) then v
    else v.(dcs := v.dcs[d := v.dcs[d].(nodes := v.dcs[d].nodes + {n})],
            nodes := v.nodes[n := v.nodes[n].(dcs := v.nodes[n].dcs + {d})])
  }

  predicate Deletable(v: Dvs, d: nat, n: nat)
    requires d < |v.dcs| && n < |v.nodes|
  {
    && n != v.local && v.nodes[n].flags != {} && v.dcs[d].running
    && n in v.dcs[d].nodes && d in v.nodes[n].dcs
  }

  function DelNode(v: Dvs, d: nat, n: nat): Dvs
    requires d < |v.dcs| && n < |v.nodes|
  {
    if !Deletable(v, d, n) then v
    else v.(dcs := v.dcs[d := v.dcs[d].(nodes := v.dcs[d].nodes - {n})],
            nodes := v.nodes[n := v.nodes[n].(dcs := v.nodes[n].dcs - {d})])
  }

  /** The bitmap part of dc_release: nodes that are free are skipped. */
  function Forget(d: nat, x: NodeEnt): NodeEnt {
    if x.flags == {} then x else x.(dcs := x.dcs - {d})
  }

  function DcRelease(v: Dvs, d: nat): Dvs
    requires d < |v.dcs|
  {
    v.(dcs := v.dcs[d := v.dcs[d].(running := false, nodes := {})],
       nodes := seq(|v.nodes|, i requires 0 <= i < |v.nodes| => Forget(d, v.nodes[i])))
  }

  /** A DC when the nodes in s end; one that is not running is skipped. */
  function Lose(s: set<nat>, x: DcEnt): DcEnt {
    if x.running then x.(nodes := x.nodes - s) else x
  }

  function LoseAll(s: set<nat>, dcs: seq<DcEnt>): (r: seq<DcEnt>)
    ensures |r| == |dcs|
  {
    seq(|dcs|, d requires 0 <= d < |dcs| => Lose(s, dcs[d]))
  }

  /** do_node_end. */
  function NodeEnd(v: Dvs, n: nat): Dvs
    requires n < |v.nodes|
  {
    v.(dcs := LoseAll({n}, v.dcs), nodes := v.nodes[n := FREE_NODE])
  }

  function ConnFlags(p: Pair): set<NodeFlag> {
    {Attached} + (if p.sconn then {SConnected} else {}) + (if p.rconn then {RConnected} else {})
  }

  /** mm_node_up: n is carried by pair px, if that is in use. */
  function NodeUp(v: Dvs, n: nat, px: nat): Dvs
    requires n < |v.nodes| && px < |v.pairs|
  {
    var p := v.pairs[px];
    if !p.inuse then v
    else v.(pairs := v.pairs[px := p.(smap := p.smap + {n}, rmap := p.rmap + {n})],
            nodes := v.nodes[n := v.nodes[n].(flags := ConnFlags(p), pair := px)])
  }

  function PairBind(v: Dvs, px: nat): Dvs
    requires px < |v.pairs|
  {
    if v.pairs[px].inuse then v else v.(pairs := v.pairs[px := FREE_PAIR.(inuse := true)])
  }

  function MapOf(p: Pair, side: Side): set<nat> {
    if side.Sender? then p.smap else p.rmap
  }

  function FlagOf(side: Side): NodeFlag {
    if side.Sender? then SConnected else RConnected
  }

  function Other(side: Side): Side {
    if side.Sender? then Receiver else Sender
  }

  /** The nodes that end when one proxy of a pair exits: those it carried and that are not
      connected the other way. */
  function Ending(v: Dvs, px: nat, side: Side): set<nat>
    requires px < |v.pairs|
  {
    set i | i in MapOf(v.pairs[px], side) && i < |v.nodes| && FlagOf(Other(side)) !in v.nodes[i].flags
  }

  /** What the exit leaves of node i. */
  function Dropped(s: set<nat>, side: Side, i: nat, x: NodeEnt): NodeEnt {
    if i !in s then x
    else if FlagOf(Other(side)) !in x.flags then FREE_NODE
    else x.(flags := x.flags - {FlagOf(side)})
  }

  /** do_proxies_unbind called by one side; the other side's own exit then finds no node. */
  function PairUnbind(v: Dvs, px: nat, side: Side): Dvs
    requires px < |v.pairs|
  {
    var s := MapOf(v.pairs[px], side);
    if !v.pairs[px].inuse then v
    else v.(dcs := LoseAll(Ending(v, px, side), v.dcs),
            nodes := seq(|v.nodes|, i requires 0 <= i < |v.nodes| => Dropped(s, side, i, v.nodes[i])),
            pairs := v.pairs[px := FREE_PAIR.(smap := v.pairs[px].smap - s, rmap := v.pairs[px].rmap - s)])
  }

  function Flip(s: set<nat>, f: NodeFlag, up: bool, i: nat, x: NodeEnt): NodeEnt {
    if i !in s then x else x.(flags := if up then x.flags + {f} else x.flags - {f})
  }

  /** mm_proxy_conn: one side of pair px connects or disconnects. */
  function PairConn(v: Dvs, px: nat, side: Side, up: bool): Dvs
    requires px < |v.pairs|
  {
    var p := v.pairs[px];
    if !p.inuse then v
    else v.(pairs := v.pairs[px := if side.Sender? then p.(sconn := up) else p.(rconn := up)],
            nodes := seq(|v.nodes|, i requires 0 <= i < |v.nodes| => Flip(MapOf(p, side), FlagOf(side), up, i, v.nodes[i])))
  }

  // ---- symmetry and bound ----

  /** Node n is in the bitmap of DC d exactly if d is in the bitmap of n. */
  ghost predicate Symmetric(v: Dvs) {
    forall d: nat, n: nat :: d < |v.dcs| && n < |v.nodes| ==> (n in v.dcs[d].nodes <==> d in v.nodes[n].dcs)
  }

  ghost predicate Bounded(v: Dvs) {
    forall d :: 0 <= d < |v.dcs| && v.dcs[d].running ==> |v.dcs[d].nodes| <= v.dcs[d].limit
  }

  ghost predicate Tidy(v: Dvs) {
    && v.local < |v.nodes| && v.nodes[v.local].flags != {}
    && (forall d, n :: 0 <= d < |v.dcs| && n in v.dcs[d].nodes ==> n < |v.nodes|)
    && (forall d :: 0 <= d < |v.dcs| && !v.dcs[d].running ==> v.dcs[d].nodes == {})
    && (forall d :: 0 <= d < |v.dcs| && v.dcs[d].running ==> v.local in v.dcs[d].nodes)
    && (forall n :: 0 <= n < |v.nodes| && v.nodes[n].flags == {} ==> v.nodes[n].dcs == {})
    && (forall px :: 0 <= px < |v.pairs| ==> v.local !in v.pairs[px].smap && v.local !in v.pairs[px].rmap)
  }

  ghost predicate TopologyOk(v: Dvs) {
    Symmetric(v) && Bounded(v) && Tidy(v)
  }

  datatype Event =
    | EvDcInit(d: nat, limit: int)
    | EvAddNode(d: nat, n: nat)
    | EvDelNode(d: nat, n: nat)
    | EvDcRelease(d: nat)
    | EvNodeEnd(n: nat)
    | EvNodeUp(n: nat, px: nat)
    | EvPairBind(px: nat)
    | EvPairUnbind(px: nat, side: Side)
    | EvPairConn(px: nat, side: Side, up: bool)

  function Step(v: Dvs, e: Event): Dvs {
    match e
    case EvDcInit(d, limit) => if d < |v.dcs| && v.local < |v.nodes| then DcInit(v, d, limit) else v
    case EvAddNode(d, n) => if d < |v.dcs| && n < |v.nodes| then AddNode(v, d, n) else v
    case EvDelNode(d, n) => if d < |v.dcs| && n < |v.nodes| then DelNode(v, d, n) else v
    case EvDcRelease(d) => if d < |v.dcs| then DcRelease(v, d) else v
    case EvNodeEnd(n) => if n < |v.nodes| then NodeEnd(v, n) else v
    case EvNodeUp(n, px) => if n < |v.nodes| && px < |v.pairs| then NodeUp(v, n, px) else v
    case EvPairBind(px) => if px < |v.pairs| then PairBind(v, px) else v
    case EvPairUnbind(px, side) => if px < |v.pairs| then PairUnbind(v, px, side) else v
    case EvPairConn(px, side, up) => if px < |v.pairs| then PairConn(v, px, side, up) else v
  }

  /** A disconnection does not turn a node into a free one while DCs still list it. */
  ghost predicate ConnSafe(v: Dvs, px: nat, side: Side, up: bool)
    requires px < |v.pairs|
  {
    forall n :: 0 <= n < |v.nodes| && n in MapOf(v.pairs[px], side) && !up && v.nodes[n].dcs != {} ==>
      !(v.nodes[n].flags <= {FlagOf(side)})
  }

  /** The exact condition of each step: a DC that is started admits at least the local node, the
      local node is neither ended nor put behind a proxy pair, and no node was ended under a pair
      that still carries it. */
  ghost predicate Legal(v: Dvs, e: Event) {
    match e
    case EvPairConn(px, side, up) => px < |v.pairs| && v.pairs[px].inuse ==> ConnSafe(v, px, side, up)
    case EvDcInit(d, limit) => d < |v.dcs| && !v.dcs[d].running ==> limit >= 1
    case EvNodeEnd(n) => n != v.local
    case EvNodeUp(n, px) => n < |v.nodes| && px < |v.pairs| && v.pairs[px].inuse ==> n != v.local
    case _ => true
  }

  lemma DcInitOkIff(v: Dvs, d: nat, limit: int)
    requires TopologyOk(v) && d < |v.dcs|
    ensures TopologyOk(DcInit(v, d, limit)) <==> v.dcs[d].running || limit >= 1
  {
    if !v.dcs[d].running {
      assert DcInit(v, d, limit).dcs[d] == DcEnt(true, {v.local}, limit);
    }
  }

  lemma AddNodeOk(v: Dvs, d: nat, n: nat)
    requires TopologyOk(v) && d < |v.dcs| && n < |v.nodes|
    ensures TopologyOk(AddNode(v, d, n))
  {
    if Addable(v, d, n) {
      assert |v.dcs[d].nodes + {n}| == |v.dcs[d].nodes| + 1;
    }
  }

  lemma DelNodeOk(v: Dvs, d: nat, n: nat)
    requires TopologyOk(v) && d < |v.dcs| && n < |v.nodes|
    ensures TopologyOk(DelNode(v, d, n))
  {
  }

  lemma DcReleaseOk(v: Dvs, d: nat)
    requires TopologyOk(v) && d < |v.dcs|
    ensures TopologyOk(DcRelease(v, d))
  {
  }

  /** Ending the nodes of a set s clears both sides of the relation. */
  lemma EndOk(v: Dvs, s: set<nat>, w: Dvs)
    requires TopologyOk(v) && v.local !in s
    requires w.local == v.local && |w.nodes| == |v.nodes| && w.dcs == LoseAll(s, v.dcs)
    requires forall n :: 0 <= n < |v.nodes| ==>
               w.nodes[n].dcs == (if n in s then {} else v.nodes[n].dcs) && (n in s ==> w.nodes[n].flags == {})
               && (n !in s ==> (w.nodes[n].flags == {} <==> v.nodes[n].flags == {}))
    requires forall px :: 0 <= px < |w.pairs| ==> v.local !in w.pairs[px].smap && v.local !in w.pairs[px].rmap
    ensures TopologyOk(w)
  {
  }

  lemma NodeEndOkIff(v: Dvs, n: nat)
    requires TopologyOk(v) && n < |v.nodes|
    ensures TopologyOk(NodeEnd(v, n)) <==> n != v.local
  {
  }

  lemma PairUnbindOk(v: Dvs, px: nat, side: Side)
    requires TopologyOk(v) && px < |v.pairs|
    ensures TopologyOk(PairUnbind(v, px, side))
  {
    var w, s := PairUnbind(v, px, side), Ending(v, px, side);
    if v.pairs[px].inuse {
      forall i: nat | i < |v.nodes|
        ensures i in s <==> i in MapOf(v.pairs[px], side) && FlagOf(Other(side)) !in v.nodes[i].flags
        ensures i !in s ==> (w.nodes[i].flags == {} <==> v.nodes[i].flags == {})
      {
        if i !in s && i in MapOf(v.pairs[px], side) {
          assert FlagOf(Other(side)) in w.nodes[i].flags;
        }
      }
      EndOk(v, s, w);
    }
  }

  /** Steps that leave all bitmaps alone and free no node. */
  lemma BitmapsKept(v: Dvs, w: Dvs)
    requires TopologyOk(v) && w.local == v.local && w.dcs == v.dcs && |w.nodes| == |v.nodes|
    requires forall n :: 0 <= n < |v.nodes| ==>
               w.nodes[n].dcs == v.nodes[n].dcs && (w.nodes[n].flags == {} ==> v.nodes[n].dcs == {} && n != v.local)
    requires forall px :: 0 <= px < |w.pairs| ==> v.local !in w.pairs[px].smap && v.local !in w.pairs[px].rmap
    ensures TopologyOk(w)
  {
  }

  lemma NodeUpOkIff(v: Dvs, n: nat, px: nat)
    requires TopologyOk(v) && n < |v.nodes| && px < |v.pairs| && v.pairs[px].inuse
    ensures TopologyOk(NodeUp(v, n, px)) <==> n != v.local
  {
    assert n in NodeUp(v, n, px).pairs[px].smap;
  }

  /** A connection change keeps the topology sound exactly if it is safe in that sense. */
  lemma PairConnOkIff(v: Dvs, px: nat, side: Side, up: bool)
    requires TopologyOk(v) && px < |v.pairs| && v.pairs[px].inuse
    ensures TopologyOk(PairConn(v, px, side, up)) <==> ConnSafe(v, px, side, up)
  {
    var w, f := PairConn(v, px, side, up), FlagOf(side);
    forall n | 0 <= n < |v.nodes|
      ensures w.nodes[n].flags == {} <==> (v.nodes[n].flags == {} && (n in MapOf(v.pairs[px], side) ==> !up))
                                          || (n in MapOf(v.pairs[px], side) && !up && v.nodes[n].flags <= {f})
    {
      if n in MapOf(v.pairs[px], side) && up {
        assert f in w.nodes[n].flags;
      } else if n in MapOf(v.pairs[px], side) {
        assert v.nodes[n].flags - {f} == {} <==> v.nodes[n].flags <= {f};
      }
    }
    if ConnSafe(v, px, side, up) {
      BitmapsKept(v, w);
    } else {
      var n :| 0 <= n < |v.nodes| && n in MapOf(v.pairs[px], side) && !up && v.nodes[n].dcs != {} && v.nodes[n].flags <= {f};
      assert w.nodes[n].flags == {} && w.nodes[n].dcs != {};
    }
  }

  /** A step keeps the topology sound if and only if it is legal. */
  lemma StepOkIff(v: Dvs, e: Event)
    requires TopologyOk(v)
    ensures TopologyOk(Step(v, e)) <==> Legal(v, e)
  {
    match e
    case EvDcInit(d, limit) => if d < |v.dcs| { DcInitOkIff(v, d, limit); }
    case EvAddNode(d, n) => if d < |v.dcs| && n < |v.nodes| { AddNodeOk(v, d, n); }
    case EvDelNode(d, n) => if d < |v.dcs| && n < |v.nodes| { DelNodeOk(v, d, n); }
    case EvDcRelease(d) => if d < |v.dcs| { DcReleaseOk(v, d); }
    case EvNodeEnd(n) => if n < |v.nodes| { NodeEndOkIff(v, n); }
    case EvNodeUp(n, px) => if n < |v.nodes| && px < |v.pairs| && v.pairs[px].inuse { NodeUpOkIff(v, n, px); }
    case EvPairBind(px) => if px < |v.pairs| { BitmapsKept(v, PairBind(v, px)); }
    case EvPairUnbind(px, side) => if px < |v.pairs| { PairUnbindOk(v, px, side); }
    case EvPairConn(px, side, up) => if px < |v.pairs| && v.pairs[px].inuse { PairConnOkIff(v, px, side, up); }
  }

  ghost predicate IsRun(vs: seq<Dvs>, es: seq<Event>) {
    |vs| == |es| + 1 && forall i :: 0 <= i < |es| ==> Legal(vs[i], es[i]) && vs[i + 1] == Step(vs[i], es[i])
  }

  /** The tables mm_dvs_init builds: only the local node is not free. */
  ghost predicate Fresh(v: Dvs) {
    && v.local < |v.nodes| && v.nodes[v.local] == FREE_NODE.(flags := {Attached, SConnected})
    && (forall n :: 0 <= n < |v.nodes| && n != v.local ==> v.nodes[n] == FREE_NODE)
    && (forall d :: 0 <= d < |v.dcs| ==> !v.dcs[d].running && v.dcs[d].nodes == {})
    && (forall px :: 0 <= px < |v.pairs| ==> v.pairs[px] == FREE_PAIR)
  }

  /** In every run node n is in the bitmap of DC d exactly when d is in that of n, and a
      running DC lists the local node and never has more nodes than it admits. */
  lemma {:induction false} EveryRunSymmetric(vs: seq<Dvs>, es: seq<Event>, i: nat)
    requires IsRun(vs, es) && Fresh(vs[0]) && i < |vs|
    ensures TopologyOk(vs[i]) && Symmetric(vs[i]) && Bounded(vs[i])
    ensures forall d :: 0 <= d < |vs[i].dcs| && vs[i].dcs[d].running ==> vs[i].local in vs[i].dcs[d].nodes
  {
    if i > 0 {
      EveryRunSymmetric(vs, es, i - 1);
      StepOkIff(vs[i - 1], es[i - 1]);
    }
  }

  // ---- what each operation does to the maps ----

  /** w is v but for the maps of DCs and nodes. */
  ghost predicate SameButMaps(v: Dvs, w: Dvs) {
    && w.local == v.local && w.pairs == v.pairs && |w.dcs| == |v.dcs| && |w.nodes| == |v.nodes|
    && (forall d :: 0 <= d < |v.dcs| ==> w.dcs[d].running == v.dcs[d].running && w.dcs[d].limit == v.dcs[d].limit)
    && (forall n :: 0 <= n < |v.nodes| ==> w.nodes[n].flags == v.nodes[n].flags && w.nodes[n].pair == v.nodes[n].pair)
  }

  /** Only whether DC d and node n list each other may differ from v to w; in w they do as said. */
  ghost predicate OnlyPairing(v: Dvs, w: Dvs, d: nat, n: nat, listed: bool) {
    && SameButMaps(v, w)
    && (forall e, m: nat :: 0 <= e < |v.dcs| ==>
          (m in w.dcs[e].nodes <==> if e == d && m == n then listed else m in v.dcs[e].nodes))
    && (forall m, e: nat :: 0 <= m < |v.nodes| ==>
          (e in w.nodes[m].dcs <==> if e == d && m == n then listed else e in v.nodes[m].dcs))
  }

  /** mm_add_node: a node in use other than the local one joins a running DC that does not list it
      and has room; in every other case nothing changes. */
  lemma AddNodeIff(v: Dvs, d: nat, n: nat)
    requires TopologyOk(v) && d < |v.dcs| && n < |v.nodes|
    ensures
      var w := AddNode(v, d, n);
      var joins := && n != v.local && v.nodes[n].flags != {} && v.dcs[d].running
                   && n !in v.dcs[d].nodes && |v.dcs[d].nodes| < v.dcs[d].limit;
      if joins then OnlyPairing(v, w, d, n, true) else w == v
  {
  }

  /** mm_del_node: any member but the local node leaves a running DC; in every other case nothing
      changes. */
  lemma DelNodeIff(v: Dvs, d: nat, n: nat)
    requires TopologyOk(v) && d < |v.dcs| && n < |v.nodes|
    ensures
      var w := DelNode(v, d, n);
      if n != v.local && v.dcs[d].running && n in v.dcs[d].nodes then OnlyPairing(v, w, d, n, false) else w == v
  {
  }

  /** Deleting undoes adding. */
  lemma AddThenDel(v: Dvs, d: nat, n: nat)
    requires TopologyOk(v) && d < |v.dcs| && n < |v.nodes| && AddNode(v, d, n) != v
    ensures DelNode(AddNode(v, d, n), d, n) == v
  {
    var w := DelNode(AddNode(v, d, n), d, n);
    assert v.dcs[d].nodes + {n} - {n} == v.dcs[d].nodes && v.nodes[n].dcs + {d} - {d} == v.nodes[n].dcs;
    assert w.dcs == v.dcs && w.nodes == v.nodes;
  }

  /** A started DC has the local node alone, and the limit it was given. */
  lemma DcInitIff(v: Dvs, d: nat, limit: int)
    requires TopologyOk(v) && d < |v.dcs|
    ensures
      var w := DcInit(v, d, limit);
      if v.dcs[d].running then w == v
      else
        && w.dcs == v.dcs[d := DcEnt(true, {v.local}, limit)] && w.pairs == v.pairs && w.local == v.local
        && OnlyPairing(v.(dcs := v.dcs[d := v.dcs[d].(running := true, limit := limit)]), w, d, v.local, true)
  {
  }

  /** A released DC runs no more, lists no node and is listed by none; nothing else changes. */
  lemma DcReleaseFrees(v: Dvs, d: nat)
    requires TopologyOk(v) && d < |v.dcs|
    ensures
      var w := DcRelease(v, d);
      && w.dcs == v.dcs[d := v.dcs[d].(running := false, nodes := {})] && |w.nodes| == |v.nodes|
      && w.pairs == v.pairs && w.local == v.local
      && forall n :: 0 <= n < |v.nodes| ==> w.nodes[n] == v.nodes[n].(dcs := v.nodes[n].dcs - {d})
  {
  }

  /** Releasing undoes starting, but for the limit that is left behind. */
  lemma InitThenRelease(v: Dvs, d: nat, limit: int)
    requires TopologyOk(v) && d < |v.dcs| && !v.dcs[d].running
    ensures DcRelease(DcInit(v, d, limit), d) == v.(dcs := v.dcs[d := v.dcs[d].(limit := limit)])
  {
    var u := DcInit(v, d, limit);
    var w := DcRelease(u, d);
    forall n: nat | n < |v.nodes| ensures w.nodes[n] == v.nodes[n] {
      assert d !in v.nodes[n].dcs;
      assert v.nodes[n].dcs + {d} - {d} == v.nodes[n].dcs;
    }
    assert w.nodes == v.nodes && w.dcs == v.dcs[d := v.dcs[d].(limit := limit)];
  }

  /** An ended node is free and listed by no DC; the other members of each DC stay. */
  lemma NodeEndFrees(v: Dvs, n: nat)
    requires TopologyOk(v) && n < |v.nodes|
    ensures
      var w := NodeEnd(v, n);
      && w.nodes == v.nodes[n := NodeEnt({}, {}, NO_PROXIES)] && w.pairs == v.pairs && w.local == v.local
      && |w.dcs| == |v.dcs| && forall d :: 0 <= d < |v.dcs| ==> w.dcs[d] == v.dcs[d].(nodes := v.dcs[d].nodes - {n})
  {
    var w := NodeEnd(v, n);
    forall d | 0 <= d < |v.dcs| ensures w.dcs[d] == v.dcs[d].(nodes := v.dcs[d].nodes - {n}) {
      if !v.dcs[d].running {
        assert v.dcs[d].nodes - {n} == v.dcs[d].nodes;
      }
    }
  }

  /** A node put behind a pair in use joins both maps and shows exactly the pair's connections. */
  lemma NodeUpJoins(v: Dvs, n: nat, px: nat)
    requires n < |v.nodes| && px < |v.pairs|
    ensures
      var w, p := NodeUp(v, n, px), v.pairs[px];
      if !p.inuse then w == v
      else
        && w == v.(nodes := w.nodes, pairs := w.pairs) && |w.nodes| == |v.nodes| && |w.pairs| == |v.pairs|
        && w.pairs[px] == p.(smap := p.smap + {n}, rmap := p.rmap + {n})
        && (forall q :: 0 <= q < |v.pairs| && q != px ==> w.pairs[q] == v.pairs[q])
        && (forall m :: 0 <= m < |v.nodes| && m != n ==> w.nodes[m] == v.nodes[m])
        && w.nodes[n].dcs == v.nodes[n].dcs && w.nodes[n].pair == px && Attached in w.nodes[n].flags
        && (SConnected in w.nodes[n].flags <==> p.sconn) && (RConnected in w.nodes[n].flags <==> p.rconn)
  {
  }

  /** A side that connects or disconnects changes that side of the pair and of exactly the nodes it
      carries; what it sets it clears again. */
  lemma PairConnFlips(v: Dvs, px: nat, side: Side, up: bool)
    requires px < |v.pairs|
    ensures
      var w, p := PairConn(v, px, side, up), v.pairs[px];
      var m, f := if side.Sender? then p.smap else p.rmap, if side.Sender? then SConnected else RConnected;
      if !p.inuse then w == v
      else
        && w == v.(nodes := w.nodes, pairs := v.pairs[px := if side.Sender? then p.(sconn := up) else p.(rconn := up)])
        && |w.nodes| == |v.nodes|
        && forall n :: 0 <= n < |v.nodes| ==>
             && w.nodes[n] == v.nodes[n].(flags := w.nodes[n].flags)
             && forall g :: g in w.nodes[n].flags <==> if n in m && g == f then up else g in v.nodes[n].flags
  {
  }

  /** A pair is bound unconnected and without nodes; unbinding it again gives the same table. */
  lemma BindThenUnbind(v: Dvs, px: nat, side: Side)
    requires px < |v.pairs| && v.pairs[px] == Pair(false, false, false, {}, {})
    ensures
      var w := PairBind(v, px);
      && w == v.(pairs := v.pairs[px := Pair(true, false, false, {}, {})])
      && PairUnbind(w, px, side) == v
  {
    var w := PairUnbind(PairBind(v, px), px, side);
    assert Ending(PairBind(v, px), px, side) == {};
    forall d | 0 <= d < |v.dcs| ensures w.dcs[d] == v.dcs[d] {
      assert v.dcs[d].nodes - {} == v.dcs[d].nodes;
    }
    assert w.dcs == v.dcs && w.nodes == v.nodes && w.pairs[px] == v.pairs[px] && w.pairs == v.pairs;
  }

  /** When one proxy of a pair in use exits: the nodes it carried and that are not connected the
      other way end, in all running DCs; the other ones it carried lose its connection; the pair is
      free and carries none of them. */
  lemma PairUnbindEnds(v: Dvs, px: nat, side: Side, n: nat)
    requires TopologyOk(v) && px < |v.pairs| && v.pairs[px].inuse && n < |v.nodes|
    ensures
      var w, p := PairUnbind(v, px, side), v.pairs[px];
      var carried := n in if side.Sender? then p.smap else p.rmap;
      var stays := (if side.Sender? then RConnected else SConnected) in v.nodes[n].flags;
      && |w.nodes| == |v.nodes| && |w.dcs| == |v.dcs| && |w.pairs| == |v.pairs|
      && (!carried ==> w.nodes[n] == v.nodes[n])
      && (carried && !stays ==> w.nodes[n] == NodeEnt({}, {}, NO_PROXIES))
      && (carried && stays ==>
            w.nodes[n] == v.nodes[n].(flags := v.nodes[n].flags - {if side.Sender? then SConnected else RConnected}))
      && (forall d :: 0 <= d < |v.dcs| ==> (n in w.dcs[d].nodes <==> n in v.dcs[d].nodes && !(carried && !stays)))
      && !w.pairs[px].inuse && !w.pairs[px].sconn && !w.pairs[px].rconn
      && (n in w.pairs[px].smap <==> n in p.smap && !carried) && (n in w.pairs[px].rmap <==> n in p.rmap && !carried)
      && (forall q :: 0 <= q < |v.pairs| && q != px ==> w.pairs[q] == v.pairs[q])
  {
  }

  /** Node n is ended under pair 0, which still carries it and then connects. */
  function EndedThenConnected(v: Dvs, n: nat): Dvs
    requires n < |v.nodes| && |v.pairs| > 0
  {
    PairConn(NodeEnd(NodeUp(PairBind(v, 0), n, 0), n), 0, Sender, true)
  }

  lemma EndedIsListed(v: Dvs, n: nat)
    requires Fresh(v) && n < |v.nodes| && n != v.local && |v.pairs| > 0 && |v.dcs| > 0
    ensures
      var w := EndedThenConnected(v, n);
      var u := AddNode(DcInit(w, 0, 2), 0, n);
      u.pairs[0].inuse && n in u.pairs[0].smap && u.nodes[n].flags == {SConnected} && u.nodes[n].dcs == {0}
  {
    var w := EndedThenConnected(v, n);
    assert w.nodes[n].flags == {} + {SConnected} && w.nodes[n].dcs == {};
    assert Addable(DcInit(w, 0, 2), 0, n);
  }

  /** A legal run after which a disconnection frees a node that a DC lists: the node is ended
      while its pair carries it, the pair connects, and the node is added to a DC. */
  lemma ConnCanFail(v: Dvs, n: nat) returns (vs: seq<Dvs>, es: seq<Event>)
    requires Fresh(v) && n < |v.nodes| && n != v.local && |v.pairs| > 0 && |v.dcs| > 0
    ensures IsRun(vs, es) && vs[0] == v && |vs[|es|].pairs| > 0
    ensures !ConnSafe(vs[|es|], 0, Sender, false) && !TopologyOk(PairConn(vs[|es|], 0, Sender, false))
  {
    vs, es := EndedRun(v, n);
    EndedIsListed(v, n);
    vs, es := Extend(vs, es, EvDcInit(0, 2));
    vs, es := Extend(vs, es, EvAddNode(0, n));
    EveryRunSymmetric(vs, es, |es|);
    PairConnOkIff(vs[|es|], 0, Sender, false);
  }

  lemma EndedRun(v: Dvs, n: nat) returns (vs: seq<Dvs>, es: seq<Event>)
    requires n < |v.nodes| && n != v.local && |v.pairs| > 0
    ensures IsRun(vs, es) && vs[0] == v && vs[|es|] == EndedThenConnected(v, n)
  {
    vs, es := Extend([v], [], EvPairBind(0));
    vs, es := Extend(vs, es, EvNodeUp(n, 0));
    vs, es := Extend(vs, es, EvNodeEnd(n));
    vs, es := Extend(vs, es, EvPairConn(0, Sender, true));
  }

  lemma Extend(vs: seq<Dvs>, es: seq<Event>, e: Event) returns (vs': seq<Dvs>, es': seq<Event>)
    requires IsRun(vs, es) && Legal(vs[|es|], e)
    ensures IsRun(vs', es') && vs'[0] == vs[0] && vs'[|es'|] == Step(vs[|es|], e)
  {
    vs', es' := vs + [Step(vs[|es|], e)], es + [e];
  }

  /** Had the local node been ended, the life of a DC would leave its bit behind: initialising
      and releasing a DC keeps the bitmaps symmetric exactly if the local node is not free. */
  lemma InitReleaseIff(v: Dvs, d: nat, limit: int)
    requires Symmetric(v) && v.local < |v.nodes| && d < |v.dcs| && !v.dcs[d].running && v.dcs[d].nodes == {}
    ensures Symmetric(DcRelease(DcInit(v, d, limit), d)) <==> v.nodes[v.local].flags != {}
  {
    var w := DcRelease(DcInit(v, d, limit), d);
    assert d in w.nodes[v.local].dcs <==> v.nodes[v.local].flags == {};
    if v.nodes[v.local].flags != {} {
      forall e: nat, n: nat | e < |v.dcs| && n < |v.nodes| ensures n in w.dcs[e].nodes <==> e in w.nodes[n].dcs {
        assert n in v.dcs[d].nodes <==> d in v.nodes[n].dcs;
      }
    } else {
      assert v.local !in w.dcs[d].nodes;
    }
  }

  // ---- proxy pairs ----

  /** The two maps of a pair agree, and the nodes it carries show its connections. */
  ghost predicate Mirrors(v: Dvs, px: nat)
    requires px < |v.pairs|
  {
    var p := v.pairs[px];
    && p.smap == p.rmap && (!p.inuse ==> p.smap == {})
    && forall n :: n in p.smap ==> n < |v.nodes| && v.nodes[n].flags == ConnFlags(p) && v.nodes[n].pair == px
  }

  ghost predicate Mirror(v: Dvs) {
    forall px :: 0 <= px < |v.pairs| ==> Mirrors(v, px)
  }

  /** Besides: a node is carried by one pair at a time, and a carried node ends only by the
      exit of a proxy. */
  ghost predicate LegalPair(v: Dvs, e: Event) {
    match e
    case EvNodeUp(n, px) =>
      n < |v.nodes| && px < |v.pairs| && v.pairs[px].inuse ==>
        n != v.local && forall q :: 0 <= q < |v.pairs| && q != px ==> n !in v.pairs[q].smap
    case EvNodeEnd(n) => n != v.local && forall q :: 0 <= q < |v.pairs| ==> n !in v.pairs[q].smap
    case EvDcInit(d, limit) => d < |v.dcs| && !v.dcs[d].running ==> limit >= 1
    case _ => true
  }

  lemma LegalPairIsLegal(v: Dvs, e: Event)
    requires Mirror(v) && LegalPair(v, e)
    ensures Legal(v, e)
  {
    if e.EvPairConn? && e.px < |v.pairs| {
      assert Mirrors(v, e.px);
      assert forall n :: n in MapOf(v.pairs[e.px], e.side) ==> Attached in v.nodes[n].flags;
    }
  }

  /** A step that leaves the pair alone, and the flags and pair of every node it carries. */
  lemma MirrorsKept(v: Dvs, w: Dvs, px: nat)
    requires px < |v.pairs| && Mirrors(v, px) && |w.pairs| == |v.pairs| && |w.nodes| == |v.nodes|
    requires w.pairs[px] == v.pairs[px]
    requires forall n :: n in v.pairs[px].smap ==> w.nodes[n].flags == v.nodes[n].flags && w.nodes[n].pair == v.nodes[n].pair
    ensures Mirrors(w, px)
  {
  }

  lemma DcStepMirrors(v: Dvs, e: Event, px: nat)
    requires Mirror(v) && px < |v.pairs|
    requires e.EvDcInit? || e.EvAddNode? || e.EvDelNode? || e.EvDcRelease?
    ensures |Step(v, e).pairs| == |v.pairs| && Mirrors(Step(v, e), px)
  {
    assert Mirrors(v, px);
    MirrorsKept(v, Step(v, e), px);
  }

  lemma NodeUpMirrors(v: Dvs, n: nat, px: nat, q: nat)
    requires Mirror(v) && n < |v.nodes| && px < |v.pairs| && q < |v.pairs|
    requires LegalPair(v, EvNodeUp(n, px))
    ensures Mirrors(NodeUp(v, n, px), q)
  {
    assert Mirrors(v, q) && Mirrors(v, px);
    if q != px {
      MirrorsKept(v, NodeUp(v, n, px), q);
    }
  }

  /** Two pairs never carry the same node. */
  lemma CarriedOnce(v: Dvs, px: nat, q: nat, n: nat)
    requires Mirror(v) && px < |v.pairs| && q < |v.pairs| && px != q
    ensures n !in v.pairs[px].smap || n !in v.pairs[q].smap
  {
    assert Mirrors(v, px) && Mirrors(v, q);
  }

  lemma PairUnbindMirrors(v: Dvs, px: nat, side: Side, q: nat)
    requires Mirror(v) && px < |v.pairs| && q < |v.pairs|
    ensures Mirrors(PairUnbind(v, px, side), q)
  {
    var w := PairUnbind(v, px, side);
    assert Mirrors(v, q) && Mirrors(v, px);
    if v.pairs[px].inuse && q != px {
      forall n | n in v.pairs[q].smap ensures w.nodes[n] == v.nodes[n] {
        CarriedOnce(v, px, q, n);
      }
      MirrorsKept(v, w, q);
    }
  }

  lemma PairConnMirrors(v: Dvs, px: nat, side: Side, up: bool, q: nat)
    requires Mirror(v) && px < |v.pairs| && q < |v.pairs|
    ensures Mirrors(PairConn(v, px, side, up), q)
  {
    var w := PairConn(v, px, side, up);
    assert Mirrors(v, q) && Mirrors(v, px);
    if v.pairs[px].inuse && q != px {
      forall n | n in v.pairs[q].smap ensures w.nodes[n] == v.nodes[n] {
        CarriedOnce(v, px, q, n);
      }
      MirrorsKept(v, w, q);
    }
  }

  lemma MirrorStep(v: Dvs, e: Event)
    requires Mirror(v) && LegalPair(v, e)
    ensures Mirror(Step(v, e))
  {
    var w := Step(v, e);
    forall q | 0 <= q < |w.pairs| ensures Mirrors(w, q) {
      assert Mirrors(v, q);
      match e
      case EvNodeUp(n, px) => if n < |v.nodes| && px < |v.pairs| { NodeUpMirrors(v, n, px, q); }
      case EvPairUnbind(px, side) => if px < |v.pairs| { PairUnbindMirrors(v, px, side, q); }
      case EvPairConn(px, side, up) => if px < |v.pairs| { PairConnMirrors(v, px, side, up, q); }
      case EvPairBind(px) => if q != px { MirrorsKept(v, w, q); }
      case EvNodeEnd(n) => MirrorsKept(v, w, q);
      case _ => DcStepMirrors(v, e, q);
    }
  }

  /** A step keeps both the topology sound and the pairs mirrored if and only if it is legal in
      this sense. */
  lemma PairStepIff(v: Dvs, e: Event)
    requires Mirror(v) && TopologyOk(v)
    ensures Mirror(Step(v, e)) && TopologyOk(Step(v, e)) <==> LegalPair(v, e)
  {
    StepOkIff(v, e);
    if LegalPair(v, e) {
      LegalPairIsLegal(v, e);
      MirrorStep(v, e);
    } else if Legal(v, e) {
      TwiceCarried(v, e);
    }
  }

  lemma TwiceCarried(v: Dvs, e: Event)
    requires Mirror(v) && Legal(v, e) && !LegalPair(v, e)
    ensures !Mirror(Step(v, e))
  {
    var q :| 0 <= q < |v.pairs| && e.n in v.pairs[q].smap && (e.EvNodeUp? ==> q != e.px);
    assert Mirrors(v, q) && !Mirrors(Step(v, e), q);
  }

  ghost predicate IsPairRun(vs: seq<Dvs>, es: seq<Event>) {
    |vs| == |es| + 1 && forall i :: 0 <= i < |es| ==> LegalPair(vs[i], es[i]) && vs[i + 1] == Step(vs[i], es[i])
  }

  /** In every run that carries a node by one pair at a time, the sender's and receiver's maps
      of a pair are equal and each carried node has exactly the connections of its pair; the
      bitmaps stay symmetric as well. */
  lemma {:induction false} EveryRunMirrors(vs: seq<Dvs>, es: seq<Event>, i: nat)
    requires IsPairRun(vs, es) && Fresh(vs[0]) && i < |vs|
    ensures Mirror(vs[i]) && TopologyOk(vs[i])
  {
    if i > 0 {
      EveryRunMirrors(vs, es, i - 1);
      PairStepIff(vs[i - 1], es[i - 1]);
    }
  }

  /** When one proxy of a pair exits, the nodes the pair carries end exactly if the other
      proxy was not connected. Otherwise they stay attached, listed by their DCs, while no
      pair carries them any more. */
  lemma ExitEndsNodesIff(v: Dvs, px: nat, side: Side, n: nat)
    requires Mirror(v) && px < |v.pairs| && v.pairs[px].inuse && n in v.pairs[px].smap
    ensures
      var w := PairUnbind(v, px, side);
      var otherUp := if side.Sender? then v.pairs[px].rconn else v.pairs[px].sconn;
      && n < |v.nodes|
      && (w.nodes[n] == FREE_NODE <==> !otherUp)
      && (otherUp ==> Attached in w.nodes[n].flags && w.nodes[n].dcs == v.nodes[n].dcs)
      && (forall q :: 0 <= q < |w.pairs| ==> n !in w.pairs[q].smap && n !in w.pairs[q].rmap)
  {
    var w := PairUnbind(v, px, side);
    assert Mirrors(v, px);
    forall q | 0 <= q < |w.pairs| ensures n !in w.pairs[q].smap && n !in w.pairs[q].rmap {
      assert Mirrors(v, q);
      if q != px {
        CarriedOnce(v, px, q, n);
      }
    }
  }

  /** Such a node keeps its flags through every step but a new mm_node_up, or the end of all
      nodes. */
  lemma OrphanStays(v: Dvs, e: Event, n: nat)
    requires n < |v.nodes| && (forall q :: 0 <= q < |v.pairs| ==> n !in v.pairs[q].smap && n !in v.pairs[q].rmap)
    requires !(e.EvNodeUp? && e.n == n) && !(e.EvNodeEnd? && e.n == n)
    ensures |Step(v, e).nodes| == |v.nodes| && Step(v, e).nodes[n].flags == v.nodes[n].flags
  {
  }
}
