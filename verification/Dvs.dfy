/**
 The tables of the DVS (DCs, cluster nodes and proxy pairs) and the operations of the
 kernel module that update them in place, each proved against its function in Topology.
 */
module DvsDescriptor {
  import opened Topology
  import opened Descriptors

  const EMOLRSCBUSY := -342
  const EMOLNODEFREE := -325
  const EMOLPROXYFREE := -333

  /** Bits of an unsigned long. */
  const BITS := 64

  /** The members of s below i. */
  function Below(s: set<nat>, i: nat): set<nat> {
    set x | x in s && x < i
  }

  lemma BelowNext(s: set<nat>, i: nat)
    ensures |Below(s, i + 1)| == |Below(s, i)| + if i in s then 1 else 0
  {
    if i in s {
      assert Below(s, i + 1) == Below(s, i) + {i};
    } else {
      assert Below(s, i + 1) == Below(s, i);
    }
  }

  /** DC x once the nodes of s below i ended, one after the other. */
  lemma LoseNext(s: set<nat>, i: nat, x: DcEnt)
    ensures Lose(Below(s, i + 1), x) == if i in s then Lose({i}, Lose(Below(s, i), x)) else Lose(Below(s, i), x)
  {
  }

  class Dvs {
    const local: nat
    const dc: array<DcEnt>
    const node: array<NodeEnt>
    const pair: array<Pair>

    ghost predicate Valid() {
      local < node.Length <= BITS && pair.Length == node.Length
    }

    ghost function View(): Topology.Dvs
      reads dc, node, pair
    {
      Topology.Dvs(local, dc[..], node[..], pair[..])
    }

    /** mm_dvs_init. */
    constructor (local: nat, nrDcs: nat, nrNodes: nat)
      requires local < nrNodes <= BITS
      ensures Valid() && Fresh(View()) && fresh(dc) && fresh(node) && fresh(pair)
      ensures dc.Length == nrDcs && node.Length == nrNodes && this.local == local
    {
      this.local := local;
      dc := new DcEnt[nrDcs](i => DcEnt(false, {}, 0));
      node := new NodeEnt[nrNodes](i => if i == local then FREE_NODE.(flags := {Attached, SConnected}) else FREE_NODE);
      pair := new Pair[nrNodes](i => FREE_PAIR);
    }

    /** mm_dc_init, for parameters in range; nameUsed: a running DC has the same name. */
    method DcInit(d: nat, limit: int, nameUsed: bool) returns (rc: int)
      requires Valid() && d < dc.Length && limit >= 1
      modifies dc, node
      ensures rc == OK <==> !nameUsed && !old(dc[d]).running
      ensures View() == if nameUsed then old(View()) else Topology.DcInit(old(View()), d, limit)
    {
      if nameUsed || dc[d].running { return EMOLRSCBUSY; }
      dc[d] := DcEnt(true, {}, limit);
      dc[d] := dc[d].(nodes := {local});
      node[local] := node[local].(dcs := node[local].dcs + {d});
      rc := OK;
    }

    /** The loop of mm_add_node that counts the nodes of a DC. */
    method CountNodes(d: nat) returns (nodes: nat)
      requires d < dc.Length && forall n :: n in dc[d].nodes ==> n < BITS
      ensures nodes == |dc[d].nodes|
    {
      nodes := 0;
      for i := 0 to BITS
        invariant nodes == |Below(dc[d].nodes, i)|
      {
        BelowNext(dc[d].nodes, i);
        if i in dc[d].nodes {
          nodes := nodes + 1;
        }
      }
      assert Below(dc[d].nodes, BITS) == dc[d].nodes;
    }

    method AddNode(d: nat, n: nat) returns (rc: int)
      requires Valid() && d < dc.Length && n < node.Length && TopologyOk(View())
      modifies dc, node
      ensures rc == OK <==> Addable(old(View()), d, n)
      ensures View() == Topology.AddNode(old(View()), d, n)
    {
      if n == local { return EMOLBADNODEID; }
      if node[n].flags == {} { return EMOLNODEFREE; }
      if !dc[d].running { return EMOLDCNOTRUN; }
      if n in dc[d].nodes { return EMOLDCNODE; }
      if d in node[n].dcs { return EMOLDCNODE; }
      assert View().dcs[d] == dc[d] && |View().nodes| <= BITS;
      var nodes := CountNodes(d);
      if nodes >= dc[d].limit { return EMOLRSCBUSY; }
      dc[d] := dc[d].(nodes := dc[d].nodes + {n});
      node[n] := node[n].(dcs := node[n].dcs + {d});
      rc := OK;
    }

    method DelNode(d: nat, n: nat) returns (rc: int)
      requires Valid() && d < dc.Length && n < node.Length
      modifies dc, node
      ensures rc == OK <==> Deletable(old(View()), d, n)
      ensures View() == Topology.DelNode(old(View()), d, n)
    {
      if n == local { return EMOLBADNODEID; }
      if node[n].flags == {} { return EMOLNODEFREE; }
      if !dc[d].running { return EMOLDCNOTRUN; }
      if n !in dc[d].nodes { return EMOLDCNODE; }
      if d !in node[n].dcs { return EMOLDCNODE; }
      dc[d] := dc[d].(nodes := dc[d].nodes - {n});
      node[n] := node[n].(dcs := node[n].dcs - {d});
      rc := OK;
    }

    /** The bitmap part of dc_release. */
    method DcRelease(d: nat)
      requires Valid() && d < dc.Length
      modifies dc, node
      ensures View() == Topology.DcRelease(old(View()), d)
    {
      ghost var s := node[..];
      dc[d] := dc[d].(nodes := {});
      for i := 0 to node.Length
        invariant forall j :: 0 <= j < node.Length ==> node[j] == if j < i then Forget(d, s[j]) else s[j]
        invariant dc[..] == old(dc[..])[d := old(dc[d]).(nodes := {})]
      {
        if node[i].flags != {} {
          if d in node[i].dcs {
            node[i] := node[i].(dcs := node[i].dcs - {d});
          }
        }
      }
      dc[d] := dc[d].(running := false);
      assert node[..] == Topology.DcRelease(old(View()), d).nodes;
    }

    /** do_node_end: the node leaves every running DC and becomes free. */
    method NodeEnd(n: nat)
      requires Valid() && n < node.Length
      modifies dc, node
      ensures View() == Topology.NodeEnd(old(View()), n)
    {
      ghost var s := dc[..];
      for d := 0 to dc.Length
        invariant forall j :: 0 <= j < dc.Length ==> dc[j] == if j < d then Lose({n}, s[j]) else s[j]
        invariant node[..] == old(node[..])
      {
        if dc[d].running {
          dc[d] := dc[d].(nodes := dc[d].nodes - {n});
        }
      }
      node[n] := FREE_NODE;
      assert dc[..] == LoseAll({n}, s);
    }

    method NodeUp(n: nat, px: nat) returns (rc: int)
      requires Valid() && n < node.Length && px < pair.Length
      modifies node, pair
      ensures rc == OK <==> old(pair[px]).inuse
      ensures View() == Topology.NodeUp(old(View()), n, px)
    {
      if !pair[px].inuse { return EMOLPROXYFREE; }
      pair[px] := pair[px].(smap := pair[px].smap + {n}, rmap := pair[px].rmap + {n});
      node[n] := node[n].(flags := {Attached}, pair := px);
      if pair[px].sconn {
        node[n] := node[n].(flags := node[n].flags + {SConnected});
      }
      if pair[px].rconn {
        node[n] := node[n].(flags := node[n].flags + {RConnected});
      }
      assert node[n].flags == ConnFlags(pair[px]);
      rc := OK;
    }

    method PairBind(px: nat) returns (rc: int)
      requires px < pair.Length
      modifies pair
      ensures rc == OK <==> !old(pair[px]).inuse
      ensures View() == Topology.PairBind(old(View()), px)
    {
      if pair[px].inuse { return EMOLRSCBUSY; }
      pair[px] := FREE_PAIR.(inuse := true);
      rc := OK;
    }

    /** The loops of mm_proxy_conn over the nodes of one side's map. */
    method PairConn(px: nat, side: Side, up: bool) returns (rc: int)
      requires Valid() && px < pair.Length
      modifies node, pair
      ensures rc == OK <==> old(pair[px]).inuse
      ensures View() == Topology.PairConn(old(View()), px, side, up)
    {
      if !pair[px].inuse { return EMOLPROXYFREE; }
      var m, f := MapOf(pair[px], side), FlagOf(side);
      ghost var s := node[..];
      pair[px] := if side.Sender? then pair[px].(sconn := up) else pair[px].(rconn := up);
      for i := 0 to node.Length
        invariant forall j: nat :: j < node.Length ==> node[j] == if j < i then Flip(m, f, up, j, s[j]) else s[j]
        invariant pair[..] == Topology.PairConn(old(View()), px, side, up).pairs
      {
        if i in m {
          node[i] := node[i].(flags := if up then node[i].flags + {f} else node[i].flags - {f});
        }
      }
      assert node[..] == Topology.PairConn(old(View()), px, side, up).nodes;
      rc := OK;
    }

    /** One turn of the loop of do_proxies_unbind. */
    method DropNode(px: nat, side: Side, i: nat)
      requires Valid() && px < pair.Length && i < node.Length
      modifies dc, node, pair
      ensures pair[..] == old(pair[..])[px := old(pair[px]).(smap := old(pair[px]).smap - {i}, rmap := old(pair[px]).rmap - {i})]
      ensures node[..] == old(node[..])[i := Dropped({i}, side, i, old(node[i]))]
      ensures dc[..] == if FlagOf(Other(side)) in old(node[i]).flags then old(dc[..]) else LoseAll({i}, old(dc[..]))
    {
      pair[px] := pair[px].(smap := pair[px].smap - {i}, rmap := pair[px].rmap - {i});
      node[i] := node[i].(flags := node[i].flags - {FlagOf(side)});
      if FlagOf(Other(side)) !in node[i].flags {
        NodeEnd(i);
      }
    }

    /** do_proxies_unbind by one side. If the other proxy still runs, it is signalled and its own
        exit, which finds no node, frees the pair first. */
    method PairUnbind(px: nat, side: Side, otherRuns: bool) returns (rc: int)
      requires Valid() && px < pair.Length && forall n :: n in MapOf(pair[px], side) ==> n < node.Length
      modifies dc, node, pair
      ensures rc == if !old(pair[px]).inuse then EMOLPROXYFREE else if otherRuns then EMOLNOPROXY else OK
      ensures View() == Topology.PairUnbind(old(View()), px, side)
    {
      if !pair[px].inuse { return EMOLPROXYFREE; }
      var p := pair[px];
      var m := MapOf(p, side);
      ghost var v := View();
      ghost var ending := Ending(v, px, side);
      assert p.smap - Below(m, 0) == p.smap && p.rmap - Below(m, 0) == p.rmap;
      for i := 0 to node.Length
        invariant forall j: nat :: j < node.Length ==> node[j] == if j < i then Dropped(m, side, j, v.nodes[j]) else v.nodes[j]
        invariant forall j :: 0 <= j < dc.Length ==> dc[j] == Lose(Below(ending, i), v.dcs[j])
        invariant pair[..] == v.pairs[px := p.(smap := p.smap - Below(m, i), rmap := p.rmap - Below(m, i))]
      {
        forall j | 0 <= j < dc.Length
          ensures Lose(Below(ending, i + 1), v.dcs[j]) == if i in ending then Lose({i}, dc[j]) else dc[j]
        {
          LoseNext(ending, i, v.dcs[j]);
        }
        if i in MapOf(pair[px], side) {
          assert Below(m, i + 1) == Below(m, i) + {i};
          DropNode(px, side, i);
          assert p.smap - Below(m, i) - {i} == p.smap - Below(m, i + 1);
          assert p.rmap - Below(m, i) - {i} == p.rmap - Below(m, i + 1);
        } else {
          assert i !in m && Below(m, i + 1) == Below(m, i);
        }
      }
      assert Below(ending, node.Length) == ending && Below(m, node.Length) == m;
      pair[px] := pair[px].(inuse := false, sconn := false, rconn := false);
      assert node[..] == Topology.PairUnbind(v, px, side).nodes && dc[..] == LoseAll(ending, v.dcs);
      rc := if otherRuns then EMOLNOPROXY else OK;
    }
  }
}
