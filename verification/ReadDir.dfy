/**
 The directory reader of the FUSE client: blocks of 8-byte slots, holding entries in V7
 format (a fixed number of slots each) or in FLEX format (one slot and as many more as
 its extent field says).
 */
module ReadDir {
  import opened Wrappers

  /** sizeof(struct _fl_direct). */
  const SLOT_BYTES := 8

  /** A slot of a directory block, read as the head of a FLEX entry. In a V7 directory the
      extent field of the first slot is the first character of a name. */
  datatype Slot = Slot(ino: nat, extent: nat, text: string)

  datatype Entry = Entry(ino: nat, slots: seq<Slot>)

  // ---- what a directory holds ----

  /** Slots of the entry that starts with s; x is V7_EXTENT. */
  function Length(s: Slot, v7: bool, x: nat): (n: nat)
    ensures n >= 1
  {
    1 + if v7 then x else s.extent
  }

  /** No entry crosses the end of the block. */
  predicate Fits(b: seq<Slot>, v7: bool, x: nat)
    decreases |b|
  {
    b == [] || (Length(b[0], v7, x) <= |b| && Fits(b[Length(b[0], v7, x)..], v7, x))
  }

  function Entries(b: seq<Slot>, v7: bool, x: nat): seq<Entry>
    requires Fits(b, v7, x)
    decreases |b|
  {
    if b == [] then []
    else
      var n := Length(b[0], v7, x);
      [Entry(b[0].ino, b[..n])] + Entries(b[n..], v7, x)
  }

  lemma EntriesHead(b: seq<Slot>, v7: bool, x: nat, rest: seq<Entry>)
    requires Fits(b, v7, x) && b != []
    ensures
      var n := Length(b[0], v7, x);
      && n <= |b| && Fits(b[n..], v7, x)
      && Entries(b, v7, x) + rest == [Entry(b[0].ino, b[..n])] + (Entries(b[n..], v7, x) + rest)
  {
  }

  /** The format mark once a block is in the buffer: -1 while undecided. A char holds it, so
      an extent of 255 reads back as undecided. */
  function Mark(mark: int, b: seq<Slot>): int
    requires b != []
  {
    if mark != -1 then mark else if b[0].extent == 255 then -1 else b[0].extent
  }

  predicate BlocksFit(blocks: seq<seq<Slot>>, mark: int, x: nat) {
    blocks == [] ||
    (blocks[0] != [] && Fits(blocks[0], Mark(mark, blocks[0]) != 0, x)
     && BlocksFit(blocks[1..], Mark(mark, blocks[0]), x))
  }

  function AllEntries(blocks: seq<seq<Slot>>, mark: int, x: nat): seq<Entry>
    requires BlocksFit(blocks, mark, x)
  {
    if blocks == [] then []
    else
      var m := Mark(mark, blocks[0]);
      Entries(blocks[0], m != 0, x) + AllEntries(blocks[1..], m, x)
  }

  function Total(blocks: seq<seq<Slot>>): nat {
    if blocks == [] then 0 else |blocks[0]| + Total(blocks[1..])
  }

  /** The entries in use. */
  function Live(es: seq<Entry>): seq<Entry> {
    if es == [] then []
    else (if es[0].ino != 0 then [es[0]] else []) + Live(es[1..])
  }

  lemma {:induction false} LiveAre(es: seq<Entry>, e: Entry)
    ensures e in Live(es) <==> e in es && e.ino != 0
  {
    if es != [] {
      LiveAre(es[1..], e);
      assert es == [es[0]] + es[1..];
    }
  }

  lemma LiveCons(e: Entry, es: seq<Entry>)
    ensures Live([e] + es) == (if e.ino != 0 then [e] else []) + Live(es)
  {
  }

  /** All blocks in one format. */
  predicate AllFit(blocks: seq<seq<Slot>>, v7: bool, x: nat) {
    forall b :: b in blocks ==> b != [] && Fits(b, v7, x)
  }

  function InFormat(blocks: seq<seq<Slot>>, v7: bool, x: nat): seq<Entry>
    requires AllFit(blocks, v7, x)
  {
    if blocks == [] then []
    else
      assert blocks[0] in blocks;
      assert forall b :: b in blocks[1..] ==> b in blocks;
      Entries(blocks[0], v7, x) + InFormat(blocks[1..], v7, x)
  }

  /** Every block is read in the format v7. */
  predicate ReadAs(blocks: seq<seq<Slot>>, mark: int, v7: bool) {
    blocks == [] ||
    (blocks[0] != [] && (Mark(mark, blocks[0]) != 0) == v7 && ReadAs(blocks[1..], Mark(mark, blocks[0]), v7))
  }

  lemma {:induction false} OneFormat(blocks: seq<seq<Slot>>, mark: int, v7: bool, x: nat)
    requires BlocksFit(blocks, mark, x) && ReadAs(blocks, mark, v7)
    ensures AllFit(blocks, v7, x) && AllEntries(blocks, mark, x) == InFormat(blocks, v7, x)
  {
    if blocks != [] {
      OneFormat(blocks[1..], Mark(mark, blocks[0]), v7, x);
      assert blocks == [blocks[0]] + blocks[1..];
    }
  }

  lemma {:induction false} MarkStays(blocks: seq<seq<Slot>>, mark: int, x: nat)
    requires mark != -1 && BlocksFit(blocks, mark, x)
    ensures ReadAs(blocks, mark, mark != 0)
  {
    if blocks != [] {
      MarkStays(blocks[1..], mark, x);
    }
  }

  /** The leading blocks whose first extent is 255. */
  function Undecided(blocks: seq<seq<Slot>>): (k: nat)
    ensures k <= |blocks|
  {
    if blocks == [] || blocks[0] == [] || blocks[0][0].extent != 255 then 0 else 1 + Undecided(blocks[1..])
  }

  /** The format of the blocks from the first whose first extent is not 255 on: V7 unless that
      extent is zero. */
  predicate DecidedV7(blocks: seq<seq<Slot>>) {
    var k := Undecided(blocks);
    k < |blocks| && blocks[k] != [] ==> blocks[k][0].extent != 0
  }

  /** The first k blocks are read as V7, the others in the format v7. */
  ghost predicate Splits(blocks: seq<seq<Slot>>, k: nat, v7: bool, x: nat)
    requires k <= |blocks| && BlocksFit(blocks, -1, x)
  {
    && AllFit(blocks[..k], true, x) && AllFit(blocks[k..], v7, x)
    && AllEntries(blocks, -1, x) == InFormat(blocks[..k], true, x) + InFormat(blocks[k..], v7, x)
  }

  /** While the first extents are 255 blocks are read as V7; the first that is not decides the
      format of its own and of all later blocks. */
  lemma {:induction false} FormatDecided(blocks: seq<seq<Slot>>, x: nat)
    requires BlocksFit(blocks, -1, x)
    ensures Splits(blocks, Undecided(blocks), DecidedV7(blocks), x)
  {
    if Undecided(blocks) == 0 {
      SplitsAtOnce(blocks, DecidedV7(blocks), x);
    } else {
      FormatDecided(blocks[1..], x);
      SplitsLater(blocks, Undecided(blocks), DecidedV7(blocks), x);
    }
  }

  lemma SplitsAtOnce(blocks: seq<seq<Slot>>, v7: bool, x: nat)
    requires BlocksFit(blocks, -1, x) && Undecided(blocks) == 0 && v7 == DecidedV7(blocks)
    ensures Splits(blocks, 0, v7, x)
  {
    if blocks != [] {
      MarkStays(blocks[1..], Mark(-1, blocks[0]), x);
    }
    OneFormat(blocks, -1, v7, x);
    assert blocks[..0] == [] && blocks[0..] == blocks;
  }

  lemma SplitsLater(blocks: seq<seq<Slot>>, k: nat, v7: bool, x: nat)
    requires BlocksFit(blocks, -1, x) && 0 < k <= |blocks| && blocks[0][0].extent == 255
    requires Splits(blocks[1..], k - 1, v7, x)
    ensures Splits(blocks, k, v7, x)
  {
    var front, back := blocks[1..][..k - 1], blocks[1..][k - 1..];
    InFormatCons(blocks[0], front, true, x);
    assert blocks[..k] == [blocks[0]] + front && blocks[k..] == back;
  }

  lemma InFormatCons(b: seq<Slot>, rest: seq<seq<Slot>>, v7: bool, x: nat)
    requires b != [] && Fits(b, v7, x) && AllFit(rest, v7, x)
    ensures AllFit([b] + rest, v7, x) && InFormat([b] + rest, v7, x) == Entries(b, v7, x) + InFormat(rest, v7, x)
  {
    assert ([b] + rest)[1..] == rest;
  }

  lemma OneEntry(b: seq<Slot>, v7: bool, x: nat)
    requires b != [] && Length(b[0], v7, x) == |b|
    ensures Fits(b, v7, x) && Entries(b, v7, x) == [Entry(b[0].ino, b)]
  {
    assert b[..|b|] == b && b[|b|..] == [];
  }

  /** The whole directory is read as V7 exactly if the first extent that is not 255, if any, is
      not zero, and as FLEX exactly if the very first extent is zero. */
  lemma {:induction false} OneFormatIff(blocks: seq<seq<Slot>>, x: nat)
    requires BlocksFit(blocks, -1, x) && blocks != []
    ensures ReadAs(blocks, -1, true) <==> DecidedV7(blocks)
    ensures ReadAs(blocks, -1, false) <==> blocks[0][0].extent == 0
  {
    if blocks[0][0].extent != 255 {
      MarkStays(blocks[1..], Mark(-1, blocks[0]), x);
    } else if blocks[1..] != [] {
      OneFormatIff(blocks[1..], x);
    }
  }

  /** A directory whose second block is not read in the format of the first, for every x. */
  lemma FormatDecidedTwice(x: nat)
    ensures
      var blocks := [seq(x + 1, i => Slot(1, 255, "")), [Slot(2, 0, "")]];
      && BlocksFit(blocks, -1, x) && !ReadAs(blocks, -1, true) && !ReadAs(blocks, -1, false)
      && AllEntries(blocks, -1, x) == [Entry(1, blocks[0]), Entry(2, blocks[1])]
  {
    var b, c := seq(x + 1, i => Slot(1, 255, "")), [Slot(2, 0, "")];
    OneEntry(b, true, x);
    OneEntry(c, false, x);
    var blocks, tail := [b, c], [c];
    assert blocks[1..] == tail && tail[1..] == [];
    assert Undecided(tail) == 0 && Undecided(blocks) == 1;
    FormatDecided(blocks, x);
    InFormatCons(b, [], true, x);
    InFormatCons(c, [], false, x);
    assert blocks[..1] == [b] + [] && blocks[1..] == [c] + [];
    OneFormatIff(blocks, x);
  }

  // ---- the state of a reader ----

  /** A DIR and the blocks MOL_read has not yet returned for it. */
  datatype State = State(unread: seq<seq<Slot>>, mark: int, count: nat, ptr: nat, pos: nat, buf: seq<Slot>)

  /** The slots of the buffer not yet passed over. */
  function Window(d: State): (b: seq<Slot>)
    requires d.ptr + d.count <= |d.buf|
    ensures |b| == d.count
  {
    d.buf[d.ptr..d.ptr + d.count]
  }

  ghost predicate Ok(d: State, x: nat) {
    d.ptr + d.count <= |d.buf| && Fits(Window(d), d.mark != 0, x) && BlocksFit(d.unread, d.mark, x)
  }

  /** The entries not yet returned, in use or not. */
  ghost function Rest(d: State, x: nat): seq<Entry>
    requires Ok(d, x)
  {
    Entries(Window(d), d.mark != 0, x) + AllEntries(d.unread, d.mark, x)
  }

  function SlotsLeft(d: State): nat {
    d.count + Total(d.unread)
  }

  /** The byte position the reader has when all slots are passed over. */
  function EndPos(d: State): nat {
    d.pos + SLOT_BYTES * SlotsLeft(d)
  }

  function Refilled(d: State): State
    requires d.unread != [] && d.unread[0] != []
  {
    var b := d.unread[0];
    State(d.unread[1..], Mark(d.mark, b), |b|, 0, d.pos, b)
  }

  lemma RefilledOk(d: State, x: nat)
    requires Ok(d, x) && d.count == 0 && d.unread != []
    ensures d.unread[0] != [] && Ok(Refilled(d), x) && Refilled(d).count > 0
    ensures Rest(Refilled(d), x) == Rest(d, x)
  {
    assert Window(Refilled(d)) == d.unread[0];
  }

  /** Passing over n slots. */
  function Skip(d: State, n: nat): State
    requires n <= d.count
  {
    d.(ptr := d.ptr + n, count := d.count - n, pos := d.pos + n * SLOT_BYTES)
  }

  lemma SkipWindow(d: State, n: nat)
    requires d.ptr + d.count <= |d.buf| && 0 < n <= d.count
    ensures Window(Skip(d, n)) == Window(d)[n..] && Window(d)[0] == d.buf[d.ptr]
    ensures Window(d)[..n] == d.buf[d.ptr..d.ptr + n]
  {
  }

  lemma SkipOk(d: State, x: nat)
    requires Ok(d, x) && d.count > 0
    ensures
      var n := Length(d.buf[d.ptr], d.mark != 0, x);
      && n <= d.count && Ok(Skip(d, n), x)
      && Rest(d, x) == [Entry(d.buf[d.ptr].ino, d.buf[d.ptr..d.ptr + n])] + Rest(Skip(d, n), x)
  {
    var b, v7 := Window(d), d.mark != 0;
    var n := Length(d.buf[d.ptr], v7, x);
    EntriesHead(b, v7, x, AllEntries(d.unread, d.mark, x));
    SkipWindow(d, n);
    SkipRest(d, n, b, x);
  }

  lemma SkipRest(d: State, n: nat, b: seq<Slot>, x: nat)
    requires d.ptr + d.count <= |d.buf| && n <= d.count && n <= |b| && Window(Skip(d, n)) == b[n..]
    requires Fits(b[n..], d.mark != 0, x) && BlocksFit(d.unread, d.mark, x)
    ensures Ok(Skip(d, n), x)
    ensures Rest(Skip(d, n), x) == Entries(b[n..], d.mark != 0, x) + AllEntries(d.unread, d.mark, x)
  {
  }

  // ---- what every turn of the reader keeps, for any view of what is left ----

  ghost predicate Turn(d: State, x: nat, ok: State -> bool, live: State -> seq<Entry>) {
    && d.ptr + d.count <= |d.buf|
    && (d.count == 0 && d.unread == [] ==> live(d) == [])
    && (d.count == 0 && d.unread != [] ==>
          d.unread[0] != [] && ok(Refilled(d)) && live(Refilled(d)) == live(d))
    && (d.count > 0 ==>
          var n := Length(d.buf[d.ptr], d.mark != 0, x);
          && n <= d.count && ok(Skip(d, n))
          && live(d) == (if d.buf[d.ptr].ino != 0 then [Entry(d.buf[d.ptr].ino, d.buf[d.ptr..d.ptr + n])] else [])
                        + live(Skip(d, n)))
  }

  ghost predicate Turns(x: nat, ok: State -> bool, live: State -> seq<Entry>) {
    forall d {:trigger Turn(d, x, ok, live)} :: ok(d) ==> Turn(d, x, ok, live)
  }

  ghost function IsOk(x: nat): State -> bool {
    d => Ok(d, x)
  }

  ghost function LiveRest(x: nat): State -> seq<Entry> {
    d => if Ok(d, x) then Live(Rest(d, x)) else []
  }

  lemma TurnOk(d: State, x: nat)
    requires Ok(d, x)
    ensures Turn(d, x, IsOk(x), LiveRest(x))
  {
    if d.count > 0 {
      SkipOk(d, x);
      var n := Length(d.buf[d.ptr], d.mark != 0, x);
      LiveCons(Entry(d.buf[d.ptr].ino, d.buf[d.ptr..d.ptr + n]), Rest(Skip(d, n), x));
    } else if d.unread != [] {
      RefilledOk(d, x);
    }
  }

  lemma TurnsOk(x: nat)
    ensures Turns(x, IsOk(x), LiveRest(x))
  {
    forall d | IsOk(x)(d) ensures Turn(d, x, IsOk(x), LiveRest(x)) {
      TurnOk(d, x);
    }
  }

  /** A directory just opened. */
  function Opened(blocks: seq<seq<Slot>>): State {
    State(blocks, -1, 0, 0, 0, [])
  }

  lemma OpenedOk(blocks: seq<seq<Slot>>, x: nat)
    requires BlocksFit(blocks, -1, x)
    ensures IsOk(x)(Opened(blocks)) && LiveRest(x)(Opened(blocks)) == Live(AllEntries(blocks, -1, x))
    ensures EndPos(Opened(blocks)) == SLOT_BYTES * Total(blocks)
  {
    var d := Opened(blocks);
    assert Window(d) == [];
    assert Rest(d, x) == AllEntries(blocks, -1, x);
  }

  // ---- the reader ----

  class Dir {
    const v7Extent: nat
    var unread: seq<seq<Slot>>
    var mark: int
    var count: nat
    var ptr: nat
    var pos: nat
    var buf: seq<Slot>

    ghost function View(): State
      reads this
    {
      State(unread, mark, count, ptr, pos, buf)
    }

    /** MOL_opendir. */
    constructor (blocks: seq<seq<Slot>>, v7Extent: nat)
      ensures View() == Opened(blocks) && this.v7Extent == v7Extent
    {
      this.v7Extent := v7Extent;
      unread, mark, count, ptr, pos, buf := blocks, -1, 0, 0, 0, [];
    }

    /** Reading the next block into the empty buffer; false at the end of the file. */
    method Refill() returns (more: bool)
      requires unread != [] ==> unread[0] != []
      modifies this
      ensures more <==> old(unread) != []
      ensures View() == if more then Refilled(old(View())) else old(View())
    {
      if unread == [] { return false; }
      buf := unread[0];
      count := |buf|;
      ptr := 0;
      if mark == -1 {
        mark := if buf[0].extent == 255 then -1 else buf[0].extent;
      }
      unread := unread[1..];
      more := true;
    }

    /** Taking the entry at the pointer out of the buffer. */
    method Take() returns (e: Entry)
      requires ptr + count <= |buf| && 0 < count && Length(buf[ptr], mark != 0, v7Extent) <= count
      modifies this
      ensures
        var d := old(View());
        var n := Length(d.buf[d.ptr], d.mark != 0, v7Extent);
        View() == Skip(d, n) && e == Entry(d.buf[d.ptr].ino, d.buf[d.ptr..d.ptr + n])
    {
      var extent := if mark == 0 then buf[ptr].extent else v7Extent;
      e := Entry(buf[ptr].ino, buf[ptr..ptr + 1 + extent]);
      ptr := ptr + 1 + extent;
      count := count - (1 + extent);
      pos := pos + (1 + extent) * SLOT_BYTES;
    }

    /** The loop of MOL_readdir, for any view of what is left that its turns keep. */
    method NextOf(ghost ok: State -> bool, ghost live: State -> seq<Entry>) returns (r: Option<Entry>)
      requires ok(View()) && Turns(v7Extent, ok, live)
      modifies this
      ensures ok(View()) && EndPos(View()) == old(EndPos(View()))
      ensures
        var all := live(old(View()));
        if all == [] then r == None && live(View()) == [] else r == Some(all[0]) && live(View()) == all[1..]
      ensures r == None ==> SlotsLeft(View()) == 0
    {
      while true
        invariant ok(View()) && EndPos(View()) == old(EndPos(View())) && live(View()) == live(old(View()))
        decreases SlotsLeft(View())
      {
        assert Turn(View(), v7Extent, ok, live);
        if count == 0 {
          var more := Refill();
          if !more { return None; }
          assert Turn(View(), v7Extent, ok, live);
        }
        var e := Take();
        if e.ino != 0 { return Some(e); }
      }
    }

    /** MOL_readdir: the next entry in use, or none once there is none; the position counts
        the bytes of the slots passed over. */
    method Next() returns (r: Option<Entry>)
      requires Ok(View(), v7Extent)
      modifies this
      ensures Ok(View(), v7Extent) && EndPos(View()) == old(EndPos(View()))
      ensures
        var live := Live(old(Rest(View(), v7Extent)));
        if live == [] then r == None && Live(Rest(View(), v7Extent)) == []
        else r == Some(live[0]) && Live(Rest(View(), v7Extent)) == live[1..]
      ensures r == None ==> SlotsLeft(View()) == 0
    {
      TurnsOk(v7Extent);
      r := NextOf(IsOk(v7Extent), LiveRest(v7Extent));
    }
  }

  lemma TakeFront(es: seq<Entry>, all: seq<Entry>, e: Entry, rest: seq<Entry>)
    requires all != [] && e == all[0] && rest == all[1..]
    ensures es + all == (es + [e]) + rest && |rest| < |all|
  {
  }

  /** Repeated calls, for any view of what is left that the turns keep. */
  method Collect(dir: Dir, ghost ok: State -> bool, ghost live: State -> seq<Entry>) returns (es: seq<Entry>)
    requires ok(dir.View()) && Turns(dir.v7Extent, ok, live)
    modifies dir
    ensures es == live(old(dir.View())) && dir.pos == old(EndPos(dir.View()))
  {
    ghost var all := live(dir.View());
    es := [];
    while true
      invariant ok(dir.View()) && es + live(dir.View()) == all && EndPos(dir.View()) == old(EndPos(dir.View()))
      decreases |live(dir.View())|
    {
      ghost var before := live(dir.View());
      var r := dir.NextOf(ok, live);
      if r.None? { return; }
      TakeFront(es, before, r.value, live(dir.View()));
      es := es + [r.value];
    }
  }

  /** Reading until there is no more entry returns exactly the entries in use, in order and
      once each, and leaves the position at the number of bytes of the directory. */
  method ReadAll(blocks: seq<seq<Slot>>, v7Extent: nat) returns (es: seq<Entry>, end: nat)
    requires BlocksFit(blocks, -1, v7Extent)
    ensures es == Live(AllEntries(blocks, -1, v7Extent))
    ensures end == SLOT_BYTES * Total(blocks)
  {
    var dir := new Dir(blocks, v7Extent);
    TurnsOk(v7Extent);
    OpenedOk(blocks, v7Extent);
    es := Collect(dir, IsOk(v7Extent), LiveRest(v7Extent));
    end := dir.pos;
  }
}
