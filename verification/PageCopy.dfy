/**
 The copy between two address spaces that is split at page boundaries of both sides,
 for any page size.
 */
module PageCopy {
  import Layout

  /** get_user_pages: C division, which truncates toward zero. */
  function PageOf(addr: int, page: nat): int
    requires page >= 1
  {
    if addr >= 0 then addr / page else -((-addr) / page)
  }

  /** addr & ~PAGE_MASK, the low bits of a two's complement number. */
  function OffsetOf(addr: int, page: nat): (off: nat)
    requires page >= 1
    ensures off < page
  {
    addr % page
  }

  lemma NegRem(a: int, q: int, r: int, page: nat)
    requires page >= 1 && a == q * page + r && 0 <= r < page
    ensures (-a) % page == if r == 0 then 0 else page - r
  {
    var d, m := (-a) / page, (-a) % page;
    if r == 0 {
      assert -a == (-q) * page + 0;
      Layout.RemUnique(-q, 0, d, m, page);
    } else {
      assert (-q - 1) * page == -(q * page) - page;
      Layout.RemUnique(-q - 1, page - r, d, m, page);
    }
  }

  /** Page and offset name the address itself exactly for non-negative addresses and
      page-aligned ones. */
  lemma AddressIff(addr: int, page: nat)
    requires page >= 1
    ensures OffsetOf(addr, page) + PageOf(addr, page) * page == addr <==> addr >= 0 || addr % page == 0
  {
    if addr < 0 {
      var q, r := (-addr) / page, (-addr) % page;
      NegRem(-addr, q, r, page);
      assert (-q) * page == -(q * page);
    }
  }

  /** Pages touched by n bytes that start at offset off of a page. */
  function Pages(off: nat, n: nat, page: nat): (k: nat)
    requires page >= 1 && off < page
    ensures n > 0 ==> k >= 1
    decreases n
  {
    if n == 0 then 0
    else if off + n <= page then 1
    else 1 + Pages(0, n - (page - off), page)
  }

  /** The source's formula for the number of pages. */
  lemma {:induction false} PagesFormula(off: nat, n: nat, page: nat)
    requires page >= 1 && off < page && n > 0
    ensures Pages(off, n, page) == (off + n + page - 1) / page
    decreases n
  {
    var x := off + n + page - 1;
    if off + n <= page {
      Quotient(x, 1, off + n - 1, page);
    } else {
      var m := n - (page - off);
      PagesFormula(0, m, page);
      var y := m + page - 1;
      assert x == y + page && (y / page + 1) * page == (y / page) * page + page;
      Quotient(x, y / page + 1, y % page, page);
    }
  }

  lemma Quotient(x: int, q: int, r: int, page: nat)
    requires page >= 1 && x == q * page + r && 0 <= r < page
    ensures x / page == q && x % page == r
  {
    Layout.RemUnique(q, r, x / page, x % page, page);
    Layout.Cancel(q, x / page, page);
  }

  lemma Advance(addr: nat, len: nat, page: nat)
    requires page >= 1 && addr % page + len <= page
    ensures (addr + len) % page == if addr % page + len == page then 0 else addr % page + len
    ensures len > 0 ==> (addr + len - 1) / page == addr / page
  {
    var q, r := addr / page, addr % page;
    if r + len == page {
      assert (q + 1) * page == q * page + page;
      Quotient(addr + len, q + 1, 0, page);
    } else {
      Quotient(addr + len, q, r + len, page);
    }
    if len > 0 {
      Quotient(addr + len - 1, q, r + len - 1, page);
    }
  }

  /** One memcpy of the loop. */
  datatype Chunk = Chunk(src: nat, dst: nat, len: nat)

  /** A chunk that stays inside one page of the source and one of the destination. */
  ghost predicate InPages(c: Chunk, page: nat)
    requires page >= 1
  {
    c.len > 0 && (c.src + c.len - 1) / page == c.src / page && (c.dst + c.len - 1) / page == c.dst / page
  }

  function Min(a: int, b: int): int {
    if a < b then a else b
  }

  /** Iterations left, at most. */
  function Budget(srcOff: nat, dstOff: nat, n: nat, page: nat): int
    requires page >= 1 && srcOff < page && dstOff < page
  {
    if n == 0 then 0 else Pages(srcOff, n, page) + Pages(dstOff, n, page) - 1
  }

  lemma PagesAdvance(off: nat, n: nat, len: nat, page: nat)
    requires page >= 1 && off < page && 0 < len < n && off + len <= page
    ensures
      var off' := if off + len == page then 0 else off + len;
      Pages(off', n - len, page) == Pages(off, n, page) - if off + len == page then 1 else 0
  {
  }

  /** The body of the loop up to the memcpy: the page and offset of both addresses, and the
      longest piece that stays inside both pages. */
  method NextChunk(s: nat, d: nat, n: nat, page: nat) returns (from: int, to: int, len: nat)
    requires page >= 1 && n > 0
    ensures from == s && to == d && 0 < len <= n && InPages(Chunk(s, d, len), page)
    ensures 1 + Budget((s + len) % page, (d + len) % page, n - len, page) <= Budget(s % page, d % page, n, page)
  {
    var srcOff, dstOff := OffsetOf(s, page), OffsetOf(d, page);
    var spag, dpag := PageOf(s, page), PageOf(d, page);
    AddressIff(s, page);
    AddressIff(d, page);
    len := Min(page - srcOff, page - dstOff);
    len := Min(n, len);
    from, to := srcOff + spag * page, dstOff + dpag * page;
    Advance(s, len, page);
    Advance(d, len, page);
    if len < n {
      PagesAdvance(srcOff, n, len, page);
      PagesAdvance(dstOff, n, len, page);
    }
  }

  /** was with n elements from position b on replaced by those of src from a on. */
  function Flat<T>(was: seq<T>, src: seq<T>, a: nat, b: nat, n: nat): (r: seq<T>)
    requires a + n <= |src| && b + n <= |was|
    ensures |r| == |was|
  {
    was[..b] + src[a..a + n] + was[b + n..]
  }

  method MemCpy<T>(dst: array<T>, to: nat, src: array<T>, from: nat, len: nat)
    requires src != dst && to + len <= dst.Length && from + len <= src.Length
    modifies dst
    ensures dst[..] == Flat(old(dst[..]), src[..], from, to, len)
  {
    forall i | 0 <= i < len {
      dst[to + i] := src[from + i];
    }
  }

  /** One turn of the loop. */
  method CopyChunk<T>(src: array<T>, dst: array<T>, s: nat, d: nat, n: nat, page: nat) returns (len: nat)
    requires page >= 1 && n > 0 && src != dst && s + n <= src.Length && d + n <= dst.Length
    modifies dst
    ensures src[..] == old(src[..])
    ensures 0 < len <= n && dst[..] == Flat(old(dst[..]), old(src[..]), s, d, len) && InPages(Chunk(s, d, len), page)
    ensures 1 + Budget((s + len) % page, (d + len) % page, n - len, page) <= Budget(s % page, d % page, n, page)
  {
    var from, to;
    from, to, len := NextChunk(s, d, n, page);
    MemCpy(dst, to, src, from, len);
  }

  /** Two adjacent pieces copied one after the other are one piece. */
  lemma FlatTwice<T>(was: seq<T>, now: seq<T>, src: seq<T>, a: nat, b: nat, done: nat, s: nat, d: nat, len: nat)
    requires a + done + len <= |src| && b + done + len <= |was| && s == a + done && d == b + done
    requires now == Flat(was, src, a, b, done)
    ensures Flat(now, src, s, d, len) == Flat(was, src, a, b, done + len)
  {
  }

  lemma FlatNone<T>(was: seq<T>, src: seq<T>, a: nat, b: nat)
    requires a <= |src| && b <= |was|
    ensures Flat(was, src, a, b, 0) == was
  {
  }

  /** The copy equals a flat copy: the destination range becomes the source range, nothing
      else changes; no chunk crosses a page, and there are at most as many chunks as source
      pages and destination pages together, less one. */
  method Copy<T>(src: array<T>, dst: array<T>, srcAddr: nat, dstAddr: nat, bytes: nat, page: nat)
    returns (ghost chunks: seq<Chunk>)
    requires page >= 1 && src != dst
    requires srcAddr + bytes <= src.Length && dstAddr + bytes <= dst.Length
    modifies dst
    ensures dst[..] == Flat(old(dst[..]), src[..], srcAddr, dstAddr, bytes)
    ensures forall c :: c in chunks ==> InPages(c, page)
    ensures bytes > 0 ==> |chunks| <= Pages(srcAddr % page, bytes, page) + Pages(dstAddr % page, bytes, page) - 1
    ensures bytes == 0 ==> chunks == []
  {
    ghost var was, all := dst[..], src[..];
    FlatNone(was, all, srcAddr, dstAddr);
    ghost var done := 0;
    var s, d, n := srcAddr, dstAddr, bytes;
    chunks := [];
    while n > 0
      invariant 0 <= done <= bytes && n == bytes - done && s == srcAddr + done && d == dstAddr + done
      invariant src[..] == all && dst[..] == Flat(was, all, srcAddr, dstAddr, done)
      invariant forall c :: c in chunks ==> InPages(c, page)
      invariant |chunks| + Budget(s % page, d % page, n, page) <= Budget(srcAddr % page, dstAddr % page, bytes, page)
    {
      ghost var now := dst[..];
      var len := CopyChunk(src, dst, s, d, n, page);
      FlatTwice(was, now, all, srcAddr, dstAddr, done, s, d, len);
      chunks := chunks + [Chunk(s, d, len)];
      s, d, n, done := s + len, d + len, n - len, done + len;
    }
  }
}
