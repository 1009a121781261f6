/**
 * Pagination shared by both repositories: the offset `(pageNum - 1) * pageSize`
 * and SQLite's `LIMIT ? OFFSET ?` window over an ordered result.
 */
module Paging {
  import opened Strconv

  function Max(a: int, b: int): int { if a < b then b else a }
  function Min(a: int, b: int): int { if a < b then a else b }

  /** The number of rows an offset actually skips: SQLite reads a negative OFFSET as 0. */
  function Skipped(offset: int, n: nat): nat {
    if offset < 0 then 0 else Min(offset, n)
  }

  /**
   * `LIMIT limit OFFSET offset` over the ordered rows `s`: a negative offset
   * skips nothing and a negative limit means no limit.
   */
  function Window<T>(s: seq<T>, offset: int, limit: int): (r: seq<T>)
    ensures limit >= 0 ==> |r| == Min(limit, |s| - Skipped(offset, |s|))
    ensures limit < 0 ==> |r| == |s| - Skipped(offset, |s|)
    ensures forall i :: 0 <= i < |r| ==> r[i] == s[Skipped(offset, |s|) + i]
  {
    var start := Skipped(offset, |s|);
    var end := if limit < 0 then |s| else Min(|s|, start + limit);
    s[start..end]
  }

  /** A window holds rows of the ordered result only. */
  lemma WindowWithin<T>(s: seq<T>, offset: int, limit: int)
    ensures forall x :: x in Window(s, offset, limit) ==> x in s
  {
    var page := Window(s, offset, limit);
    forall x | x in page ensures x in s {
      var k :| 0 <= k < |page| && page[k] == x;
      assert s[Skipped(offset, |s|) + k] == x;
    }
  }

  /** The offset of page `pageNum` (counted from 1) of pages holding `pageSize` rows each. */
  function Offset(pageNum: int, pageSize: int): int {
    (pageNum - 1) * pageSize
  }

  /** Reduction of a mathematical integer to Go's two's-complement `int`. */
  function Wrap64(x: int): (r: Int64)
    ensures (r - x) % 0x1_0000_0000_0000_0000 == 0
  {
    (x - MinInt64) % 0x1_0000_0000_0000_0000 + MinInt64
  }

  /** The offset exactly as Go computes it in 64-bit `int` arithmetic, wrapping on overflow. */
  function WrappedOffset(pageNum: Int64, pageSize: Int64): (r: Int64)
    ensures MinInt64 <= Offset(pageNum, pageSize) <= MaxInt64 ==> r == Offset(pageNum, pageSize)
  {
    Wrap64((pageNum - 1) * pageSize)
  }

  /** The first `k` pages of size `n`, one after the other. */
  function FirstPages<T>(s: seq<T>, n: int, k: nat): seq<T> {
    if k == 0 then [] else FirstPages(s, n, k - 1) + Window(s, Offset(k, n), n)
  }

  /** Reading pages 1, 2, ..., k in turn returns the first k*n rows, each once and in order. */
  lemma {:induction false} PagesCoverInOrder<T>(s: seq<T>, n: nat, k: nat)
    requires n >= 1
    ensures FirstPages(s, n, k) == s[..Min(k * n, |s|)]
  {
    if k > 0 {
      PagesCoverInOrder(s, n, k - 1);
      var before := Min((k - 1) * n, |s|);
      var page := Window(s, Offset(k, n), n);
      assert Offset(k, n) == (k - 1) * n;
      assert k * n == (k - 1) * n + n;
      assert Skipped(Offset(k, n), |s|) == before;
      assert page == s[before..Min(k * n, |s|)];
      assert s[..before] + s[before..Min(k * n, |s|)] == s[..Min(k * n, |s|)];
    }
  }

  /** A page that starts past the last row is empty. */
  lemma PastTheEndIsEmpty<T>(s: seq<T>, pageNum: int, pageSize: nat)
    requires Offset(pageNum, pageSize) >= |s|
    ensures Window(s, Offset(pageNum, pageSize), pageSize) == []
  {
  }

  const HugePage: Int64 := 0x4000_0000_0000_0000

  /**
   * With page_num = 2^62 and page_size = 4 the 64-bit offset wraps to -4, which
   * SQLite reads as 0: the first rows come back where an empty page is due.
   */
  lemma WrappedOffsetShowsFirstPage<T>(s: seq<T>)
    requires 4 <= |s| <= MaxInt64
    ensures WrappedOffset(HugePage, 4) == -4
    ensures Window(s, WrappedOffset(HugePage, 4), 4) == s[..4]
    ensures Window(s, Offset(HugePage, 4), 4) == []
  {
    assert (HugePage - 1) * 4 == 0x1_0000_0000_0000_0000 - 4;
  }
}
