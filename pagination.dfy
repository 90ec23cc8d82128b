/**
 * The payment records the earnings endpoint returns, as the booking-history
 * and wallet tables read them. Only the fields the two tables' rules look at
 * are kept.
 */
module PaymentTypes {
  import opened Common

  datatype Booking = Booking(id: string, status: string)

  /** A payment row; `booking` is absent when the backend sent none. */
  datatype Payment = Payment(paymentId: string, coachEarning: int, booking: Option<Booking>)
}

/**
 * The pagination arithmetic both tables use: a page count, the slice of the
 * list shown on a page, the "Showing x to y of n" range and the numbered page
 * buttons. Pages are numbered from 1.
 */
module Pagination {

  function Min(a: int, b: int): int { if a <= b then a else b }

  /** `Math.ceil(n / d)` for a natural `n` and a positive `d`. */
  function CeilDiv(n: nat, d: nat): (r: nat)
    requires d > 0
    ensures n <= r * d
    ensures r == 0 || (r - 1) * d < n
  {
    var r := (n + d - 1) / d;
    assert n + d - 1 == r * d + (n + d - 1) % d;
    assert (r - 1) * d == r * d - d;
    r
  }

  /** No smaller count covers `n` items; `CeilDiv` is the least such count. */
  lemma CeilDivLeast(n: nat, d: nat, k: nat)
    requires d > 0 && n <= k * d
    ensures CeilDiv(n, d) <= k
  {
    var r := CeilDiv(n, d);
    if r > k {
      assert (r - 1) * d >= k * d by {
        assert r - 1 >= k;
        MulMono(k, r - 1, d);
      }
    }
  }

  lemma MulMono(a: nat, b: nat, d: nat)
    requires a <= b
    ensures a * d <= b * d
  {
  }

  /**
   * `array.slice(start, end)` for non-negative bounds: both are clamped to
   * the length, and a start past the end gives an empty slice.
   */
  function Slice<T>(s: seq<T>, start: nat, end: nat): (r: seq<T>)
    ensures |r| == if start < end && start < |s| then Min(end, |s|) - start else 0
    ensures forall i :: 0 <= i < |r| ==> r[i] == s[start + i]
  {
    if start < end && start < |s| then s[start..Min(end, |s|)] else []
  }

  /** The rows shown on page `page` of `s`, `size` rows to a page. */
  function PageRows<T>(s: seq<T>, page: int, size: nat): (r: seq<T>)
    requires page >= 1 && size > 0
    ensures |r| <= size
    ensures |r| == if (page - 1) * size < |s| then Min(size, |s| - (page - 1) * size) else 0
    ensures forall i :: 0 <= i < |r| ==> r[i] == s[(page - 1) * size + i]
  {
    assert page * size == (page - 1) * size + size;
    Slice(s, (page - 1) * size, page * size)
  }

  /** A page has rows exactly when its number is at most the page count. */
  lemma PageNonEmptyIff<T>(s: seq<T>, page: int, size: nat)
    requires page >= 1 && size > 0
    ensures PageRows(s, page, size) != [] <==> page <= CeilDiv(|s|, size)
  {
    var c := CeilDiv(|s|, size);
    if page <= c {
      MulMono(page - 1, c - 1, size);
    } else {
      MulMono(c, page - 1, size);
    }
  }

  /** Pages 1 to `k` shown one after the other. */
  function Pages<T>(s: seq<T>, k: nat, size: nat): seq<T>
    requires size > 0
  {
    if k == 0 then [] else Pages(s, k - 1, size) + PageRows(s, k, size)
  }

  lemma {:induction false} PagesArePrefix<T>(s: seq<T>, k: nat, size: nat)
    requires size > 0
    ensures Pages(s, k, size) == s[..Min(k * size, |s|)]
  {
    if k > 0 {
      PagesArePrefix(s, k - 1, size);
      var lo := Min((k - 1) * size, |s|);
      assert (k - 1) * size + size == k * size;
      var rows := PageRows(s, k, size);
      assert s[..Min(k * size, |s|)] == s[..lo] + rows;
    }
  }

  /**
   * Shown one after another, the pages in range reproduce the list exactly:
   * no row is lost, repeated or reordered.
   */
  lemma PagesPartition<T>(s: seq<T>, size: nat)
    requires size > 0
    ensures Pages(s, CeilDiv(|s|, size), size) == s
  {
    PagesArePrefix(s, CeilDiv(|s|, size), size);
  }

  /** "Showing start to end": the 1-based numbers of the first and last row of a page. */
  datatype Range = Range(start: int, end: int)

  function Showing(page: int, size: nat, total: nat): Range
  {
    Range((page - 1) * size + 1, Min(page * size, total))
  }

  /**
   * The range a table prints names exactly the rows it shows: as many numbers
   * as rows, the first and last row at those positions of the list, and an
   * empty page printed as a range whose end precedes its start.
   */
  lemma ShowingMatchesRows<T>(s: seq<T>, page: int, size: nat)
    requires page >= 1 && size > 0
    ensures var rg, rows := Showing(page, size, |s|), PageRows(s, page, size);
      && (rows == [] <==> rg.end < rg.start)
      && (rows != [] ==> rg.end - rg.start + 1 == |rows|
                         && rows[0] == s[rg.start - 1] && rows[|rows| - 1] == s[rg.end - 1])
  {
    assert page * size == (page - 1) * size + size;
  }

  /** The numbered page buttons, 1 to `total` in order. */
  function PageNumbers(total: nat): (r: seq<int>)
    ensures |r| == total
    ensures forall i :: 0 <= i < |r| ==> r[i] == i + 1
  {
    if total == 0 then [] else PageNumbers(total - 1) + [total]
  }

  /** The buttons offer exactly the pages 1 to `total`, each once, ascending. */
  lemma PageNumbersExact(total: nat)
    ensures forall k :: k in PageNumbers(total) <==> 1 <= k <= total
    ensures forall i, j :: 0 <= i < j < total ==> PageNumbers(total)[i] < PageNumbers(total)[j]
  {
    var r := PageNumbers(total);
    forall k | 1 <= k <= total ensures k in r {
      assert r[k - 1] == k;
    }
  }
}
