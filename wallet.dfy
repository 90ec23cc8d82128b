/**
 * The wallet table of the coach dashboard: six payments to a page, a page
 * count with no lower bound (an empty list has no pages at all), and rows
 * only for payments that carry a booking.
 */
module WalletPage {
  import opened Common
  import opened PaymentTypes
  import opened Pagination

  const ItemsPerPage: nat := 6

  /** `Math.ceil(n / 6)`, with nothing keeping it at one or above. */
  function TotalPages(n: nat): (r: nat)
    ensures r == 0 <==> n == 0
    ensures n > 0 ==> (r - 1) * ItemsPerPage < n <= r * ItemsPerPage
  {
    CeilDiv(n, ItemsPerPage)
  }

  /** The payments of a page that produce a table row: those with a booking. */
  function BookedRows(ps: seq<Payment>): (r: seq<Payment>)
    ensures |r| <= |ps|
    ensures forall p :: p in r <==> p in ps && p.booking.Some?
  {
    if ps == [] then []
    else (if ps[0].booking.Some? then [ps[0]] else []) + BookedRows(ps[1..])
  }

  /**
   * Filtering keeps the order: the rows of two runs of payments shown one
   * after the other are the rows of the first run followed by those of the second.
   */
  lemma {:induction false} BookedRowsConcat(a: seq<Payment>, b: seq<Payment>)
    ensures BookedRows(a + b) == BookedRows(a) + BookedRows(b)
  {
    if a != [] {
      assert (a + b)[1..] == a[1..] + b;
      BookedRowsConcat(a[1..], b);
    } else {
      assert a + b == b;
    }
  }

  /** A page whose payments all carry a booking is shown in full. */
  lemma {:induction false} BookedRowsAllBooked(ps: seq<Payment>)
    requires forall i :: 0 <= i < |ps| ==> ps[i].booking.Some?
    ensures BookedRows(ps) == ps
  {
    if ps != [] {
      BookedRowsAllBooked(ps[1..]);
    }
  }

  /** Cutting a page anywhere, its rows are the first part's rows followed by the second's. */
  lemma BookedRowsSplit(ps: seq<Payment>)
    ensures forall k :: 0 <= k <= |ps| ==> BookedRows(ps) == BookedRows(ps[..k]) + BookedRows(ps[k..])
  {
    forall k | 0 <= k <= |ps|
      ensures BookedRows(ps) == BookedRows(ps[..k]) + BookedRows(ps[k..])
    {
      assert ps[..k] + ps[k..] == ps;
      BookedRowsConcat(ps[..k], ps[k..]);
    }
  }

  class MyWallet {
    /** The payments of the earnings response (`data.payments`). */
    var payments: seq<Payment>
    var currentPage: int

    ghost predicate Valid()
      reads this
    {
      currentPage >= 1
    }

    /** The page shown is one of the numbered pages. */
    predicate PageInRange()
      reads this
    {
      1 <= currentPage <= TotalPages(|payments|)
    }

    /** The first page is shown; with no payments it is not one of the (zero) numbered pages. */
    constructor (payments: seq<Payment>)
      ensures Valid() && this.payments == payments && currentPage == 1
      ensures PageInRange() <==> payments != []
    {
      this.payments := payments;
      currentPage := 1;
    }

    /** `startIdx`: the index of the first payment of the current page. */
    function StartIdx(): int
      reads this
    {
      (currentPage - 1) * ItemsPerPage
    }

    /** `payments.slice(startIdx, startIdx + 6)`. */
    function CurrentPayments(): (r: seq<Payment>)
      reads this
      requires Valid()
      ensures |r| <= ItemsPerPage
      ensures |r| == if StartIdx() < |payments| then Min(ItemsPerPage, |payments| - StartIdx()) else 0
      ensures r == [] <==> StartIdx() >= |payments|
      ensures r != [] ==> StartIdx() + |r| <= |payments|
      ensures forall i :: 0 <= i < |r| ==> r[i] == payments[StartIdx() + i]
    {
      PageRows(payments, currentPage, ItemsPerPage)
    }

    /**
     * The table's rows: the current page without the payments that lack a
     * booking, in page order: cutting the page anywhere, the rows of the first
     * part come before those of the second.
     */
    function Rows(): (r: seq<Payment>)
      reads this
      requires Valid()
      ensures forall p :: p in r <==> p in CurrentPayments() && p.booking.Some?
      ensures forall k :: 0 <= k <= |CurrentPayments()| ==>
        r == BookedRows(CurrentPayments()[..k]) + BookedRows(CurrentPayments()[k..])
      ensures (forall p :: p in CurrentPayments() ==> p.booking.Some?) ==> r == CurrentPayments()
    {
      var page := CurrentPayments();
      BookedRowsSplit(page);
      assert (forall p :: p in page ==> p.booking.Some?) ==> BookedRows(page) == page by {
        if forall p :: p in page ==> p.booking.Some? {
          BookedRowsAllBooked(page);
        }
      }
      BookedRows(page)
    }

    /** "Showing startIdx + 1 to min(startIdx + 6, n) of n results". */
    function ShowingRange(): (rg: Range)
      reads this
      requires Valid()
      ensures rg.start == StartIdx() + 1
      ensures rg.end == Min(StartIdx() + ItemsPerPage, |payments|)
      ensures CurrentPayments() == [] <==> rg.end < rg.start
      ensures CurrentPayments() != [] ==> rg.end - rg.start + 1 == |CurrentPayments()|
    {
      assert currentPage * ItemsPerPage == StartIdx() + ItemsPerPage;
      ShowingMatchesRows(payments, currentPage, ItemsPerPage);
      Showing(currentPage, ItemsPerPage, |payments|)
    }

    /** The numbered buttons: 1 to the page count, each a page `GoToPage` accepts. */
    function PageButtons(): (r: seq<int>)
      reads this
      ensures |r| == TotalPages(|payments|)
      ensures forall i :: 0 <= i < |r| ==> r[i] == i + 1
      ensures forall k :: k in r <==> 1 <= k <= TotalPages(|payments|)
      ensures forall i, j :: 0 <= i < j < |r| ==> r[i] < r[j]
    {
      PageNumbersExact(TotalPages(|payments|));
      PageNumbers(TotalPages(|payments|))
    }

    /** Moves to `page` when it is one of the numbered pages; with no payments nothing is. */
    method GoToPage(page: int)
      requires Valid()
      modifies this`currentPage
      ensures Valid()
      ensures currentPage == if 1 <= page <= TotalPages(|payments|) then page else old(currentPage)
      ensures payments == [] ==> currentPage == old(currentPage)
      ensures old(PageInRange()) ==> PageInRange()
    {
      if page >= 1 && page <= TotalPages(|payments|) {
        currentPage := page;
      }
    }
  }
}
