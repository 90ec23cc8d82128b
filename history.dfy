/**
 * The booking-history table of the coach dashboard: ten payments to a page,
 * at least one page even for an empty list, and an approval dialog that sends
 * a Zoom link for the selected booking.
 */
module BookingHistoryPage {
  import opened Common
  import opened PaymentTypes
  import opened Pagination

  const ItemsPerPage: nat := 10

  /** `Math.max(Math.ceil(n / 10), 1)`. */
  function TotalPages(n: nat): (r: nat)
    ensures r >= 1
    ensures n == 0 ==> r == 1
    ensures n > 0 ==> (r - 1) * ItemsPerPage < n <= r * ItemsPerPage
  {
    var c := CeilDiv(n, ItemsPerPage);
    if c >= 1 then c else 1
  }

  /** What a row's action cell offers. */
  datatype RowAction = ApprovedBadge | ApproveButton

  /** A disabled "Approved" button for approved bookings, an "Approve" button otherwise. */
  function ActionFor(p: Payment): (a: RowAction)
    ensures a == ApproveButton <==> !(p.booking.Some? && p.booking.value.status == "Approved")
  {
    match p.booking
    case Some(b) => if b.status == "Approved" then ApprovedBadge else ApproveButton
    case None => ApproveButton
  }

  /**
   * The booking id an "Approve" click passes on: the row's booking id, or
   * `None` when the row has no booking, where reading `booking._id` throws.
   */
  function ApproveTarget(p: Payment): (r: Option<string>)
    ensures r.Some? <==> p.booking.Some?
    ensures r.Some? ==> r.value == p.booking.value.id
  {
    if p.booking.Some? then Some(p.booking.value.id) else None
  }

  /**
   * A row without a booking still offers the "Approve" button, and clicking
   * it throws instead of selecting anything.
   */
  lemma ApproveButtonWithoutTarget(p: Payment)
    ensures ActionFor(p) == ApproveButton && ApproveTarget(p).None? <==> p.booking.None?
  {
  }

  /** The JSON body of the status update sent for an approval. */
  datatype ApproveBody = ApproveBody(zoomLink: string, status: string)

  /** One approval mutation: the booking it targets and its body. */
  datatype ApproveRequest = ApproveRequest(bookingId: string, body: ApproveBody)

  class BookingHistory {
    /** The payments of the last earnings response (`data?.payments || []`). */
    var payments: seq<Payment>
    var currentPage: int
    var openModal: bool
    var selectedBookingId: Option<string>
    var zoomLink: string

    ghost predicate Valid()
      reads this
    {
      currentPage >= 1
    }

    /** The page shown is one of the numbered pages. */
    predicate PageInRange()
      reads this
    {
      1 <= currentPage <= TotalPages(|payments|)
    }

    constructor (payments: seq<Payment>)
      ensures Valid() && PageInRange()
      ensures this.payments == payments && currentPage == 1
      ensures !openModal && selectedBookingId == None && zoomLink == ""
    {
      this.payments := payments;
      currentPage := 1;
      openModal := false;
      selectedBookingId := None;
      zoomLink := "";
    }

    /** The rows of the current page. */
    function CurrentPayments(): seq<Payment>
      reads this
      requires Valid()
    {
      PageRows(payments, currentPage, ItemsPerPage)
    }

    /** "Showing start to end of n results". */
    function ShowingRange(): (rg: Range)
      reads this
      requires Valid()
      ensures rg.start == (currentPage - 1) * ItemsPerPage + 1
      ensures rg.end == Min(currentPage * ItemsPerPage, |payments|)
      ensures CurrentPayments() == [] <==> rg.end < rg.start
      ensures CurrentPayments() != [] ==> rg.end - rg.start + 1 == |CurrentPayments()|
    {
      ShowingMatchesRows(payments, currentPage, ItemsPerPage);
      Showing(currentPage, ItemsPerPage, |payments|)
    }

    /** The numbered buttons: 1 to the page count, ascending; never empty. */
    function PageButtons(): (r: seq<int>)
      reads this
      ensures r != [] && r[0] == 1
      ensures forall k :: k in r <==> 1 <= k <= TotalPages(|payments|)
      ensures forall i, j :: 0 <= i < j < |r| ==> r[i] < r[j]
    {
      PageNumbersExact(TotalPages(|payments|));
      PageNumbers(TotalPages(|payments|))
    }

    /** The rows shown are ten consecutive payments, in list order, starting at the page's first row. */
    lemma CurrentPaymentsAreSlice()
      requires Valid()
      ensures var start := (currentPage - 1) * ItemsPerPage;
        && |CurrentPayments()| <= ItemsPerPage
        && (start < |payments| ==> CurrentPayments() == payments[start..Min(currentPage * ItemsPerPage, |payments|)])
        && (start >= |payments| ==> CurrentPayments() == [])
    {
      var start := (currentPage - 1) * ItemsPerPage;
      assert currentPage * ItemsPerPage == start + ItemsPerPage;
    }

    /** Moves to `page` when it is one of the numbered pages; any other target is ignored. */
    method GoToPage(page: int)
      requires Valid()
      modifies this`currentPage
      ensures Valid()
      ensures currentPage == if 1 <= page <= TotalPages(|payments|) then page else old(currentPage)
      ensures old(PageInRange()) ==> PageInRange()
    {
      if page >= 1 && page <= TotalPages(|payments|) {
        currentPage := page;
      }
    }

    /** The "Approve" button of a row: remembers the booking and opens the dialog. */
    method HandleApproveClick(bookingId: string)
      modifies this`selectedBookingId, this`openModal
      ensures selectedBookingId == Some(bookingId) && openModal
    {
      selectedBookingId := Some(bookingId);
      openModal := true;
    }

    /**
     * Clicking a row's "Approve" button: the click handler on a row without a
     * booking throws before any state changes; otherwise it is
     * `HandleApproveClick` with the booking's id.
     */
    method ClickApprove(p: Payment) returns (thrown: bool)
      requires ActionFor(p) == ApproveButton
      modifies this`selectedBookingId, this`openModal
      ensures thrown <==> p.booking.None?
      ensures thrown ==> selectedBookingId == old(selectedBookingId) && openModal == old(openModal)
      ensures !thrown ==> selectedBookingId == Some(p.booking.value.id) && openModal
    {
      match ApproveTarget(p)
      case None =>
        thrown := true;
      case Some(id) =>
        thrown := false;
        HandleApproveClick(id);
    }

    /** Typing in the dialog's link field. */
    method SetZoomLink(link: string)
      modifies this`zoomLink
      ensures zoomLink == link
    {
      zoomLink := link;
    }

    /** The dialog opened or dismissed by its own controls; the link and selection stay. */
    method SetOpenModal(open: bool)
      modifies this`openModal
      ensures openModal == open
    {
      openModal := open;
    }

    /**
     * The dialog's "Submit": the approval is requested only for a selected,
     * non-empty booking id and a Zoom link that is not blank; otherwise only a
     * warning is shown. Nothing in the component's state changes here.
     */
    method HandleSubmit() returns (req: Option<ApproveRequest>)
      ensures req.Some? <==>
        selectedBookingId.Some? && selectedBookingId.value != "" && !AllWhitespace(zoomLink)
      ensures req.Some? ==> req.value.bookingId == selectedBookingId.value
      ensures req.Some? ==> req.value.body == ApproveBody(zoomLink, "Approved")
    {
      TrimBlankIff(zoomLink);
      if selectedBookingId.Some? && selectedBookingId.value != "" && Trim(zoomLink) != "" {
        req := Some(ApproveRequest(selectedBookingId.value, ApproveBody(zoomLink, "Approved")));
      } else {
        req := None;
      }
    }

    /** A successful approval closes the dialog and clears the link and the selection. */
    method OnApproveSuccess()
      modifies this`openModal, this`zoomLink, this`selectedBookingId
      ensures !openModal && zoomLink == "" && selectedBookingId == None
    {
      openModal := false;
      zoomLink := "";
      selectedBookingId := None;
    }

    /** A refetched earnings response replaces the list; the current page is kept as it was. */
    method Refetch(latest: seq<Payment>)
      modifies this`payments
      ensures payments == latest
    {
      payments := latest;
    }
  }
}
