/**
 * The user's dashboard (src/pages/Dashboard.jsx): fetching the user's own
 * bookings and cancelling one, with the local list updated in place of a
 * refetch.
 */
module Dashboard {
  import opened Client
  import AuthContext

  const Cancelled := "Cancelled"

  /** A booking row as the server sends it; `status` is the server's text. */
  datatype Booking = Booking(
    id: string, status: string, resourceName: Option<string>,
    date: string, startTime: string, endTime: string)

  datatype BookingsReply = BookingsReply(success: bool, bookings: seq<Booking>)
  datatype CancelReply = CancelReply(success: bool)

  /** The Cancel control is offered for Confirmed and Pending bookings only. */
  predicate Cancellable(status: string) {
    status in ["Confirmed", "Pending"]
  }

  /** The local update after a successful cancel: the bookings whose id is
      `id` get status Cancelled; every field of every booking but that
      status, the length and the order stay as they were. */
  function MarkCancelled(bookings: seq<Booking>, id: string): (r: seq<Booking>)
    ensures |r| == |bookings|
    ensures forall i :: 0 <= i < |r| ==> r[i].(status := bookings[i].status) == bookings[i]
    ensures forall i :: 0 <= i < |r| ==> (r[i].status == Cancelled <==> bookings[i].id == id || bookings[i].status == Cancelled)
    ensures forall i :: 0 <= i < |r| && bookings[i].id != id ==> r[i] == bookings[i]
  {
    seq(|bookings|, i requires 0 <= i < |bookings| =>
      if bookings[i].id == id then bookings[i].(status := Cancelled) else bookings[i])
  }

  /** After the update no booking with that id can be cancelled again. */
  lemma NothingLeftToCancel(bookings: seq<Booking>, id: string)
    ensures forall i :: 0 <= i < |bookings| && MarkCancelled(bookings, id)[i].id == id ==>
      !Cancellable(MarkCancelled(bookings, id)[i].status)
  {
  }

  /** Applying the update twice gives the list it gives once. */
  lemma MarkCancelledIdempotent(bookings: seq<Booking>, id: string)
    ensures MarkCancelled(MarkCancelled(bookings, id), id) == MarkCancelled(bookings, id)
  {
    var once := MarkCancelled(bookings, id);
    var twice := MarkCancelled(once, id);
    assert |twice| == |once|;
    forall i | 0 <= i < |once| ensures twice[i] == once[i] {
      if once[i].id == id {
        assert twice[i].(status := once[i].status) == once[i];
      }
    }
  }

  /** The updates for two ids commute. */
  lemma MarkCancelledCommutes(bookings: seq<Booking>, a: string, b: string)
    ensures MarkCancelled(MarkCancelled(bookings, a), b) == MarkCancelled(MarkCancelled(bookings, b), a)
  {
    var ab := MarkCancelled(MarkCancelled(bookings, a), b);
    var ba := MarkCancelled(MarkCancelled(bookings, b), a);
    assert |ab| == |ba|;
    forall i | 0 <= i < |ab| ensures ab[i] == ba[i] {
      assert ab[i].(status := bookings[i].status) == bookings[i];
      assert ba[i].(status := bookings[i].status) == bookings[i];
    }
  }

  function BookingsPath(userId: string): string {
    "/bookings/user/" + userId
  }

  function CancelPath(id: string): string {
    "/bookings/" + id + "/cancel"
  }

  class Page {
    var bookings: seq<Booking>
    var loading: bool
    var isCancelModalOpen: bool
    var bookingToCancel: Option<string>
    var isCancelling: bool
    var events: seq<Event>

    constructor ()
      ensures bookings == [] && loading && !isCancelModalOpen && bookingToCancel == None
      ensures !isCancelling && events == []
    {
      bookings := [];
      loading := true;
      isCancelModalOpen := false;
      bookingToCancel := None;
      isCancelling := false;
      events := [];
    }

    /** `fetchMyBookings`: nothing without a user; the list is replaced only
        by a reply reporting success; a failed call toasts. */
    method FetchMyBookings(user: Option<AuthContext.UserData>, response: Outcome<BookingsReply>)
      modifies this
      ensures user.None? ==> bookings == old(bookings) && loading == old(loading) && events == old(events)
      ensures user.Some? ==>
        && !loading
        && bookings == (if response.Reply? && response.body.success then response.body.bookings else old(bookings))
        && events == old(events) + [Request("GET", BookingsPath(user.value.id))] +
             (if response.Failure? then [Toast(Error, "Failed to load your bookings")] else [])
      ensures isCancelModalOpen == old(isCancelModalOpen) && bookingToCancel == old(bookingToCancel)
      ensures isCancelling == old(isCancelling)
    {
      if user.None? {
        return;
      }
      events := events + [Request("GET", BookingsPath(user.value.id))];
      match response {
        case Reply(r) =>
          if r.success {
            bookings := r.bookings;
          }
        case Failure(_) =>
          events := events + [Toast(Error, "Failed to load your bookings")];
      }
      loading := false;
    }

    /** `openCancelModal`. */
    method OpenCancelModal(id: string)
      modifies this
      ensures bookingToCancel == Some(id) && isCancelModalOpen
      ensures bookings == old(bookings) && loading == old(loading)
      ensures isCancelling == old(isCancelling) && events == old(events)
    {
      bookingToCancel := Some(id);
      isCancelModalOpen := true;
    }

    /** `confirmCancel`: a no-op when no booking is selected; otherwise PUT
        the cancel, and only on a reply reporting success mark the booking
        Cancelled locally and close the modal. */
    method ConfirmCancel(response: Outcome<CancelReply>)
      modifies this
      ensures (old(bookingToCancel).None? || old(bookingToCancel).value == "") ==>
        bookings == old(bookings) && isCancelModalOpen == old(isCancelModalOpen) &&
        isCancelling == old(isCancelling) && events == old(events)
      ensures old(bookingToCancel).Some? && old(bookingToCancel).value != "" ==>
        var id := old(bookingToCancel).value;
        && !isCancelling
        && (response.Reply? && response.body.success ==>
              bookings == MarkCancelled(old(bookings), id) && !isCancelModalOpen &&
              events == old(events) + [Request("PUT", CancelPath(id)), Toast(Success, "Booking cancelled successfully")])
        && (!(response.Reply? && response.body.success) ==>
              bookings == old(bookings) && isCancelModalOpen == old(isCancelModalOpen))
        && (response.Reply? && !response.body.success ==>
              events == old(events) + [Request("PUT", CancelPath(id))])
        && (response.Failure? ==>
              events == old(events) + [Request("PUT", CancelPath(id)),
                Toast(Error, MessageOr(response.error, "Failed to cancel booking"))])
      ensures bookingToCancel == old(bookingToCancel) && loading == old(loading)
    {
      if bookingToCancel.None? || bookingToCancel.value == "" {
        return;
      }
      var id := bookingToCancel.value;
      isCancelling := true;
      events := events + [Request("PUT", CancelPath(id))];
      match response {
        case Reply(r) =>
          if r.success {
            events := events + [Toast(Success, "Booking cancelled successfully")];
            bookings := MarkCancelled(bookings, id);
            isCancelModalOpen := false;
          }
        case Failure(e) =>
          events := events + [Toast(Error, MessageOr(e, "Failed to cancel booking"))];
      }
      isCancelling := false;
    }
  }
}
