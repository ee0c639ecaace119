/**
 * The booking dialog (src/components/booking/BookingModal.jsx): the
 * client-side admission of a booking request (login and time checks), the
 * request payload, the classification of a rejected request, and the
 * form and availability state the dialog keeps.
 *
 * Overlap detection is the server's; the client only reacts to its HTTP
 * 409. The booking id the dialog generates from the clock and a random
 * number is a parameter, and start/end instants are kept as the date and
 * time they are built from (their conversion to UTC is not modelled).
 */
module BookingModal {
  import opened Client
  import Js
  import AuthContext

  const LoginMessage := "Please login to book a room"
  const RangeMessage := "End time must be after start time"
  const OverlapMessage := "Time slot overlap! Please check availability."

  function DigitAt(s: string, i: nat): nat
    requires i < |s| && Js.IsDigit(s[i])
  {
    s[i] as nat - '0' as nat
  }

  /** Minutes after midnight of a time-input value "HH:MM" from "00:00" to
      "23:59", the values a time input produces; `None` for anything else
      (the empty string included), where `new Date("1970-01-01T" + t + ":00")`
      is an invalid date. */
  function ParseTime(t: string): (m: Option<nat>)
    ensures m.Some? ==> m.value < 24 * 60
  {
    if |t| == 5 && Js.IsDigit(t[0]) && Js.IsDigit(t[1]) && t[2] == ':' && Js.IsDigit(t[3]) && Js.IsDigit(t[4]) then
      var h := DigitAt(t, 0) * 10 + DigitAt(t, 1);
      var mm := DigitAt(t, 3) * 10 + DigitAt(t, 4);
      if h < 24 && mm < 60 then Some(h * 60 + mm) else None
    else None
  }

  /** `startObj >= endObj`. A comparison with an invalid date is false, so
      only two valid times can reject. */
  predicate StartNotBeforeEnd(startTime: string, endTime: string) {
    ParseTime(startTime).Some? && ParseTime(endTime).Some? &&
    ParseTime(startTime).value >= ParseTime(endTime).value
  }

  /** The client's admission decision, checks in source order. */
  datatype Admission = NotLoggedIn | BadRange | Admitted

  function Admit(user: Option<AuthContext.UserData>, startTime: string, endTime: string): Admission {
    if user.None? then NotLoggedIn
    else if StartNotBeforeEnd(startTime, endTime) then BadRange
    else Admitted
  }

  /** Without a user the request is refused before the times are looked at. */
  lemma NoUserRefusedFirst(startTime: string, endTime: string)
    ensures Admit(None, startTime, endTime) == NotLoggedIn
  {
  }

  /** For well-formed times and a user, the request is refused exactly when
      the start is not before the end; equal times are refused. */
  lemma RangeCheck(user: AuthContext.UserData, startTime: string, endTime: string)
    requires ParseTime(startTime).Some? && ParseTime(endTime).Some?
    ensures Admit(Some(user), startTime, endTime) == BadRange <==>
      ParseTime(startTime).value >= ParseTime(endTime).value
    ensures Admit(Some(user), startTime, startTime) == BadRange
  {
  }

  /** "09:00" to "10:00" passes, "10:00" to "09:30" does not. */
  lemma RangeExamples(user: AuthContext.UserData)
    ensures Admit(Some(user), "09:00", "10:00") == Admitted
    ensures Admit(Some(user), "10:00", "09:30") == BadRange
  {
    assert ParseTime("09:00") == Some(540);
    assert ParseTime("10:00") == Some(600);
    assert ParseTime("09:30") == Some(570);
  }

  /** A date-input value "YYYY-MM-DD" with a month from 01 to 12 and a day
      from 01 to 31. */
  predicate IsDateValue(d: string) {
    |d| == 10 && d[4] == '-' && d[7] == '-' &&
    Js.IsDigit(d[0]) && Js.IsDigit(d[1]) && Js.IsDigit(d[2]) && Js.IsDigit(d[3]) &&
    Js.IsDigit(d[5]) && Js.IsDigit(d[6]) && Js.IsDigit(d[8]) && Js.IsDigit(d[9]) &&
    1 <= DigitAt(d, 5) * 10 + DigitAt(d, 6) <= 12 &&
    1 <= DigitAt(d, 8) * 10 + DigitAt(d, 9) <= 31
  }

  /** Both `new Date(date + "T" + time + ":00")` are valid dates, so their
      `toISOString()` does not throw. */
  predicate Converts(date: string, startTime: string, endTime: string) {
    IsDateValue(date) && ParseTime(startTime).Some? && ParseTime(endTime).Some?
  }

  /** An empty start time passes the range check (a comparison with an
      invalid date is false), and it is the conversion that stops it. */
  lemma EmptyTimeAdmittedButNotConverted(user: AuthContext.UserData, date: string)
    ensures Admit(Some(user), "", "10:00") == Admitted
    ensures !Converts(date, "", "10:00")
  {
  }

  /** An empty date never converts, whatever the times. */
  lemma EmptyDateNotConverted(startTime: string, endTime: string)
    ensures !Converts("", startTime, endTime)
  {
  }

  /** A date and two times as the inputs give them convert. */
  lemma DateAndTimesConvert()
    ensures Converts("2024-05-01", "09:00", "10:00")
  {
    assert ParseTime("09:00") == Some(540);
    assert ParseTime("10:00") == Some(600);
  }

  /** `new Date(date + "T" + time + ":00")`, kept as its two parts. */
  datatype Instant = Instant(date: string, time: string)

  datatype Payload = Payload(
    id: string, resourceId: string, date: string,
    startTime: Instant, endTime: Instant, purpose: string)

  /** The body of POST /bookings. */
  function BuildPayload(bookingId: string, resourceId: string, date: string,
                        startTime: string, endTime: string, purpose: string): (p: Payload)
    ensures p.resourceId == resourceId && p.date == date && p.purpose == purpose && p.id == bookingId
    ensures p.startTime == Instant(date, startTime) && p.endTime == Instant(date, endTime)
  {
    Payload(bookingId, resourceId, date, Instant(date, startTime), Instant(date, endTime), purpose)
  }

  /** The message shown for a rejected request: HTTP 409 is the overlap
      message whatever the server said; otherwise the server's message, or
      "Booking Failed" when it sent none. */
  function ClassifyError(e: HttpError): (msg: string)
    ensures e.ErrorResponse? && e.status == 409 ==> msg == OverlapMessage
    ensures !(e.ErrorResponse? && e.status == 409) ==> msg == MessageOr(e, "Booking Failed")
    ensures msg != ""
  {
    if e.ErrorResponse? && e.status == 409 then OverlapMessage
    else MessageOr(e, "Booking Failed")
  }

  /** Only a 409 gives the overlap message, unless the server's own message
      happens to be that text. No error gives an empty message. */
  lemma OverlapOnlyFor409(e: HttpError)
    requires !(e.ErrorResponse? && e.status == 409)
    requires !(e.ErrorResponse? && e.message == Some(OverlapMessage))
    ensures ClassifyError(e) != OverlapMessage
  {
  }

  /** A busy interval as the availability endpoint reports it. */
  datatype Slot = Slot(startTime: string, endTime: string)

  datatype AvailabilityReply = AvailabilityReply(success: bool, bookings: seq<Slot>)
  datatype BookingReply = BookingReply(success: bool, message: Option<string>)

  /** Whether the availability effect calls the server. */
  predicate FetchesAvailability(date: string, resourceId: string) {
    date != "" && resourceId != ""
  }

  /** `busySlots` after the availability effect: cleared when there is no
      date or resource id, replaced by a reply that reports success, kept
      otherwise. */
  function BusyAfter(date: string, resourceId: string, busy: seq<Slot>, response: Outcome<AvailabilityReply>): seq<Slot> {
    if !FetchesAvailability(date, resourceId) then []
    else match response
      case Reply(r) => if r.success then r.bookings else busy
      case Failure(_) => busy
  }

  /** The busy list only ever becomes empty or the server's successful list. */
  lemma BusySources(date: string, resourceId: string, busy: seq<Slot>, response: Outcome<AvailabilityReply>)
    ensures BusyAfter(date, resourceId, busy, response) == [] ||
            BusyAfter(date, resourceId, busy, response) == busy ||
            (response.Reply? && response.body.success && BusyAfter(date, resourceId, busy, response) == response.body.bookings)
    ensures BusyAfter(date, resourceId, busy, response) != busy && BusyAfter(date, resourceId, busy, response) != [] ==>
            FetchesAvailability(date, resourceId) && response.Reply? && response.body.success
  {
  }

  function AvailabilityPath(resourceId: string, date: string): string {
    "/bookings/availability?resourceId=" + resourceId + "&date=" + date
  }

  /** The dialog's state. */
  class Modal {
    var selectedDate: string
    var startTime: string
    var endTime: string
    var purpose: string
    var loading: bool
    var fetchingSlots: bool
    var busySlots: seq<Slot>
    var events: seq<Event>

    predicate IsCleared()
      reads this
    {
      selectedDate == "" && startTime == "" && endTime == "" && purpose == "" && busySlots == []
    }

    constructor ()
      ensures IsCleared() && !loading && !fetchingSlots && events == []
    {
      selectedDate, startTime, endTime, purpose := "", "", "", "";
      loading, fetchingSlots := false, false;
      busySlots := [];
      events := [];
    }

    /** `handleClose`: clear the form and the busy list, then tell the parent. */
    method Close()
      modifies this
      ensures IsCleared()
      ensures loading == old(loading) && fetchingSlots == old(fetchingSlots)
      ensures events == old(events) + [ClosedByParent]
    {
      selectedDate := "";
      startTime := "";
      endTime := "";
      purpose := "";
      busySlots := [];
      events := events + [ClosedByParent];
    }

    /** The effect that runs when the date or the resource changes. */
    method RefreshAvailability(resourceId: string, response: Outcome<AvailabilityReply>)
      modifies this
      ensures busySlots == BusyAfter(old(selectedDate), resourceId, old(busySlots), response)
      ensures selectedDate == old(selectedDate) && startTime == old(startTime)
      ensures endTime == old(endTime) && purpose == old(purpose) && loading == old(loading)
      ensures FetchesAvailability(old(selectedDate), resourceId) ==>
        !fetchingSlots && events == old(events) + [Request("GET", AvailabilityPath(resourceId, old(selectedDate)))]
      ensures !FetchesAvailability(old(selectedDate), resourceId) ==>
        fetchingSlots == old(fetchingSlots) && events == old(events)
    {
      if selectedDate != "" && resourceId != "" {
        fetchingSlots := true;
        events := events + [Request("GET", AvailabilityPath(resourceId, selectedDate))];
        if response.Reply? && response.body.success {
          busySlots := response.body.bookings;
        }
        fetchingSlots := false;
      } else {
        busySlots := [];
      }
    }

    /** `handleSubmit`: refuse without a user or with a bad range; otherwise
        build the payload, where converting an invalid date or time throws
        and toasts "Booking Failed" before anything is sent; otherwise send
        it, and on a reply reporting success toast and close. */
    method Submit(user: Option<AuthContext.UserData>, resourceId: string, bookingId: string,
                  response: Outcome<BookingReply>) returns (sent: Option<Payload>)
      modifies this
      ensures Admit(user, old(startTime), old(endTime)) == NotLoggedIn ==>
        sent == None && events == old(events) + [Toast(Error, LoginMessage)]
      ensures Admit(user, old(startTime), old(endTime)) == BadRange ==>
        sent == None && events == old(events) + [Toast(Error, RangeMessage)]
      ensures Admit(user, old(startTime), old(endTime)) != Admitted ==>
        selectedDate == old(selectedDate) && startTime == old(startTime) && endTime == old(endTime) &&
        purpose == old(purpose) && busySlots == old(busySlots) && loading == old(loading)
      ensures Admit(user, old(startTime), old(endTime)) == Admitted &&
              !Converts(old(selectedDate), old(startTime), old(endTime)) ==>
        && sent == None && !loading
        && events == old(events) + [Toast(Error, ClassifyError(NoResponse))]
        && selectedDate == old(selectedDate) && startTime == old(startTime) && endTime == old(endTime)
        && purpose == old(purpose) && busySlots == old(busySlots)
      ensures Admit(user, old(startTime), old(endTime)) == Admitted &&
              Converts(old(selectedDate), old(startTime), old(endTime)) ==>
        && sent == Some(BuildPayload(bookingId, resourceId, old(selectedDate), old(startTime), old(endTime), old(purpose)))
        && !loading
        && (response.Reply? && response.body.success ==>
              IsCleared() &&
              events == old(events) + [Request("POST", "/bookings"),
                Toast(Success, OrString(response.body.message, "Booking Successful!")), ClosedByParent])
        && (response.Reply? && !response.body.success ==>
              events == old(events) + [Request("POST", "/bookings")])
        && (response.Failure? ==>
              events == old(events) + [Request("POST", "/bookings"), Toast(Error, ClassifyError(response.error))])
        && (!(response.Reply? && response.body.success) ==>
              selectedDate == old(selectedDate) && startTime == old(startTime) && endTime == old(endTime) &&
              purpose == old(purpose) && busySlots == old(busySlots))
      ensures fetchingSlots == old(fetchingSlots)
    {
      if user.None? {
        events := events + [Toast(Error, LoginMessage)];
        return None;
      }
      if StartNotBeforeEnd(startTime, endTime) {
        events := events + [Toast(Error, RangeMessage)];
        return None;
      }
      loading := true;
      if !Converts(selectedDate, startTime, endTime) {
        events := events + [Toast(Error, ClassifyError(NoResponse))];
        loading := false;
        return None;
      }
      var payload := BuildPayload(bookingId, resourceId, selectedDate, startTime, endTime, purpose);
      sent := Some(payload);
      events := events + [Request("POST", "/bookings")];
      match response {
        case Reply(reply) =>
          if reply.success {
            events := events + [Toast(Success, OrString(reply.message, "Booking Successful!"))];
            Close();
          }
        case Failure(e) =>
          events := events + [Toast(Error, ClassifyError(e))];
      }
      loading := false;
    }
  }
}
