/** The booking confirmation (src/screens/patient/BookAppointmentScreen.tsx):
    the client-side credit guard, the request built from the chosen slot
    and the `loading` flag around the request. The request's outcome is a
    parameter; the debit and every other booking rule live on the server,
    which is not part of this model. */
module BookAppointmentScreen {
  import opened Types

  /** The cost shown on the screen, and the guard's threshold. */
  const BookingCost: int := 2

  const FailedFallback: string := "Failed to book appointment"

  /** `user?.credits < 2`. For an absent user the comparison is
      `undefined < 2`, which is false: the guard does not trip. */
  predicate InsufficientCredits(user: Option<User>)
  {
    user.Some? && user.value.credits < BookingCost
  }

  /** The "Insufficient Credits" warning card is rendered. */
  predicate WarningShown(user: Option<User>)
  {
    user.Some? && user.value.credits < 2
  }

  /** The "Confirm Booking" button is disabled. */
  predicate ConfirmDisabled(user: Option<User>)
  {
    user.Some? && user.value.credits < 2
  }

  /** The warning, the disabled button and the early return agree for every
      user: they are the same test, against the cost the screen displays. A
      present user passes exactly when holding at least that cost, and an
      absent user always passes. */
  lemma GuardsAgree(user: Option<User>)
    ensures WarningShown(user) <==> InsufficientCredits(user)
    ensures ConfirmDisabled(user) <==> InsufficientCredits(user)
    ensures user.Some? ==> (InsufficientCredits(user) <==> user.value.credits < BookingCost)
    ensures user.None? ==> !InsufficientCredits(user) && !ConfirmDisabled(user)
  {
  }

  /** The four fields of the booking form data. */
  datatype BookingRequest = BookingRequest(doctorId: string, startTime: Instant, endTime: Instant, description: string)

  /** The payload: the doctor's id, the slot's bounds and the typed
      description, all as given. */
  function Payload(doctorId: string, slot: TimeSlot, description: string): (r: BookingRequest)
    ensures r.doctorId == doctorId && r.description == description
    ensures r.startTime == slot.startTime && r.endTime == slot.endTime
  {
    BookingRequest(doctorId, slot.startTime, slot.endTime, description)
  }

  /** The alert the screen raises. */
  datatype Alert =
    | InsufficientCreditsAlert
    | BookedAlert
    | BookingFailedAlert(message: string)

  /** `error.message || 'Failed to book appointment'`. */
  function FailureMessage(message: string): (m: string)
    ensures m != ""
    ensures message != "" ==> m == message
    ensures message == "" ==> m == FailedFallback
  {
    if message != "" then message else FailedFallback
  }

  /** What the booking request resolves to. `apiCall` catches every error
      of the request itself and resolves to `success: false` with a
      message; it does not throw. */
  datatype ApiResult = ApiResult(success: bool, error: Option<string>)

  /** The message of an unsuccessful result, "" when there is none. */
  function ErrorText(result: ApiResult): string
  {
    if result.error.Some? then result.error.value else ""
  }

  /** The alert after the request, as the screen decides it. The awaited
      result is not inspected: every request that does not throw is
      reported as booked. `thrown` is the message of an exception raised
      outside `apiCall`, the only way to reach the "Booking Failed" alert. */
  function AlertAsWritten(result: ApiResult, thrown: Option<string>): Alert
  {
    if thrown.None? then BookedAlert else BookingFailedAlert(FailureMessage(thrown.value))
  }

  /** A booking the server rejects is still reported as booked. */
  lemma RejectedBookingReportedAsBooked(result: ApiResult)
    requires !result.success
    ensures AlertAsWritten(result, None) == BookedAlert
  {
  }

  /** The alert once the result is inspected: "Appointment Booked!" exactly
      for a successful result, otherwise the failure with the result's
      message (or the thrown one). */
  function CheckedAlert(result: ApiResult, thrown: Option<string>): (a: Alert)
    ensures a == BookedAlert <==> thrown.None? && result.success
    ensures thrown.None? && !result.success ==> a == BookingFailedAlert(FailureMessage(ErrorText(result)))
    ensures thrown.Some? ==> a == BookingFailedAlert(FailureMessage(thrown.value))
  {
    if thrown.Some? then BookingFailedAlert(FailureMessage(thrown.value))
    else if result.success then BookedAlert
    else BookingFailedAlert(FailureMessage(ErrorText(result)))
  }

  /** The two differ exactly on a rejected booking that did not throw. */
  lemma CheckedAlertFixesRejection(result: ApiResult, thrown: Option<string>)
    ensures CheckedAlert(result, thrown) != AlertAsWritten(result, thrown) <==> thrown.None? && !result.success
  {
  }

  class BookAppointmentState {
    const doctorId: string
    const slot: TimeSlot
    var description: string
    var loading: bool
    /** Requests handed to the booking endpoint, oldest first. */
    var sent: seq<BookingRequest>
    var alert: Option<Alert>

    constructor (doctorId: string, slot: TimeSlot)
      ensures this.doctorId == doctorId && this.slot == slot
      ensures description == "" && !loading && sent == [] && alert == None
    {
      this.doctorId := doctorId;
      this.slot := slot;
      description := "";
      loading := false;
      sent := [];
      alert := None;
    }

    method SetDescription(text: string)
      modifies this`description
      ensures description == text
    {
      description := text;
    }

    /** `handleBookAppointment` as written. `result` is what the request
      resolves to and `thrown` an exception raised outside `apiCall`. A user
      short of credits gets the alert and nothing is sent; otherwise exactly
      one request is sent, the alert ignores `result`, and `loading` is false
      again afterwards. */
    method HandleBookAppointment(user: Option<User>, result: ApiResult, thrown: Option<string>)
      modifies this`loading, this`sent, this`alert
      ensures InsufficientCredits(user) ==>
        sent == old(sent) && loading == old(loading) && alert == Some(InsufficientCreditsAlert)
      ensures !InsufficientCredits(user) ==>
        && sent == old(sent) + [Payload(doctorId, slot, description)]
        && !loading
        && alert == Some(AlertAsWritten(result, thrown))
    {
      if InsufficientCredits(user) {
        alert := Some(InsufficientCreditsAlert);
        return;
      }
      loading := true;
      sent := sent + [Payload(doctorId, slot, description)];
      alert := Some(AlertAsWritten(result, thrown));
      loading := false;
    }

    /** `handleBookAppointment` with the result inspected: as above, except
      that "Appointment Booked!" is shown only for a successful result. */
    method HandleBookAppointmentChecked(user: Option<User>, result: ApiResult, thrown: Option<string>)
      modifies this`loading, this`sent, this`alert
      ensures InsufficientCredits(user) ==>
        sent == old(sent) && loading == old(loading) && alert == Some(InsufficientCreditsAlert)
      ensures !InsufficientCredits(user) ==>
        && sent == old(sent) + [Payload(doctorId, slot, description)]
        && !loading
        && alert == Some(CheckedAlert(result, thrown))
        && (alert == Some(BookedAlert) <==> thrown.None? && result.success)
    {
      if InsufficientCredits(user) {
        alert := Some(InsufficientCreditsAlert);
        return;
      }
      loading := true;
      sent := sent + [Payload(doctorId, slot, description)];
      alert := Some(CheckedAlert(result, thrown));
      loading := false;
    }
  }
}
