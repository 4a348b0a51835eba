/** The patient's appointment list (src/screens/patient/AppointmentsScreen.tsx):
    the video-call join window, the status badge and the action buttons of
    each card, and the hand-off to the video-call screen. The current time is
    a parameter; the screen reads `new Date()`. */
module AppointmentsScreen {
  import opened Types

  /** 30 minutes in milliseconds: how early a call can be joined. */
  const JoinLeadMs: int := 30 * 60 * 1000

  /** `isAppointmentActive`, in the shape the screen writes it: either the
      start is at most 30 minutes away and not yet reached, or the start has
      been reached and the end has not been passed. */
  predicate IsAppointmentActive(start: Instant, end: Instant, now: Instant)
  {
    (start - now <= JoinLeadMs && now < start) || (now >= start && now <= end)
  }

  /** For a well-formed appointment the join window is the closed interval
      from 30 minutes before the start to the end; both ends are included. */
  lemma ActiveWindow(start: Instant, end: Instant, now: Instant)
    requires start <= end
    ensures IsAppointmentActive(start, end, now) <==> start - JoinLeadMs <= now <= end
    ensures IsAppointmentActive(start, end, start - JoinLeadMs)
    ensures IsAppointmentActive(start, end, end)
    ensures now > end || now < start - JoinLeadMs ==> !IsAppointmentActive(start, end, now)
  {
  }

  /** With the end before the start only the 30 minutes before the start
      remain: the second disjunct can never hold. */
  lemma ActiveWindowInverted(start: Instant, end: Instant, now: Instant)
    requires end < start
    ensures IsAppointmentActive(start, end, now) <==> start - JoinLeadMs <= now < start
  {
  }

  /** `canJoinCall`: scheduled and inside the join window. */
  predicate CanJoinCall(a: Appointment, now: Instant)
  {
    a.status == Scheduled && IsAppointmentActive(a.startTime, a.endTime, now)
  }

  /** Completed and cancelled appointments are never joinable, at any time. */
  lemma TerminalNeverJoinable(a: Appointment, now: Instant)
    requires a.status != Scheduled
    ensures !CanJoinCall(a, now)
  {
  }

  /** The action area of an appointment card. */
  datatype Actions =
    | NoActions                 // not SCHEDULED
    | JoinAndCancel             // "Join Video Call" and "Cancel Appointment"
    | CallNoteAndCancel         // the "available 30 minutes before" note and "Cancel Appointment"

  function CardActions(a: Appointment, now: Instant): (r: Actions)
    ensures r != NoActions <==> a.status == Scheduled
    ensures r == JoinAndCancel <==> CanJoinCall(a, now)
    ensures r == CallNoteAndCancel <==>
      a.status == Scheduled && !IsAppointmentActive(a.startTime, a.endTime, now)
  {
    if a.status == Scheduled then
      if CanJoinCall(a, now) then JoinAndCancel else CallNoteAndCancel
    else NoActions
  }

  const ScheduledColor: string := "#F59E0B"
  const CompletedColor: string := "#10B981"
  const CancelledColor: string := "#EF4444"
  const DefaultColor: string := "#64748B"

  /** `getStatusColor`: takes any string, as the source does. */
  function StatusColor(status: string): string
  {
    if status == "SCHEDULED" then ScheduledColor
    else if status == "COMPLETED" then CompletedColor
    else if status == "CANCELLED" then CancelledColor
    else DefaultColor
  }

  const ScheduledIcon: string := "\U{1F550}"
  const CompletedIcon: string := "\U{2705}"
  const CancelledIcon: string := "\U{274C}"
  const DefaultIcon: string := "\U{1F4C5}"

  /** `getStatusIcon`. */
  function StatusIcon(status: string): string
  {
    if status == "SCHEDULED" then ScheduledIcon
    else if status == "COMPLETED" then CompletedIcon
    else if status == "CANCELLED" then CancelledIcon
    else DefaultIcon
  }

  /** The three statuses get pairwise distinct colours and icons, none of
      them the fallback; a string that names no status gets the fallback. */
  lemma StatusBadgesDistinct(s: Status, t: Status, other: string)
    requires other != "SCHEDULED" && other != "COMPLETED" && other != "CANCELLED"
    ensures s != t ==> StatusColor(StatusName(s)) != StatusColor(StatusName(t))
    ensures s != t ==> StatusIcon(StatusName(s)) != StatusIcon(StatusName(t))
    ensures StatusColor(StatusName(s)) != DefaultColor && StatusIcon(StatusName(s)) != DefaultIcon
    ensures StatusColor(other) == DefaultColor && StatusIcon(other) == DefaultIcon
  {
    StatusNamesDistinct(s, t);
  }

  /** What the screen reads from the video-token response. */
  datatype TokenResponse = TokenResponse(success: bool, videoSessionId: Option<string>, token: Option<string>)

  /** The parameters of the navigation to the video-call screen. */
  datatype VideoCallRoute = VideoCallRoute(sessionId: Option<string>, token: Option<string>, appointmentId: string)

  /** `handleJoinVideoCall` after the response arrived: navigate only on
      success, passing the session id and token through unchanged. */
  function JoinNavigation(a: Appointment, response: TokenResponse): (r: Option<VideoCallRoute>)
    ensures r.Some? <==> response.success
    ensures r.Some? ==> r.value == VideoCallRoute(response.videoSessionId, response.token, a.id)
  {
    if response.success then
      Some(VideoCallRoute(response.videoSessionId, response.token, a.id))
    else None
  }
}
