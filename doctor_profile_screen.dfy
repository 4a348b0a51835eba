/** A doctor's profile (src/screens/patient/DoctorProfileScreen.tsx): the
    count of bookable slots over the fetched days, the booking section's
    visibility flag, what that section lists and the hand-off of a chosen
    slot to the booking screen. */
module DoctorProfileScreen {
  import opened Types

  /** `availableSlots.reduce((total, day) => total + day.slots.length, 0)`:
      a left fold, so the last day is added last. */
  function TotalSlots(days: seq<AvailableDay>): nat
  {
    if days == [] then 0
    else TotalSlots(days[..|days| - 1]) + |days[|days| - 1].slots|
  }

  /** The count is additive over a split of the day list. */
  lemma {:induction false} TotalSlotsConcat(a: seq<AvailableDay>, b: seq<AvailableDay>)
    ensures TotalSlots(a + b) == TotalSlots(a) + TotalSlots(b)
    decreases |b|
  {
    if b == [] {
      assert a + b == a;
    } else {
      var b' := b[..|b| - 1];
      assert (a + b)[..|a + b| - 1] == a + b';
      TotalSlotsConcat(a, b');
    }
  }

  /** No slot is counted exactly when every day's slot list is empty; in
      particular the empty day list counts 0. */
  lemma {:induction false} TotalSlotsZeroIff(days: seq<AvailableDay>)
    ensures TotalSlots(days) == 0 <==> forall i :: 0 <= i < |days| ==> days[i].slots == []
  {
    if days != [] {
      var init := days[..|days| - 1];
      TotalSlotsZeroIff(init);
      if TotalSlots(days) == 0 {
        forall i | 0 <= i < |days| ensures days[i].slots == [] {
          if i < |days| - 1 {
            assert days[i] == init[i];
          }
        }
      } else if forall i :: 0 <= i < |days| ==> days[i].slots == [] {
        forall i | 0 <= i < |init| ensures init[i].slots == [] {
          assert init[i] == days[i];
        }
      }
    }
  }

  /** A day list counts at least the slots of any one of its days. */
  lemma TotalSlotsAtLeastDay(days: seq<AvailableDay>, i: int)
    requires 0 <= i < |days|
    ensures |days[i].slots| <= TotalSlots(days)
  {
    assert days == days[..i] + [days[i]] + days[i + 1..];
    TotalSlotsConcat(days[..i] + [days[i]], days[i + 1..]);
    TotalSlotsConcat(days[..i], [days[i]]);
    assert [days[i]][..0] == [];
  }

  /** `slotsResponse.days || []`. */
  function DaysOrEmpty(days: Option<seq<AvailableDay>>): (r: seq<AvailableDay>)
    ensures days.Some? ==> r == days.value
    ensures days.None? ==> r == [] && TotalSlots(r) == 0
  {
    if days.Some? then days.value else []
  }

  /** The parameters of the navigation to the booking screen. */
  datatype BookingRoute = BookingRoute(doctorId: string, doctor: Option<Doctor>, slot: TimeSlot)

  /** One day of the booking section: its slot buttons, or the note that
      the day has none. */
  datatype DayView =
    | SlotButtons(displayDate: string, buttons: seq<TimeSlot>)
    | EmptyDayNote(displayDate: string)

  /** The booking section below the availability card. */
  datatype BookingSection =
    | Hidden                         // showBooking is false
    | NoSlotsNotice                  // shown, but no day has a slot
    | Grid(days: seq<DayView>)       // shown, one entry per fetched day

  function ViewOfDay(day: AvailableDay): DayView
  {
    if |day.slots| > 0 then SlotButtons(day.displayDate, day.slots) else EmptyDayNote(day.displayDate)
  }

  function SectionFor(showBooking: bool, days: seq<AvailableDay>): BookingSection
  {
    if !showBooking then Hidden
    else if TotalSlots(days) > 0 then Grid(seq(|days|, i requires 0 <= i < |days| => ViewOfDay(days[i])))
    else NoSlotsNotice
  }

  /** The section lists every fetched day in order, each slot of a day as a
      button of that day and a day without slots as the empty-day note; the
      grid is shown only when at least one day has a button. */
  lemma SectionListsEverySlot(showBooking: bool, days: seq<AvailableDay>)
    ensures SectionFor(showBooking, days).Hidden? <==> !showBooking
    ensures SectionFor(showBooking, days).NoSlotsNotice? <==>
      showBooking && forall i :: 0 <= i < |days| ==> days[i].slots == []
    ensures SectionFor(showBooking, days).Grid? ==>
      var g := SectionFor(showBooking, days).days;
      && |g| == |days|
      && (forall i :: 0 <= i < |days| ==> g[i].displayDate == days[i].displayDate)
      && (forall i :: 0 <= i < |days| ==> (g[i].EmptyDayNote? <==> days[i].slots == []))
      && (forall i :: 0 <= i < |days| && g[i].SlotButtons? ==> g[i].buttons == days[i].slots)
      && (exists i :: 0 <= i < |days| && g[i].SlotButtons?)
  {
    TotalSlotsZeroIff(days);
    if SectionFor(showBooking, days).Grid? {
      var g := SectionFor(showBooking, days).days;
      var i :| 0 <= i < |days| && days[i].slots != [];
      assert g[i].SlotButtons?;
    }
  }

  const HideBookingTitle: string := "Hide Booking"
  const BookTitle: string := "Book Appointment"

  /** The header button's label. */
  function BookButtonTitle(showBooking: bool): (t: string)
    ensures t == HideBookingTitle <==> showBooking
    ensures t == BookTitle <==> !showBooking
  {
    if showBooking then HideBookingTitle else BookTitle
  }

  class DoctorProfileState {
    const doctorId: string
    var doctor: Option<Doctor>
    var availableSlots: seq<AvailableDay>
    var loading: bool
    var showBooking: bool
    var selectedSlot: Option<TimeSlot>

    constructor (id: string)
      ensures doctorId == id && doctor == None && availableSlots == []
      ensures loading && !showBooking && selectedSlot == None
    {
      doctorId := id;
      doctor := None;
      availableSlots := [];
      loading := true;
      showBooking := false;
      selectedSlot := None;
    }

    /** `loadDoctorData` once both responses arrived: a missing day list
      is taken as empty. */
    method ApplyLoaded(doctorResponse: Option<Doctor>, days: Option<seq<AvailableDay>>)
      modifies this`doctor, this`availableSlots, this`loading
      ensures doctor == doctorResponse && availableSlots == DaysOrEmpty(days) && !loading
      ensures days.None? ==> TotalSlots(availableSlots) == 0
    {
      doctor := doctorResponse;
      availableSlots := DaysOrEmpty(days);
      loading := false;
    }

    /** `handleBookAppointment`: with no slot at all the "No Available
      Slots" alert is raised and the section stays as it was; otherwise the
      section is opened. The screen never calls this handler: its only
      booking button runs `ToggleBooking`, so the alert is never shown. */
    method HandleBookAppointment() returns (alerted: bool)
      modifies this`showBooking
      ensures alerted <==> TotalSlots(availableSlots) == 0
      ensures alerted ==> showBooking == old(showBooking)
      ensures !alerted ==> showBooking
    {
      if TotalSlots(availableSlots) == 0 {
        return true;
      }
      showBooking := true;
      alerted := false;
    }

    /** The header button: flips the section without looking at the
      number of slots. */
    method ToggleBooking()
      modifies this`showBooking
      ensures showBooking == !old(showBooking)
      ensures BookButtonTitle(showBooking) != BookButtonTitle(old(showBooking))
    {
      showBooking := !showBooking;
    }

    /** `handleSlotSelect`: remembers the slot and hands the doctor's id,
      the loaded doctor and the slot, all unchanged, to the booking screen. */
    method HandleSlotSelect(slot: TimeSlot) returns (route: BookingRoute)
      modifies this`selectedSlot
      ensures selectedSlot == Some(slot)
      ensures route.doctorId == doctorId && route.doctor == doctor && route.slot == slot
    {
      selectedSlot := Some(slot);
      route := BookingRoute(doctorId, doctor, slot);
    }
  }
}
