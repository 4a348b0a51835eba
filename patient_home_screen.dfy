/** The patient's home screen (src/screens/patient/PatientHomeScreen.tsx):
    the "upcoming appointments" excerpt, its loader, and the header's
    fallbacks for a missing user. */
module PatientHomeScreen {
  import opened Types
  import opened Seqs

  /** How many upcoming appointments the home screen lists. */
  const UpcomingLimit: nat := 3

  const DefaultName: string := "Patient"

  function IsScheduledAppointment(): Appointment -> bool
  {
    (a: Appointment) => a.status == Scheduled
  }

  /** `appointments.filter(apt => apt.status === 'SCHEDULED').slice(0, 3)`. */
  function Upcoming(appointments: seq<Appointment>): seq<Appointment>
  {
    Take(Filter(appointments, IsScheduledAppointment()), UpcomingLimit)
  }

  /** The number of scheduled appointments in a list. */
  function ScheduledCount(appointments: seq<Appointment>): nat
  {
    |Filter(appointments, IsScheduledAppointment())|
  }

  /** The excerpt holds only scheduled appointments taken from the list, in
      the list's order, and at most three of them. */
  lemma UpcomingShape(appointments: seq<Appointment>)
    ensures |Upcoming(appointments)| == if ScheduledCount(appointments) < UpcomingLimit then ScheduledCount(appointments) else UpcomingLimit
    ensures forall k :: 0 <= k < |Upcoming(appointments)| ==>
      Upcoming(appointments)[k] in appointments && Upcoming(appointments)[k].status == Scheduled
    ensures SubseqOf(Upcoming(appointments), Filter(appointments, IsScheduledAppointment()))
  {
    var f := Filter(appointments, IsScheduledAppointment());
    var u := Upcoming(appointments);
    forall k | 0 <= k < |u| ensures u[k] in appointments && u[k].status == Scheduled {
      assert u[k] == f[k];
      assert IsScheduledAppointment()(f[k]);
    }
    PrefixIsSubseq(f, |u|);
    assert u == f[..|u|];
  }

  lemma {:induction false} PrefixIsSubseq<T>(s: seq<T>, n: nat)
    requires n <= |s|
    ensures SubseqOf(s[..n], s)
  {
    if n > 0 {
      PrefixIsSubseq(s[1..], n - 1);
      assert s[..n][1..] == s[1..][..n - 1];
    }
  }

  /** A scheduled appointment preceded by `k` scheduled ones, `k` below
      three, is the excerpt's entry number `k`: the excerpt is the first
      three scheduled appointments in list order. */
  lemma UpcomingPosition(appointments: seq<Appointment>, i: int)
    requires 0 <= i < |appointments| && appointments[i].status == Scheduled
    requires ScheduledCount(appointments[..i]) < UpcomingLimit
    ensures ScheduledCount(appointments[..i]) < |Upcoming(appointments)|
    ensures Upcoming(appointments)[ScheduledCount(appointments[..i])] == appointments[i]
  {
    var p := IsScheduledAppointment();
    var a := appointments;
    assert a == a[..i] + ([a[i]] + a[i + 1..]);
    FilterConcat(a[..i], [a[i]] + a[i + 1..], p);
    FilterConcat([a[i]], a[i + 1..], p);
    assert Filter([a[i]], p) == [a[i]];
    var k := ScheduledCount(a[..i]);
    assert Filter(a, p)[k] == a[i];
  }

  /** When the list has fewer than three scheduled appointments the excerpt
      holds every one of them. */
  lemma FewScheduledAllShown(appointments: seq<Appointment>)
    requires ScheduledCount(appointments) < UpcomingLimit
    ensures Upcoming(appointments) == Filter(appointments, IsScheduledAppointment())
  {
  }

  /** An excerpt the screen can show: at most three entries, each of them
      scheduled. */
  predicate WellFormedExcerpt(excerpt: seq<Appointment>)
  {
    |excerpt| <= UpcomingLimit && forall k :: 0 <= k < |excerpt| ==> excerpt[k].status == Scheduled
  }

  class PatientHomeState {
    var upcomingAppointments: seq<Appointment>
    var loading: bool
    var refreshing: bool

    constructor ()
      ensures upcomingAppointments == [] && loading && !refreshing
      ensures WellFormedExcerpt(upcomingAppointments)
    {
      upcomingAppointments := [];
      loading := true;
      refreshing := false;
    }

    /** `loadUpcomingAppointments` once the request has resolved.
      `appointments` is the response's `appointments` field, `None` when it
      is missing: reading `.filter` on it then throws, the catch only logs,
      and the excerpt keeps its previous value. Both flags are cleared by
      the `finally` either way. */
    method LoadUpcoming(appointments: Option<seq<Appointment>>)
      requires WellFormedExcerpt(upcomingAppointments)
      modifies this`upcomingAppointments, this`loading, this`refreshing
      ensures appointments.Some? ==> upcomingAppointments == Upcoming(appointments.value)
      ensures appointments.None? ==> upcomingAppointments == old(upcomingAppointments)
      ensures WellFormedExcerpt(upcomingAppointments)
      ensures !loading && !refreshing
    {
      if appointments.Some? {
        UpcomingShape(appointments.value);
        upcomingAppointments := Upcoming(appointments.value);
      }
      loading := false;
      refreshing := false;
    }
  }

  /** `user?.credits || 0`. */
  function DisplayCredits(user: Option<User>): (c: int)
    ensures user.None? ==> c == 0
    ensures user.Some? ==> c == user.value.credits
  {
    if user.Some? then user.value.credits else 0
  }

  /** `user?.name || 'Patient'`: an absent user and an empty name both fall back. */
  function DisplayName(user: Option<User>): (n: string)
    ensures n != ""
    ensures user.Some? && user.value.name != "" ==> n == user.value.name
    ensures user.None? || user.value.name == "" ==> n == DefaultName
  {
    if user.Some? && user.value.name != "" then user.value.name else DefaultName
  }
}
