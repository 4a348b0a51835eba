/** The client-side application store (src/store/useAppStore.ts): one
    mutable record whose actions each replace some of its fields. The new
    appointment lists are computed purely (spread, `map`, `filter`); those
    computations are the functions below, and the store's methods assign
    their results. */
module Store {
  import opened Types
  import opened Seqs

  const HomeTab: string := "Home"

  /** `Partial<Appointment>`: a present field (`Some`) overrides, an absent
      one (`None`) keeps the appointment's own value. */
  datatype AppointmentUpdate = AppointmentUpdate(
    id: Option<string>,
    patientId: Option<string>,
    doctorId: Option<string>,
    startTime: Option<Instant>,
    endTime: Option<Instant>,
    status: Option<Status>,
    notes: Option<string>,
    patientDescription: Option<string>,
    videoSessionId: Option<string>,
    videoSessionToken: Option<string>,
    createdAt: Option<string>,
    updatedAt: Option<string>)

  /** The update that carries no field at all (`{}`). */
  const NoChanges: AppointmentUpdate :=
    AppointmentUpdate(None, None, None, None, None, None, None, None, None, None, None, None)

  function Over<T>(u: Option<T>, v: T): T
  {
    if u.Some? then u.value else v
  }

  function OverOptional<T>(u: Option<T>, v: Option<T>): Option<T>
  {
    if u.Some? then u else v
  }

  /** `{ ...a, ...u }`: the fields present in `u` win. */
  function Merge(a: Appointment, u: AppointmentUpdate): Appointment
  {
    Appointment(
      Over(u.id, a.id),
      Over(u.patientId, a.patientId),
      Over(u.doctorId, a.doctorId),
      Over(u.startTime, a.startTime),
      Over(u.endTime, a.endTime),
      Over(u.status, a.status),
      OverOptional(u.notes, a.notes),
      OverOptional(u.patientDescription, a.patientDescription),
      OverOptional(u.videoSessionId, a.videoSessionId),
      OverOptional(u.videoSessionToken, a.videoSessionToken),
      Over(u.createdAt, a.createdAt),
      Over(u.updatedAt, a.updatedAt))
  }

  /** `{ ...u, ...v }`: two partial updates combined, `v` winning. */
  function Then(u: AppointmentUpdate, v: AppointmentUpdate): AppointmentUpdate
  {
    AppointmentUpdate(
      OverOptional(v.id, u.id),
      OverOptional(v.patientId, u.patientId),
      OverOptional(v.doctorId, u.doctorId),
      OverOptional(v.startTime, u.startTime),
      OverOptional(v.endTime, u.endTime),
      OverOptional(v.status, u.status),
      OverOptional(v.notes, u.notes),
      OverOptional(v.patientDescription, u.patientDescription),
      OverOptional(v.videoSessionId, u.videoSessionId),
      OverOptional(v.videoSessionToken, u.videoSessionToken),
      OverOptional(v.createdAt, u.createdAt),
      OverOptional(v.updatedAt, u.updatedAt))
  }

  /** Merging the empty update changes nothing; merging an update twice is
      merging it once; merging `u` then `v` is merging their combination. */
  lemma MergeLaws(a: Appointment, u: AppointmentUpdate, v: AppointmentUpdate)
    ensures Merge(a, NoChanges) == a
    ensures Merge(Merge(a, u), u) == Merge(a, u)
    ensures Merge(Merge(a, u), v) == Merge(a, Then(u, v))
  {
  }

  /** `appointments.map(apt => apt.id === id ? { ...apt, ...u } : apt)`. */
  function UpdateById(s: seq<Appointment>, id: string, u: AppointmentUpdate): (r: seq<Appointment>)
    ensures |r| == |s|
  {
    seq(|s|, i requires 0 <= i < |s| => if s[i].id == id then Merge(s[i], u) else s[i])
  }

  function NotId(id: string): Appointment -> bool
  {
    (a: Appointment) => a.id != id
  }

  /** `appointments.filter(apt => apt.id !== id)`. */
  function RemoveById(s: seq<Appointment>, id: string): seq<Appointment>
  {
    Filter(s, NotId(id))
  }

  ghost predicate HasId(s: seq<Appointment>, id: string)
  {
    exists i :: 0 <= i < |s| && s[i].id == id
  }

  /** Update-by-id merges into exactly the entries carrying `id` and leaves
      every other entry, the length and the order as they were. */
  lemma UpdateByIdEffect(s: seq<Appointment>, id: string, u: AppointmentUpdate, i: int)
    requires 0 <= i < |s|
    ensures s[i].id == id ==> UpdateById(s, id, u)[i] == Merge(s[i], u)
    ensures s[i].id != id ==> UpdateById(s, id, u)[i] == s[i]
  {
  }

  /** Updating an id that no entry carries leaves the list as it was. */
  lemma UpdateAbsentId(s: seq<Appointment>, id: string, u: AppointmentUpdate)
    requires !HasId(s, id)
    ensures UpdateById(s, id, u) == s
  {
  }

  /** An update that does not rename entries keeps the ids where they were. */
  lemma UpdateKeepsIds(s: seq<Appointment>, id: string, u: AppointmentUpdate, i: int)
    requires u.id.None? || u.id == Some(id)
    requires 0 <= i < |s|
    ensures UpdateById(s, id, u)[i].id == s[i].id
  {
  }

  /** No entry carrying `id` survives its removal, and every other entry does. */
  lemma RemoveByIdEffect(s: seq<Appointment>, id: string)
    ensures !HasId(RemoveById(s, id), id)
    ensures forall i :: 0 <= i < |s| && s[i].id != id ==> s[i] in RemoveById(s, id)
  {
    var r := RemoveById(s, id);
    forall i | 0 <= i < |r|
      ensures r[i].id != id
    {
      assert NotId(id)(r[i]);
    }
  }

  /** Removal is the order-preserving sub-list of the entries not carrying
      `id`, each kept as often as it occurred. */
  lemma RemoveByIdIsFilter(s: seq<Appointment>, id: string, a: Appointment)
    ensures SubseqOf(RemoveById(s, id), s)
    ensures multiset(RemoveById(s, id))[a] == if a.id == id then 0 else multiset(s)[a]
  {
    FilterIsSubseq(s, NotId(id));
    FilterCount(s, NotId(id), a);
  }

  /** Removing twice is removing once; removing an absent id changes nothing. */
  lemma RemoveByIdIdempotent(s: seq<Appointment>, id: string)
    ensures RemoveById(RemoveById(s, id), id) == RemoveById(s, id)
    ensures !HasId(s, id) ==> RemoveById(s, id) == s
  {
    FilterIdempotent(s, NotId(id));
    if !HasId(s, id) {
      forall i | 0 <= i < |s| ensures NotId(id)(s[i]) {
      }
      FilterAll(s, NotId(id));
    }
  }

  /** Removing after an update of the same id is removing from the original:
      the merged entries are exactly the ones removed. */
  lemma {:induction false} RemoveAfterUpdate(s: seq<Appointment>, id: string, u: AppointmentUpdate)
    requires u.id.None? || u.id == Some(id)
    ensures RemoveById(UpdateById(s, id, u), id) == RemoveById(s, id)
  {
    if s != [] {
      RemoveAfterUpdate(s[1..], id, u);
      assert UpdateById(s, id, u)[1..] == UpdateById(s[1..], id, u);
    }
  }

  /** Removing the id of an appended entry undoes the append, on a list that
      did not carry that id. */
  lemma RemoveUndoesAdd(s: seq<Appointment>, a: Appointment)
    requires !HasId(s, a.id)
    ensures RemoveById(s + [a], a.id) == s
  {
    FilterConcat(s, [a], NotId(a.id));
    RemoveByIdIdempotent(s, a.id);
    assert Filter([a], NotId(a.id)) == [];
  }

  /** The zustand store. Every action replaces only the fields it names;
      each method's frame (`modifies this`f`) lists exactly those fields. */
  class AppStore {
    var user: Option<User>
    var isAuthenticated: bool
    var isLoading: bool
    var appointments: seq<Appointment>
    var doctors: seq<Doctor>
    var activeTab: string

    /** The initial state. */
    constructor ()
      ensures user == None && !isAuthenticated && !isLoading
      ensures appointments == [] && doctors == [] && activeTab == HomeTab
    {
      user := None;
      isAuthenticated := false;
      isLoading := false;
      appointments := [];
      doctors := [];
      activeTab := HomeTab;
    }

    method SetUser(u: Option<User>)
      modifies this`user
      ensures user == u
    {
      user := u;
    }

    method SetAuthenticated(b: bool)
      modifies this`isAuthenticated
      ensures isAuthenticated == b
    {
      isAuthenticated := b;
    }

    method SetLoading(b: bool)
      modifies this`isLoading
      ensures isLoading == b
    {
      isLoading := b;
    }

    method SetAppointments(s: seq<Appointment>)
      modifies this`appointments
      ensures appointments == s
    {
      appointments := s;
    }

    method SetDoctors(s: seq<Doctor>)
      modifies this`doctors
      ensures doctors == s
    {
      doctors := s;
    }

    method SetActiveTab(tab: string)
      modifies this`activeTab
      ensures activeTab == tab
    {
      activeTab := tab;
    }

    /** Appends; the earlier entries stay as they were, in order. */
    method AddAppointment(a: Appointment)
      modifies this`appointments
      ensures appointments == old(appointments) + [a]
      ensures |appointments| == |old(appointments)| + 1
    {
      appointments := appointments + [a];
    }

    method UpdateAppointment(id: string, u: AppointmentUpdate)
      modifies this`appointments
      ensures appointments == UpdateById(old(appointments), id, u)
      ensures !HasId(old(appointments), id) ==> appointments == old(appointments)
    {
      if !HasId(appointments, id) {
        UpdateAbsentId(appointments, id, u);
      }
      appointments := UpdateById(appointments, id, u);
    }

    method RemoveAppointment(id: string)
      modifies this`appointments
      ensures appointments == RemoveById(old(appointments), id)
      ensures !HasId(appointments, id)
    {
      RemoveByIdEffect(appointments, id);
      appointments := RemoveById(appointments, id);
    }

    /** Back to the initial state, except that `isLoading` is kept. */
    method Logout()
      modifies this`user, this`isAuthenticated, this`appointments, this`doctors, this`activeTab
      ensures user == None && !isAuthenticated
      ensures appointments == [] && doctors == [] && activeTab == HomeTab
    {
      user := None;
      isAuthenticated := false;
      appointments := [];
      doctors := [];
      activeTab := HomeTab;
    }
  }
}
