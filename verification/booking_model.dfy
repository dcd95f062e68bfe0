/** The booking flow of the prenatal-appointment app (the state of the `App` component in
    src/App.tsx) as values: the screens, the draft, the chosen slot, the appointment list,
    the events the screens' buttons and fields deliver, and the function that applies one. */
module BookingModel {
  import MockData

  datatype Option<T> = None | Some(value: T)

  /** The six screens of the flow. */
  datatype Screen = Home | ScheduleStep1 | Availability | Confirmation | Confirmed | MyAppointments

  /** The booking form being filled in: week, appointment type, health centre and tentative date. */
  datatype Draft = Draft(week: string, apptType: string, center: string, date: string)

  /** The slot fixed by "Confirmar elección" (it carries no id, unlike an availability slot). */
  datatype Selection = Selection(date: string, time: string, doctor: string, center: string)

  /** A confirmed appointment, as kept in the session's list. */
  datatype Appointment = Appointment(id: string, week: string, apptType: string, center: string,
                                     date: string, time: string, doctor: string)

  /** The four state cells of the component. */
  datatype State = State(screen: Screen, draft: Draft, selected: Option<Selection>,
                         appointments: seq<Appointment>)

  /** What the user can do: follow a navigation button, fill one form field,
      confirm the choice of a slot, or confirm the appointment (with the id it receives). */
  datatype Event =
    | Navigate(next: Screen)
    | SetWeek(week: string)
    | SetType(apptType: string)
    | SetCenter(center: string)
    | SetDate(date: string)
    | ConfirmChoice
    | ConfirmAppointment(id: string)

  // ----- Constants of the source -----

  /** The three appointment types offered by the form, in the order shown. */
  const TypeOptions: seq<string> := ["Control regular", "Alto riesgo", "Ecografía"]

  /** The three centre shortcuts listed on the availability screen. */
  const CenterShortcuts: seq<string> := ["Milagros", "R Castilla", "Grau"]

  /** Fallbacks used when an appointment is built from missing data. */
  const DefaultWeek: string := "12"
  const DefaultType: string := "Control regular"
  const DefaultCenter: string := "Hospital Rebagliati"
  const DefaultDate: string := "25 de Enero"
  const DefaultTime: string := "16:00 PM"
  const DefaultDoctor: string := "Garay, P."

  /** The state the component starts in. */
  function Initial(): (s: State)
    ensures s.screen == Home && s.selected == None && s.appointments == []
    ensures s.draft.apptType == TypeOptions[0]
    ensures s.draft.week == "" && s.draft.center == "" && s.draft.date == ""
  {
    State(Home, Draft("", DefaultType, "", ""), None, [])
  }

  // ----- Week labels -----

  /** The decimal spelling of n, as a number becomes the value of a select option. */
  function DecimalString(n: nat): (r: string)
    ensures |r| > 0
    ensures forall i :: 0 <= i < |r| ==> '0' <= r[i] <= '9'
    ensures r[0] == '0' ==> n == 0
  {
    if n < 10 then [Digit(n)] else DecimalString(n / 10) + [Digit(n % 10)]
  }

  function Digit(d: nat): (c: char)
    requires d < 10
    ensures '0' <= c <= '9'
  {
    ['0', '1', '2', '3', '4', '5', '6', '7', '8', '9'][d]
  }

  /** Reads a string of decimal digits back as a number; the inverse of DecimalString. */
  function ParseDecimal(s: string): nat
  {
    if s == [] then 0
    else
      var c := s[|s| - 1];
      ParseDecimal(s[..|s| - 1]) * 10 + (if '0' <= c <= '9' then (c as int) - ('0' as int) else 0)
  }

  lemma {:induction false} ParseDecimalString(n: nat)
    ensures ParseDecimal(DecimalString(n)) == n
  {
    var r := DecimalString(n);
    if n < 10 {
      assert r[..|r| - 1] == [];
      assert (Digit(n) as int) - ('0' as int) == n;
    } else {
      var d := DecimalString(n / 10);
      assert r[..|r| - 1] == d;
      assert (Digit(n % 10) as int) - ('0' as int) == n % 10;
      ParseDecimalString(n / 10);
    }
  }

  /** Two different week numbers never share a label. */
  lemma DecimalStringInjective(m: nat, n: nat)
    requires DecimalString(m) == DecimalString(n)
    ensures m == n
  {
    ParseDecimalString(m);
    ParseDecimalString(n);
  }

  /** The label of one of the forty selectable pregnancy weeks. */
  predicate IsWeekNumber(w: string)
  {
    exists n :: 1 <= n <= 40 && w == DecimalString(n)
  }

  /** A value the week select can hold: its placeholder "" or a week label. */
  predicate IsWeekValue(w: string)
  {
    w == "" || IsWeekNumber(w)
  }

  lemma DefaultWeekIsWeekNumber()
    ensures IsWeekNumber(DefaultWeek)
  {
    assert DecimalString(12) == DefaultWeek;
  }

  // ----- Building an appointment -----

  /** JavaScript's `a || b || ...` on strings: the first non-empty candidate, or "" if none. */
  function FirstNonEmpty(candidates: seq<string>): (r: string)
    ensures r == "" <==> forall i :: 0 <= i < |candidates| ==> candidates[i] == ""
    ensures r != "" ==> exists i :: 0 <= i < |candidates| && candidates[i] == r &&
                                    forall j :: 0 <= j < i ==> candidates[j] == ""
  {
    if candidates == [] then ""
    else if candidates[0] != "" then candidates[0]
    else
      var r := FirstNonEmpty(candidates[1..]);
      assert forall i :: 1 <= i < |candidates| ==> candidates[i] == candidates[1..][i - 1];
      r
  }

  /** Peeling one candidate off a fallback chain is one `||`. */
  lemma FirstNonEmptyCons(head: string, rest: seq<string>)
    ensures FirstNonEmpty([head] + rest) == OrElse(head, FirstNonEmpty(rest))
  {
    assert ([head] + rest)[1..] == rest;
  }

  /** `a || b` on strings. */
  function OrElse(a: string, b: string): string
  {
    if a != "" then a else b
  }

  /** `selectedSlot?.field`: absent when no slot is selected, which reads as "". */
  function SlotDate(sel: Option<Selection>): string { if sel.Some? then sel.value.date else "" }
  function SlotTime(sel: Option<Selection>): string { if sel.Some? then sel.value.time else "" }
  function SlotDoctor(sel: Option<Selection>): string { if sel.Some? then sel.value.doctor else "" }
  function SlotCenter(sel: Option<Selection>): string { if sel.Some? then sel.value.center else "" }

  /** The appointment `confirmAppointment` records: each field is the first non-empty value in
      its fallback chain (slot, then draft, then a fixed default). */
  function BuildAppointment(id: string, d: Draft, sel: Option<Selection>): (a: Appointment)
    ensures a.id == id
    ensures a.week == FirstNonEmpty([d.week, DefaultWeek])
    ensures a.apptType == FirstNonEmpty([d.apptType, DefaultType])
    ensures a.center == FirstNonEmpty([SlotCenter(sel), d.center, DefaultCenter])
    ensures a.date == FirstNonEmpty([SlotDate(sel), DefaultDate])
    ensures a.time == FirstNonEmpty([SlotTime(sel), DefaultTime])
    ensures a.doctor == FirstNonEmpty([SlotDoctor(sel), DefaultDoctor])
  {
    FirstNonEmptyCons(SlotCenter(sel), [d.center, DefaultCenter]);
    FirstNonEmptyCons(d.center, [DefaultCenter]);
    Appointment(id,
                OrElse(d.week, DefaultWeek),
                OrElse(d.apptType, DefaultType),
                OrElse(SlotCenter(sel), OrElse(d.center, DefaultCenter)),
                OrElse(SlotDate(sel), DefaultDate),
                OrElse(SlotTime(sel), DefaultTime),
                OrElse(SlotDoctor(sel), DefaultDoctor))
  }

  /** No field of a built appointment is ever empty, whatever is missing from draft and slot. */
  lemma BuildAppointmentComplete(id: string, d: Draft, sel: Option<Selection>)
    ensures var a := BuildAppointment(id, d, sel);
            a.week != "" && a.apptType != "" && a.center != "" &&
            a.date != "" && a.time != "" && a.doctor != ""
  {
  }

  /** The fixed defaults are exactly the first slot the availability provider offers. */
  lemma DefaultsAreFirstMockSlot(week: string, apptType: string)
    ensures var s := MockData.GetMockAvailability(week, apptType)[0];
            s.date == DefaultDate && s.time == DefaultTime &&
            s.doctor == DefaultDoctor && s.center == DefaultCenter
  {
  }

  /** The slot "Confirmar elección" fixes: always the same date, time and doctor; the draft's
      centre, or the default one if the draft has none. */
  function ChosenSlot(d: Draft): (sel: Selection)
    ensures sel.date == DefaultDate && sel.time == DefaultTime && sel.doctor == DefaultDoctor
    ensures sel.center == FirstNonEmpty([d.center, DefaultCenter])
  {
    Selection(DefaultDate, DefaultTime, DefaultDoctor, OrElse(d.center, DefaultCenter))
  }

  // ----- Transitions -----

  /** The navigation buttons: back arrows, "AGENDAR NUEVA CITA", "BUSCAR DISPONIBILIDAD", ... */
  predicate IsNavigationEdge(from: Screen, to: Screen)
  {
    match from
    case Home => to == ScheduleStep1 || to == MyAppointments
    case ScheduleStep1 => to == Home || to == Availability
    case Availability => to == ScheduleStep1
    case Confirmation => to == Availability || to == ScheduleStep1
    case Confirmed => to == Home
    case MyAppointments => to == Home || to == ScheduleStep1
  }

  /** Whether the current screen shows the control that delivers the event, with a value
      that control can produce. */
  predicate Enabled(screen: Screen, e: Event)
  {
    match e
    case Navigate(next) => IsNavigationEdge(screen, next)
    case SetWeek(w) => screen == ScheduleStep1 && IsWeekValue(w)
    case SetType(t) => screen == ScheduleStep1 && t in TypeOptions
    case SetCenter(c) => screen == ScheduleStep1 || (screen == Availability && c in CenterShortcuts)
    case SetDate(_) => screen == ScheduleStep1
    case ConfirmChoice => screen == Availability
    case ConfirmAppointment(_) => screen == Confirmation
  }

  /** The effect of one event. An event whose control is not on the current screen cannot
      happen, and leaves the state as it is. */
  function Step(s: State, e: Event): (t: State)
    // the list only grows, by at most one appointment, at its end
    ensures s.appointments <= t.appointments
    ensures |t.appointments| <= |s.appointments| + 1
    // the list grows exactly when an appointment is confirmed, and the screen then says so
    ensures |t.appointments| == |s.appointments| + 1 <==> e.ConfirmAppointment? && s.screen == Confirmation
    ensures |t.appointments| == |s.appointments| + 1 ==> t.screen == Confirmed
  {
    if !Enabled(s.screen, e) then s
    else
      match e
      case Navigate(next) => s.(screen := next)
      case SetWeek(w) => s.(draft := s.draft.(week := w))
      case SetType(ty) => s.(draft := s.draft.(apptType := ty))
      case SetCenter(c) => s.(draft := s.draft.(center := c))
      case SetDate(dt) => s.(draft := s.draft.(date := dt))
      case ConfirmChoice => s.(selected := Some(ChosenSlot(s.draft)), screen := Confirmation)
      case ConfirmAppointment(id) =>
        s.(appointments := s.appointments + [BuildAppointment(id, s.draft, s.selected)],
           screen := Confirmed)
  }

  /** The effect of a sequence of events, one after the other. */
  function Run(s: State, evs: seq<Event>): State
    decreases |evs|
  {
    if evs == [] then s else Run(Step(s, evs[0]), evs[1..])
  }

  // ----- Single-step properties -----

  /** Navigation only changes the screen: starting a booking keeps the old draft, and going back
      from the confirmation screen keeps the selected slot. */
  lemma NavigationChangesOnlyScreen(s: State, next: Screen)
    requires IsNavigationEdge(s.screen, next)
    ensures Step(s, Navigate(next)) == s.(screen := next)
  {
  }

  /** A navigation the current screen does not offer does nothing. */
  lemma NavigationOffScreenIgnored(s: State, next: Screen)
    requires !IsNavigationEdge(s.screen, next)
    ensures Step(s, Navigate(next)) == s
  {
  }

  /** Each field setter replaces its own field and nothing else. */
  lemma SettersChangeOnlyTheirField(s: State, e: Event)
    requires e.SetWeek? || e.SetType? || e.SetCenter? || e.SetDate?
    requires Enabled(s.screen, e)
    ensures var t := Step(s, e);
            t.screen == s.screen && t.selected == s.selected && t.appointments == s.appointments &&
            t.draft.week == (if e.SetWeek? then e.week else s.draft.week) &&
            t.draft.apptType == (if e.SetType? then e.apptType else s.draft.apptType) &&
            t.draft.center == (if e.SetCenter? then e.center else s.draft.center) &&
            t.draft.date == (if e.SetDate? then e.date else s.draft.date)
  {
  }

  /** Confirming the choice fixes the hard-coded slot and moves to the confirmation screen. */
  lemma ConfirmChoiceFixesSlot(s: State)
    requires s.screen == Availability
    ensures var t := Step(s, ConfirmChoice);
            t.screen == Confirmation && t.selected.Some? &&
            t.selected.value.date == DefaultDate && t.selected.value.time == DefaultTime &&
            t.selected.value.doctor == DefaultDoctor &&
            t.selected.value.center == (if s.draft.center != "" then s.draft.center else DefaultCenter) &&
            t.draft == s.draft && t.appointments == s.appointments
  {
  }

  /** Confirming the appointment appends exactly one record, built from the draft and the slot,
      keeps every earlier record in place and shows the confirmed screen. */
  lemma ConfirmAppointmentAppends(s: State, id: string)
    requires s.screen == Confirmation
    ensures var t := Step(s, ConfirmAppointment(id));
            |t.appointments| == |s.appointments| + 1 &&
            t.appointments[..|s.appointments|] == s.appointments &&
            t.appointments[|s.appointments|] == BuildAppointment(id, s.draft, s.selected) &&
            t.screen == Confirmed && t.draft == s.draft && t.selected == s.selected
  {
  }

  // ----- The invariant of every reachable state -----

  predicate DraftValid(d: Draft)
  {
    d.apptType in TypeOptions && IsWeekValue(d.week)
  }

  /** No slot yet, or the hard-coded one with some centre. */
  predicate SelectionValid(sel: Option<Selection>)
  {
    sel.Some? ==>
      sel.value.date == DefaultDate && sel.value.time == DefaultTime &&
      sel.value.doctor == DefaultDoctor && sel.value.center != ""
  }

  /** A recorded appointment: one of the three types, a real week label, the hard-coded
      date, time and doctor, and some centre. */
  predicate AppointmentValid(a: Appointment)
  {
    a.apptType in TypeOptions && IsWeekNumber(a.week) &&
    a.date == DefaultDate && a.time == DefaultTime && a.doctor == DefaultDoctor && a.center != ""
  }

  /** The confirmation screen is only reached through "Confirmar elección", so there the slot
      is always the one fixed from the current draft. */
  predicate SlotFixedOnConfirmation(s: State)
  {
    s.screen == Confirmation ==> s.selected == Some(ChosenSlot(s.draft))
  }

  predicate Invariant(s: State)
  {
    DraftValid(s.draft) && SelectionValid(s.selected) && SlotFixedOnConfirmation(s) &&
    forall i :: 0 <= i < |s.appointments| ==> AppointmentValid(s.appointments[i])
  }

  /** In a state that keeps the invariant, confirming uses the fixed slot: none of the no-slot
      fallbacks of `confirmAppointment` is taken, and the recorded centre is the draft's centre,
      else the default one. */
  lemma ConfirmedBookingUsesChosenSlot(s: State, id: string)
    requires Invariant(s) && s.screen == Confirmation
    ensures s.selected.Some?
    ensures var a := Step(s, ConfirmAppointment(id)).appointments[|s.appointments|];
            a.date == s.selected.value.date && a.time == s.selected.value.time &&
            a.doctor == s.selected.value.doctor && a.center == s.selected.value.center &&
            a.center == FirstNonEmpty([s.draft.center, DefaultCenter])
  {
    var a := Step(s, ConfirmAppointment(id)).appointments[|s.appointments|];
    assert a == BuildAppointment(id, s.draft, s.selected);
    FirstNonEmptyCons(s.selected.value.center, [s.draft.center, DefaultCenter]);
  }

  lemma InitialInvariant()
    ensures Invariant(Initial())
  {
  }

  lemma BuildAppointmentValid(id: string, d: Draft, sel: Option<Selection>)
    requires DraftValid(d) && SelectionValid(sel)
    ensures AppointmentValid(BuildAppointment(id, d, sel))
  {
    DefaultWeekIsWeekNumber();
  }

  lemma StepPreservesInvariant(s: State, e: Event)
    requires Invariant(s)
    ensures Invariant(Step(s, e))
  {
    if Enabled(s.screen, e) && e.ConfirmAppointment? {
      BuildAppointmentValid(e.id, s.draft, s.selected);
    }
  }

  lemma {:induction false} RunPreservesInvariant(s: State, evs: seq<Event>)
    requires Invariant(s)
    ensures Invariant(Run(s, evs))
    decreases |evs|
  {
    if evs != [] {
      StepPreservesInvariant(s, evs[0]);
      RunPreservesInvariant(Step(s, evs[0]), evs[1..]);
    }
  }

  /** Whatever the user does, the draft's type stays one of the three offered types, the
      confirmation screen always shows the slot fixed from the draft, and every
      appointment ever recorded has one of those types, a week from 1 to 40 and the hard-coded
      date "25 de Enero", time "16:00 PM" and doctor "Garay, P.". */
  lemma {:induction false} ReachableStatesValid(evs: seq<Event>)
    ensures var t := Run(Initial(), evs);
            t.draft.apptType in TypeOptions && IsWeekValue(t.draft.week) &&
            (t.screen == Confirmation ==> t.selected == Some(ChosenSlot(t.draft))) &&
            forall i :: 0 <= i < |t.appointments| ==>
              t.appointments[i].apptType in TypeOptions && IsWeekNumber(t.appointments[i].week) &&
              t.appointments[i].date == "25 de Enero" && t.appointments[i].time == "16:00 PM" &&
              t.appointments[i].doctor == "Garay, P."
  {
    InitialInvariant();
    RunPreservesInvariant(Initial(), evs);
  }

  // ----- The list over a whole session -----

  /** The list is append-only: the appointments before any sequence of events are a prefix,
      in order, of those after it, and it grows by at most one per event. */
  lemma {:induction false} RunAppendOnly(s: State, evs: seq<Event>)
    ensures s.appointments <= Run(s, evs).appointments
    ensures |Run(s, evs).appointments| <= |s.appointments| + |evs|
    decreases |evs|
  {
    if evs != [] {
      RunAppendOnly(Step(s, evs[0]), evs[1..]);
    }
  }

  /** The ids the confirmation events of a sequence carry, in order. */
  function ConfirmIds(evs: seq<Event>): (ids: seq<string>)
    ensures |ids| <= |evs|
    decreases |evs|
  {
    if evs == [] then []
    else if evs[0].ConfirmAppointment? then [evs[0].id] + ConfirmIds(evs[1..])
    else ConfirmIds(evs[1..])
  }

  predicate IdsDistinct(apps: seq<Appointment>)
  {
    forall i, j :: 0 <= i < j < |apps| ==> apps[i].id != apps[j].id
  }

  predicate Distinct(ids: seq<string>)
  {
    forall i, j :: 0 <= i < j < |ids| ==> ids[i] != ids[j]
  }

  function IdSet(apps: seq<Appointment>): set<string>
  {
    set i | 0 <= i < |apps| :: apps[i].id
  }

  /** Every appointment a step adds carries the id of its confirmation event. */
  lemma StepIds(s: State, e: Event)
    ensures IdSet(Step(s, e).appointments) <= IdSet(s.appointments) + (if e.ConfirmAppointment? then {e.id} else {})
    ensures e.ConfirmAppointment? && e.id !in IdSet(s.appointments) && IdsDistinct(s.appointments) ==>
              IdsDistinct(Step(s, e).appointments)
  {
    var t := Step(s, e);
    if |t.appointments| == |s.appointments| + 1 {
      assert t.appointments == s.appointments + [BuildAppointment(e.id, s.draft, s.selected)];
    } else {
      assert t.appointments == s.appointments;
    }
  }

  /** Appointment ids stay unique over a session when every confirmation receives an id that is
      new: distinct from the others in the sequence and from those already recorded. */
  lemma {:induction false} RunKeepsIdsDistinct(s: State, evs: seq<Event>)
    requires IdsDistinct(s.appointments)
    requires Distinct(ConfirmIds(evs))
    requires forall i :: 0 <= i < |ConfirmIds(evs)| ==> ConfirmIds(evs)[i] !in IdSet(s.appointments)
    ensures IdsDistinct(Run(s, evs).appointments)
    decreases |evs|
  {
    if evs != [] {
      var e, rest := evs[0], evs[1..];
      var t := Step(s, e);
      StepIds(s, e);
      if e.ConfirmAppointment? {
        assert ConfirmIds(evs) == [e.id] + ConfirmIds(rest);
        assert e.id == ConfirmIds(evs)[0];
        assert forall i :: 0 <= i < |ConfirmIds(rest)| ==> ConfirmIds(rest)[i] == ConfirmIds(evs)[i + 1];
      } else {
        assert ConfirmIds(evs) == ConfirmIds(rest);
      }
      RunKeepsIdsDistinct(t, rest);
    }
  }
}
