/** The `App` component of src/App.tsx as an object: its four state cells are fields, and each
    event handler the screens wire up is a method that replaces them. Every method is proved
    against BookingModel.Step, so the session-wide lemmas of BookingModel apply to it. */
module BookingApp {
  import opened BookingModel

  class App {
    var currentScreen: Screen
    var formData: Draft
    var selectedSlot: Option<Selection>
    var appointments: seq<Appointment>

    /** The four cells as one value. */
    function Snapshot(): State
      reads this
    {
      State(currentScreen, formData, selectedSlot, appointments)
    }

    /** The type is one of the three offered, the week one the select can hold, the slot is
        absent or the hard-coded one, and every recorded appointment is well formed. */
    predicate Valid()
      reads this
    {
      Invariant(Snapshot())
    }

    /** The initial values of the four `useState` cells. */
    constructor ()
      ensures Valid()
      ensures Snapshot() == Initial()
      ensures currentScreen == Home && selectedSlot == None && appointments == []
      ensures formData == Draft("", "Control regular", "", "")
    {
      currentScreen := Home;
      formData := Draft("", DefaultType, "", "");
      selectedSlot := None;
      appointments := [];
      InitialInvariant();
    }

    /** `handleNext` and the inline back buttons: only the screen changes, to one the current
        screen offers a button for. Starting a booking keeps the previous draft, and going back
        from the confirmation screen keeps the selected slot. */
    method HandleNext(next: Screen)
      requires Valid()
      requires IsNavigationEdge(currentScreen, next)
      modifies this
      ensures Valid()
      ensures Snapshot() == Step(old(Snapshot()), Navigate(next))
      ensures currentScreen == next
      ensures formData == old(formData) && selectedSlot == old(selectedSlot)
      ensures appointments == old(appointments)
    {
      currentScreen := next;
      StepPreservesInvariant(old(Snapshot()), Navigate(next));
    }

    /** The week select of the booking form: "" or the label of week 1 to 40. */
    method SetWeek(week: string)
      requires Valid()
      requires currentScreen == ScheduleStep1 && IsWeekValue(week)
      modifies this
      ensures Valid()
      ensures Snapshot() == Step(old(Snapshot()), BookingModel.SetWeek(week))
      ensures formData == old(formData).(week := week)
      ensures currentScreen == old(currentScreen) && selectedSlot == old(selectedSlot)
      ensures appointments == old(appointments)
    {
      formData := formData.(week := week);
      StepPreservesInvariant(old(Snapshot()), BookingModel.SetWeek(week));
    }

    /** The appointment-type radio cards: one of the three offered types. */
    method SetType(apptType: string)
      requires Valid()
      requires currentScreen == ScheduleStep1 && apptType in TypeOptions
      modifies this
      ensures Valid()
      ensures Snapshot() == Step(old(Snapshot()), BookingModel.SetType(apptType))
      ensures formData == old(formData).(apptType := apptType)
      ensures currentScreen == old(currentScreen) && selectedSlot == old(selectedSlot)
      ensures appointments == old(appointments)
    {
      formData := formData.(apptType := apptType);
      StepPreservesInvariant(old(Snapshot()), BookingModel.SetType(apptType));
    }

    /** The centre: free text on the booking form, or one of the three shortcuts on the
        availability screen. */
    method SetCenter(center: string)
      requires Valid()
      requires currentScreen == ScheduleStep1 || (currentScreen == Availability && center in CenterShortcuts)
      modifies this
      ensures Valid()
      ensures Snapshot() == Step(old(Snapshot()), BookingModel.SetCenter(center))
      ensures formData == old(formData).(center := center)
      ensures currentScreen == old(currentScreen) && selectedSlot == old(selectedSlot)
      ensures appointments == old(appointments)
    {
      formData := formData.(center := center);
      StepPreservesInvariant(old(Snapshot()), BookingModel.SetCenter(center));
    }

    /** The date input of the booking form: whatever text the browser supplies. */
    method SetDate(date: string)
      requires Valid()
      requires currentScreen == ScheduleStep1
      modifies this
      ensures Valid()
      ensures Snapshot() == Step(old(Snapshot()), BookingModel.SetDate(date))
      ensures formData == old(formData).(date := date)
      ensures currentScreen == old(currentScreen) && selectedSlot == old(selectedSlot)
      ensures appointments == old(appointments)
    {
      formData := formData.(date := date);
      StepPreservesInvariant(old(Snapshot()), BookingModel.SetDate(date));
    }

    /** "Confirmar elección": fixes the hard-coded slot (with the draft's centre, or the
        default one) and moves to the confirmation screen. */
    method ConfirmChoice()
      requires Valid()
      requires currentScreen == Availability
      modifies this
      ensures Valid()
      ensures Snapshot() == Step(old(Snapshot()), BookingModel.ConfirmChoice)
      ensures selectedSlot == Some(Selection("25 de Enero", "16:00 PM", "Garay, P.",
                                             if formData.center != "" then formData.center
                                             else "Hospital Rebagliati"))
      ensures currentScreen == Confirmation
      ensures formData == old(formData) && appointments == old(appointments)
    {
      selectedSlot := Some(Selection(DefaultDate, DefaultTime, DefaultDoctor,
                                     OrElse(formData.center, DefaultCenter)));
      currentScreen := Confirmation;
      StepPreservesInvariant(old(Snapshot()), BookingModel.ConfirmChoice);
    }

    /** `confirmAppointment`: appends one appointment, built from the draft and the slot with
        the fallback defaults, after all earlier ones, and shows the confirmed screen. The id
        the source draws at random is a parameter; when it is new, ids stay unique. */
    method ConfirmAppointment(id: string)
      requires Valid()
      requires currentScreen == Confirmation
      modifies this
      ensures Valid()
      ensures Snapshot() == Step(old(Snapshot()), BookingModel.ConfirmAppointment(id))
      ensures appointments == old(appointments) + [BuildAppointment(id, formData, selectedSlot)]
      ensures currentScreen == Confirmed
      ensures formData == old(formData) && selectedSlot == old(selectedSlot)
      ensures IdsDistinct(old(appointments)) && id !in IdSet(old(appointments)) ==> IdsDistinct(appointments)
      // the slot fixed on the availability screen is always there: no no-slot fallback is taken
      ensures selectedSlot.Some?
      ensures appointments[|old(appointments)|].center == FirstNonEmpty([formData.center, DefaultCenter])
    {
      var newApp := BuildAppointment(id, formData, selectedSlot);
      appointments := appointments + [newApp];
      currentScreen := Confirmed;
      StepPreservesInvariant(old(Snapshot()), BookingModel.ConfirmAppointment(id));
      StepIds(old(Snapshot()), BookingModel.ConfirmAppointment(id));
      ConfirmedBookingUsesChosenSlot(old(Snapshot()), id);
    }
  }

  /** A complete booking: start, week 12, type "Ecografía", search, confirm the choice,
      confirm the appointment. The list then holds that one appointment, on the hard-coded slot. */
  method BookingScenario() returns (booked: seq<Appointment>)
    ensures |booked| == 1
    ensures booked[0].week == "12" && booked[0].apptType == "Ecografía"
    ensures booked[0].date == "25 de Enero" && booked[0].time == "16:00 PM"
    ensures booked[0].doctor == "Garay, P." && booked[0].center == "Hospital Rebagliati"
  {
    var app := new App();
    app.HandleNext(ScheduleStep1);
    DefaultWeekIsWeekNumber();
    app.SetWeek("12");
    app.SetType("Ecografía");
    app.HandleNext(Availability);
    app.ConfirmChoice();
    app.ConfirmAppointment("a1");
    booked := app.appointments;
  }
}
