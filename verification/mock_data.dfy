/** The availability provider of the booking flow (src/services/mockData.ts).
    It answers every query with the same two demonstration slots. */
module MockData {

  /** One bookable slot: a date, a time, a doctor and a health centre, numbered within one answer. */
  datatype Slot = Slot(id: nat, date: string, time: string, doctor: string, center: string)

  /** The availability query. The arguments are accepted and ignored; the promise the
      source wraps the list in is dropped and the list itself is returned. */
  function GetMockAvailability(week: string, apptType: string): (slots: seq<Slot>)
    ensures |slots| == 2
    // slots are numbered 1, 2, ... in order, so ids are distinct within one answer
    ensures forall i :: 0 <= i < |slots| ==> slots[i].id == i + 1
    ensures forall i :: 0 <= i < |slots| ==>
              slots[i].date != "" && slots[i].time != "" && slots[i].doctor != "" && slots[i].center != ""
  {
    [ Slot(1, "25 de Enero", "16:00 PM", "Garay, P.", "Hospital Rebagliati"),
      Slot(2, "26 de Enero", "09:00 AM", "Mendoza, L.", "Hospital Almenara") ]
  }

  /** Two slots of one answer never share an id. */
  lemma SlotIdsDistinct(week: string, apptType: string, i: nat, j: nat)
    requires i < j < |GetMockAvailability(week, apptType)|
    ensures GetMockAvailability(week, apptType)[i].id != GetMockAvailability(week, apptType)[j].id
  {
  }

  /** The answer depends neither on the week nor on the appointment type asked for. */
  lemma AvailabilityIgnoresQuery(week1: string, type1: string, week2: string, type2: string)
    ensures GetMockAvailability(week1, type1) == GetMockAvailability(week2, type2)
  {
  }

  /** The second slot: 26 January at 09:00 with Mendoza, L. at Hospital Almenara. */
  lemma SecondMockSlot(week: string, apptType: string)
    ensures var s := GetMockAvailability(week, apptType)[1];
            s.date == "26 de Enero" && s.time == "09:00 AM" &&
            s.doctor == "Mendoza, L." && s.center == "Hospital Almenara"
  {
  }
}
