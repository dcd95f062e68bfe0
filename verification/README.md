# Prenatal appointment booking flow, modelled in Dafny

The app lets a user book prenatal appointments on a phone-sized, single-page screen flow:
home → booking form (week, appointment type, health centre, tentative date) → availability →
confirmation → confirmed, plus a list of the user's appointments. All state lives in the `App`
component, in four cells:
- the current screen;
- the draft form;
- the selected slot, which may be absent;
- the session's list of appointments.

A separate availability provider returns a fixed list of two slots.

The project has three files:

- `mock_data.dfy`, module `MockData`: the availability provider `getMockAvailability`, as a
  pure function returning a sequence of slots.
- `booking_model.dfy`, module `BookingModel`: the pieces below, with the lemmas about them.
  - The state of `App` as values: screens, draft, selection, appointment and state.
  - The events the screens deliver.
  - `Step`, which applies one event, and `Run`, which applies a sequence of events.
  - How `confirmAppointment` builds an appointment with its fallback defaults.
  - The invariant every reachable state keeps, and the lemmas over whole sessions:
    - the appointment type stays in its closed set;
    - the list is append-only;
    - every booking is on the hard-coded slot;
    - ids stay unique when each confirmation gets a fresh id.
- `booking_app.dfy`, module `BookingApp`: class `App` holds the four state cells as fields.
  It has one method per event handler. Each method states its whole new state and is proved
  equal to `Step` on the old state, so the session lemmas hold for the object.

The model takes a handler to run only while its screen is the current one. The methods
therefore require the screen that shows the handler's button or field. In `Step`, an event
whose control is not on the current screen leaves the state unchanged. Clicks on a screen
that is still animating out are not covered; see "## Left out".

Behaviour a reader may not expect, which the model keeps:
- Starting a booking, from home or from the appointment list, keeps the previous draft. It
  does not reset the draft to its defaults (`HandleNext`, `NavigationChangesOnlyScreen`).
- "Regresar y cambiar datos" keeps the selected slot (`HandleNext`).
- The draft is not cleared after a confirmation (`ConfirmAppointment`).
- There is no generic "go back". Each screen has its own fixed back and forward buttons
  (`IsNavigationEdge`).
- "Confirmar elección" always fixes date "25 de Enero", time "16:00 PM" and doctor
  "Garay, P.". The centre is the draft's, else "Hospital Rebagliati". No listed slot is used
  (`ConfirmChoice`).
- Missing fields are filled with defaults at confirmation. They are never rejected.
- The confirmation screen is reached only through "Confirmar elección", so a slot is always
  fixed when an appointment is confirmed. The no-slot fallbacks of `confirmAppointment` for
  date, time, doctor and centre are never taken (`ConfirmedBookingUsesChosenSlot`).

## Model

| member | source | states |
|---|---|---|
| `MockData.GetMockAvailability` | src/services/mockData.ts:5-25 | the answer has exactly two slots, numbered 1 and 2 in order; no slot has an empty date, time, doctor or centre |
| `MockData.SlotIdsDistinct` | src/services/mockData.ts:11-18 | two slots of one answer have different ids |
| `MockData.AvailabilityIgnoresQuery` | src/services/mockData.ts:5-9 | the answer is the same for every week and appointment type |
| `MockData.SecondMockSlot` | src/services/mockData.ts:17-23 | the second slot is "26 de Enero" at "09:00 AM" with "Mendoza, L." at "Hospital Almenara" |
| `BookingModel.Initial` | src/App.tsx:61-69 | the session starts on home with draft `{week:"", type:"Control regular", center:"", date:""}`, no slot and no appointments |
| `BookingModel.DecimalString` | src/App.tsx:174-175 | a week number becomes a non-empty string of decimal digits, with no leading zero unless it is 0 |
| `BookingModel.ParseDecimalString` | src/App.tsx:174-175 | reading a week label back gives its number (round trip) |
| `BookingModel.DecimalStringInjective` | src/App.tsx:174-175 | two different weeks never share a label |
| `BookingModel.DefaultWeekIsWeekNumber` | src/App.tsx:82 | the fallback week "12" is the label of a week from 1 to 40 |
| `BookingModel.FirstNonEmpty` | src/App.tsx:82-87 | a chain of JavaScript logical-or on strings: the result is "" only when every candidate is; otherwise it is the first non-empty candidate |
| `BookingModel.FirstNonEmptyCons` | src/App.tsx:84 | one more logical-or in front of a chain puts one more candidate in front |
| `BookingModel.BuildAppointment` | src/App.tsx:80-88 | the recorded id is the given id. The week is the draft's, else "12". The type is the draft's, else "Control regular". The centre is the slot's, else the draft's, else "Hospital Rebagliati". The date, time and doctor are the slot's, else "25 de Enero", "16:00 PM" and "Garay, P." |
| `BookingModel.BuildAppointmentComplete` | src/App.tsx:80-88 | no field of a recorded appointment is empty, whatever the draft and the slot lack |
| `BookingModel.DefaultsAreFirstMockSlot` | src/App.tsx:84-87 | the fallback date, time, doctor and centre are those of the provider's first slot |
| `BookingModel.ChosenSlot` | src/App.tsx:330-335 | the slot fixed by "Confirmar elección" has date "25 de Enero", time "16:00 PM" and doctor "Garay, P."; its centre is the draft's, else "Hospital Rebagliati" |
| `BookingModel.Step` | src/App.tsx:75-91 | no event removes or reorders an appointment. At most one is added, at the end. One is added exactly when an appointment is confirmed on the confirmation screen, and the screen is then the confirmed one |
| `BookingModel.NavigationChangesOnlyScreen` | src/App.tsx:75-77 | a navigation button changes the screen and nothing else: draft, slot and list are kept |
| `BookingModel.NavigationOffScreenIgnored` | src/App.tsx:138-145 | a screen change that the current screen has no button for has no effect |
| `BookingModel.SettersChangeOnlyTheirField` | src/App.tsx:171-230 | each field setter replaces its own draft field. Other draft fields, screen, slot and list stay the same |
| `BookingModel.ConfirmChoiceFixesSlot` | src/App.tsx:329-336 | "Confirmar elección" moves to confirmation with the hard-coded slot and keeps draft and list |
| `BookingModel.ConfirmAppointmentAppends` | src/App.tsx:79-91 | confirming appends exactly the built appointment after the unchanged earlier ones. The screen becomes confirmed; draft and slot are kept |
| `BookingModel.ConfirmedBookingUsesChosenSlot` | src/App.tsx:79-91 | in any state that keeps the invariant, the confirmation screen has a slot. The confirmed appointment takes its date, time, doctor and centre from that slot. Its centre is the draft's, else "Hospital Rebagliati" |
| `BookingModel.InitialInvariant` | src/App.tsx:61-69 | the initial state satisfies the session invariant |
| `BookingModel.BuildAppointmentValid` | src/App.tsx:80-88 | from a valid draft and slot, the appointment has an offered type, a week label 1..40, the hard-coded date, time and doctor, and a centre |
| `BookingModel.StepPreservesInvariant` | src/App.tsx:170-336 | every event keeps the invariant. The type is one of the three offered. The week is "" or a label 1..40. The slot is absent or the hard-coded one. On the confirmation screen, the slot is the one fixed from the current draft. Every appointment is well formed |
| `BookingModel.RunPreservesInvariant` | src/App.tsx:170-336 | any sequence of events keeps the invariant |
| `BookingModel.ReachableStatesValid` | src/App.tsx:61-91 | after any session, the draft type is one of the three offered and the week is "" or a week label. The confirmation screen always holds the slot fixed from the draft. Every appointment has an offered type, a week from 1 to 40, date "25 de Enero", time "16:00 PM" and doctor "Garay, P." |
| `BookingModel.RunAppendOnly` | src/App.tsx:89 | over any sequence of events, the earlier list is a prefix, in order, of the later one. It grows by at most one per event |
| `BookingModel.StepIds` | src/App.tsx:79-89 | the only id a step can add is that of its confirmation. A new id keeps the ids distinct |
| `BookingModel.RunKeepsIdsDistinct` | src/App.tsx:81-89 | ids stay pairwise distinct over a session when the confirmation ids are distinct from each other and from those already recorded |
| `BookingApp.App.constructor` | src/App.tsx:61-69 | the four state cells start as in `Initial`, and the invariant holds |
| `BookingApp.App.HandleNext` | src/App.tsx:75-77 | on a navigation edge, only the screen changes: the draft is kept when a booking starts, the slot when going back from confirmation |
| `BookingApp.App.SetWeek` | src/App.tsx:168-176 | the week select replaces only the week, with "" or a label 1..40 |
| `BookingApp.App.SetType` | src/App.tsx:186-193 | a radio card replaces only the type, with one of the three offered types |
| `BookingApp.App.SetCenter` | src/App.tsx:213-219 | the centre text field, and the three shortcuts at lines 313-317 of the same file, replace only the centre |
| `BookingApp.App.SetDate` | src/App.tsx:227-231 | the date input replaces only the date, with any text |
| `BookingApp.App.ConfirmChoice` | src/App.tsx:329-336 | fixes the hard-coded slot with the draft's centre or the default one, and moves to confirmation; draft and list are kept |
| `BookingApp.App.ConfirmAppointment` | src/App.tsx:79-91 | the list becomes the old list plus the built appointment, the screen becomes confirmed, draft and slot are kept; a fresh id keeps ids distinct. A slot is always present, and the recorded centre is the draft's, else "Hospital Rebagliati" |
| `BookingApp.BookingScenario` | src/App.tsx:139-397 | start, week "12", type "Ecografía", search, confirm choice, confirm: exactly one appointment is recorded. It has week "12", type "Ecografía", date "25 de Enero", time "16:00 PM", doctor "Garay, P." and centre "Hospital Rebagliati" |

## Left out

- Rendering is left out because it is presentation only. This covers the `Header` component,
  animations, icons, images, CSS classes and the markup of every screen. The exception is the
  effect of exit animations on handlers, in the next line.
- BookingModel.Step and BookingModel.RunAppendOnly: clicks on a leaving screen's stale
  handlers are not modelled. `AnimatePresence mode="wait"` keeps a leaving screen mounted,
  with the handlers of its last render, until its exit animation ends. Under such clicks the
  source can drop an appointment: a second quick "CONFIRMAR CITA" replaces the just-added
  appointment instead of appending. It can also take a screen change with no edge in
  `IsNavigationEdge`: a second quick "VER MIS CITAS" moves from the booking form to the list.
- The date/time and doctor rows of the availability screen are left out because they are
  fixed markup with no handler. The centre shortcuts in its third row are modelled by
  `SetCenter`.
- The unused `centers` and `doctors` arrays are left out because nothing reads them.
- The buttons without handlers are left out because they have no behaviour: "Abrir mapa",
  "Añadir al calendario", "Reprogramar" and "Cancelar".
- The appointment id's random generation is left out. It is `Math.random` written in base 36 and cut
  to at most nine characters. It is fewer, even empty, when the base-36 expansion of the random
  number is short. The id is a parameter of `ConfirmAppointment` instead.
- BookingApp.App.ConfirmAppointment: does not promise unique ids by itself, because the
  source's random ids can collide, and short or empty ids make that likelier. Uniqueness is proved only for ids that are new
  (`RunKeepsIdsDistinct`).
- The module-level Gemini client in the provider's file is left out. It is a foreign network
  library that the function never uses.
- The promise that wraps the provider's result is left out. The model returns the list itself.
- Nothing in the `App` component calls the availability provider. The only link between
  them is `DefaultsAreFirstMockSlot`.
- Dates are left as text: the date input's value is whatever string the browser supplies.
- React's batching and re-rendering are left out. Each handler is treated as one atomic
  update of the state cells.
- BookingModel.Step: treats an event whose control is not on the current screen as a no-op.
  Apart from the stale handlers of a leaving screen described above, the source has no such
  event at all, because the control is not rendered.
