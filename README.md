# Trip-creation form of the Planner mobile app, in Dafny

This project models the trip-creation screen of the Planner mobile app (`mobile/src/app/index.tsx`).
The screen is a two-step form. On the trip-details step the user enters a destination and a date
range. On the add-e-mail step the user builds a guest list and confirms the trip. The confirmed trip
is then submitted to the trip service. When the screen mounts, it first looks for a trip id stored
on the device and opens that trip if the service still knows it.

The model has four modules:

- `Wrappers`: `Option`, which stands for a JavaScript value that may be `undefined` or `null`.
- `JsStrings`: JavaScript strings as sequences of UTF-16 code units. `.length` counts code units.
  `trim` removes the white space and line terminators that ECMAScript (ECMA-262) defines for
  String.prototype.trim. Truthiness of a string is also defined here.
- `GuestList`: the guest list. It has `find` with the screen's truthiness test on its result,
  `filter`, and a no-duplicates predicate, plus lemmas about them.
- `TripForm`: what the checks of the main button decide (`DetailsRejection`) and the outcome of the
  mount-time lookup (`LoadingOutcome`). It also holds the class `IndexScreen`. Its fields are the component's
  `useState` slots, and each handler is a method that starts from those fields.

Things the source does that the model keeps:

- The first check in `handleNextStepForm` trims the destination. The second check measures the
  untrimmed string. So three blanks followed by one letter pass both checks
  (`PaddedDestinationPasses`).
- The handler runs both checks before it looks at the step. So the second step repeats them.
- The duplicate check in `handleAddEmail` uses the value returned by `find` as a condition. An empty
  string already in the list is therefore not detected. If the e-mail validator accepted `""`, it
  could be added twice (`EmptyEmailPassesDuplicateTest`). The validator's rules are not part of
  the model. For that reason, keeping the list free of duplicates is proved for non-empty e-mails.
- When `createTrip` fails, it only writes a log line. It shows no alert. `isCreatingTrip` is
  `false` after every path.
- In `getTrip`, the lookup of a stored id can resolve to a falsy value without throwing. In that
  case `isGettingTrip` stays `true` and the screen keeps showing the loading indicator
  (`LoadingOutcome` gives `StillLoading`).
- The two navigation paths differ. `getTrip` navigates to `trip/<id>`. `saveTrip` navigates to
  `/trip/<id>`.

Outside effects are passed in as parameters, and what the screen does is recorded as events:

- The trip service, the local trip store and the answer to the confirmation prompt are parameters
  of the method that awaits them:
  - `CreateReply`: the create call returns a trip id, or throws.
  - `StorageRead`: the store's read returns a value that may be missing or empty, or throws.
  - `FetchReply`: the lookup returns a trip or nothing, or throws.
  - `stored`, a boolean of `SaveTrip`: the store's write succeeds or throws.
  - `Choice`: the prompt's answer is "Sim" or "Não".
- The e-mail validator and the calendar helper are function parameters. Their rules are not modelled.
- Alerts, create requests, writes of the trip id, navigation and log lines are appended to a ghost
  sequence `effects`, in the order the screen produces them.

## Model

| member | source | states |
|---|---|---|
| `JsStrings.TrimStart` | mobile/src/app/index.tsx:47 | the first half of `trim`: the result is a suffix of the input; everything dropped is white space; the result does not start with white space |
| `JsStrings.TrimEnd` | mobile/src/app/index.tsx:47 | the second half of `trim`: the result is a prefix of the input; everything dropped is white space; the result does not end with white space |
| `JsStrings.Trim` | mobile/src/app/index.tsx:47 | `destination.trim()`, which is `TrimEnd` applied after `TrimStart`; its length is 0 exactly when every code unit of the destination is white space |
| `GuestList.Find` | mobile/src/app/index.tsx:102-104 | `find` returns a value exactly when the candidate is in the list, and that value equals the candidate |
| `GuestList.AlreadyAdded` | mobile/src/app/index.tsx:102-108 | the duplicate test fires exactly when the candidate is in the list and is not the empty string |
| `GuestList.EmptyEmailPassesDuplicateTest` | mobile/src/app/index.tsx:102-110 | with `""` already in the list, the duplicate test lets `""` through, and appending it would repeat an entry |
| `GuestList.RemoveAll` | mobile/src/app/index.tsx:91-95 | the filtered list holds exactly the entries different from the target, with the same multiplicities, in their original order |
| `GuestList.RemoveAllKeepsNoDuplicates` | mobile/src/app/index.tsx:91-95 | removing a guest from a list without duplicates leaves a list without duplicates |
| `GuestList.RemoveAllDropsOnlyThatEntry` | mobile/src/app/index.tsx:91-95 | in a list without duplicates, removing the entry at position k yields the list with exactly that position cut out |
| `GuestList.RemoveAllOfAbsent` | mobile/src/app/index.tsx:91-95 | removing an e-mail that is not in the list leaves the list unchanged |
| `GuestList.AppendKeepsNoDuplicates` | mobile/src/app/index.tsx:110 | appending an e-mail the list does not hold keeps it free of duplicates |
| `TripForm.IndexScreen.CheckTripDetails` | mobile/src/app/index.tsx:46-62 | the checks as written, with `trim` in the first and the raw length in the second, decide as `DetailsRejection`: an all-white-space destination or a missing date is reported first, then a destination shorter than 4 code units, and otherwise the form may go on |
| `TripForm.PaddedDestinationPasses` | mobile/src/app/index.tsx:47-62 | three white-space units and one other unit pass both checks, although the trimmed destination is one unit long |
| `TripForm.LoadingOutcome` | mobile/src/app/index.tsx:152-170 | the form is shown exactly when there is no truthy stored id or a call threw; the trip at `trip/<id>` opens exactly when the lookup returns a trip; loading goes on exactly when the lookup settles with nothing |
| `TripForm.IndexScreen.constructor` | mobile/src/app/index.tsx:32-40 | the screen starts in the loading state, on the trip-details step, with no destination, no dates, an empty e-mail field and no guests |
| `TripForm.IndexScreen.ChangeDestination` | mobile/src/app/index.tsx:195-199 | typing changes the destination only on the trip-details step, and nothing else changes |
| `TripForm.IndexScreen.SelectDate` | mobile/src/app/index.tsx:81-89 | the selected range becomes the calendar helper's result for the old range and the pressed day, and nothing else changes |
| `TripForm.IndexScreen.ChangeEmailToInvite` | mobile/src/app/index.tsx:303 | typing replaces the e-mail field, and nothing else changes |
| `TripForm.IndexScreen.HandleNextStepForm` | mobile/src/app/index.tsx:45-78 | a failed check only shows its alert and leaves all state unchanged; if both pass on the first step, only the step changes, to add-e-mail, and nothing is submitted; if both pass on the second step, the confirmation prompt decides |
| `TripForm.IndexScreen.ConfirmTripPrompt` | mobile/src/app/index.tsx:68-77 | "Não" changes no state; "Sim" submits the trip exactly as `CreateTrip` does |
| `TripForm.IndexScreen.ChangeLocationOrDate` | mobile/src/app/index.tsx:218 | the step goes back to trip details, and nothing else changes |
| `TripForm.IndexScreen.HandleAddEmail` | mobile/src/app/index.tsx:97-112 | an e-mail the validator rejects or that the duplicate test finds changes no state and shows its alert; otherwise the guest list becomes the old list plus that e-mail and the field is cleared; a non-empty e-mail keeps the list free of duplicates |
| `TripForm.IndexScreen.HandleRemoveEmail` | mobile/src/app/index.tsx:91-95 | the guest list becomes the filtered old list, which no longer holds the removed e-mail and keeps the list free of duplicates; nothing else changes |
| `TripForm.IndexScreen.CreateTrip` | mobile/src/app/index.tsx:127-150 | the request carries the destination, the dates and the guest list and is sent while `isCreatingTrip` is true; afterwards `isCreatingTrip` is false on both paths; success alerts and offers the new id, failure only logs |
| `TripForm.IndexScreen.SaveTrip` | mobile/src/app/index.tsx:114-125 | the id is written to the store; on success the screen navigates to `/trip/<id>`, otherwise it alerts and logs; no state changes |
| `TripForm.IndexScreen.GetTrip` | mobile/src/app/index.tsx:152-170 | `isGettingTrip` becomes false exactly when `LoadingOutcome` is the form, and is otherwise unchanged; it navigates when the trip is found and logs a thrown error |

## Left out

- Rendering, styling, icons, the modal visibility state, keyboard handling and the loading button: these are user interface (mobile/src/app/index.tsx:176-315). The screen also limits when a handler can be reached, and the model's handlers run in any state, except `ChangeDestination`, which keeps the `editable` test of line 197. These limits are not modelled: while `isGettingTrip` is true only the loading indicator is shown (lines 176-178); the e-mail field, the guest list with its add and remove buttons, and the "Alterar Local/Data" button appear only on the add-e-mail step (lines 215-240 and the guest modal opened at line 230), which concerns `ChangeEmailToInvite`, `HandleAddEmail`, `HandleRemoveEmail` and `ChangeLocationOrDate`; the calendar modal opens only on the trip-details step (line 210), which concerns `SelectDate`.
- The calendar helper `calendarUtils.orderStartsAtAndEndsAt` and the validator `validateInput.email`: their source is not part of this model. They are function parameters with no rules assumed.
- The `dates` marks and `formatDatesInText` fields of the selected range: they only feed the calendar and the date field's display.
- The conversion of the dates to ISO-8601 strings with `dayjs` (lines 133-134): a foreign date library. The create request records the selected dates as they are.
- Asynchrony: each handler runs to completion. The timing of the alerts' buttons is collapsed: `ConfirmTripPrompt` takes the prompt's answer, and `CreateTrip` returns the id that the success alert's button passes to `SaveTrip`. It is not modelled that React captures state in closures at render time, or that a pending call may complete after the screen has been left.
- The HTTP clients `mobile/src/server/trip-server.ts` and `mobile/src/server/activities-server.ts` only pass calls through and rethrow errors. Their calls are reduced to outcomes. The fixed owner name and e-mail that `create` adds to the request are not modelled.
- The Spring controller `src/main/java/com/julio/planner/trip/TripController.java` and the record `src/main/java/com/julio/planner/participant/ParticipantData.java`: they are backend code outside the screen.
- A `create` call that resolves without a `tripId`: line 141 would then call `saveTrip(undefined)`. `Created` always carries an id, so this case has no counterpart in the model.
- The text of the log lines: `console.log` is recorded only as a `Log` event.
