# Incident report store and create form, in Dafny

This project models the logic of a single-page application for drafting
and tracking aviation incident reports. The model covers three pieces.

- **The incident store** (`IncidentContext.dfy`). It holds one ordered list
  of incidents, starting from three seed records. `addIncident` builds a
  record from the create form's data and puts it at the front of the list.
  `updateIncidentStatus` and `updateIncidentReport` replace one field of
  every record with a given id. `getIncidentById` returns the first record
  with an id. The store is the class `IncidentStore`, whose field
  `incidents: seq<Incident>` its methods replace. The new lists are
  computed by functions (`NewIncident`, `WithStatus`, `WithInvestigation`,
  `FindById`), and the lemmas about those functions state the properties.
- **The reference-manual checkboxes** (`ManualSelectionSection.dfy`). Five
  manuals are offered. Checking one appends its id to the form's
  `selectedManuals` list. Unchecking removes every copy of the id.
- **The create page** (`CreateIncident.dfy`). It covers the form's default
  values and the flight-number and airline handlers. A flag,
  `autoFillTriggered`, makes a simulated auto-fill of four fields happen once.
  Changing the airline clears the flag. The submit handler hands the form to
  the store. The pure function `Step` gives the page's state after one event.
  The class `CreateIncidentPage` holds the same state in fields. Its
  constructor is specified by `InitialState`, each event handler by `Step`,
  and `OnSubmit` by the store's `AddIncident`. The browser's timer is modelled as a
  count of scheduled auto-fills that have not fired yet. A separate event,
  `AutoFillFired` (the method `FireAutoFill`), runs one of them. Several can
  be pending at once, because the flag is set only when a fill runs.

`IncidentTypes.dfy` holds the record types. `JsText.dfy` models the three
JavaScript string operations the code depends on:

- `String.prototype.includes` as `Includes`, proved equal to "occurs at some
  index";
- a number in a template literal as `NatToString`, proved injective through
  its inverse `DecimalValue`;
- `split('T')[0]` as `BeforeFirstT`.

Values that the code gets from the browser are parameters of the model:

- the random id from `Math.random`;
- the creation time from `new Date().toISOString()`;
- one object URL per file from `URL.createObjectURL`;
- the page's current time, for the default date.

What the code does not do, and how the model follows it:

- The code has no delete operation, so the model has none.
- The code does not check that a generated id is fresh. The model does not
  assume it either. Freshness appears only as a precondition of
  `PrependKeepsUniqueIds`. Without a fresh id, the update operations change
  every record that has the id, and a lookup returns the first one.
- The create form also carries `reportType` and `selectedManuals`. The form's
  defaults and the report-type and manual fields use them, but the declared
  form-data type does not list them. `addIncident` copies the form object
  with a spread, so at runtime both reach the stored record. The model
  therefore has them in `IncidentFormData` and as two more optional fields of
  `Incident`.
- Dafny reserves the words `type` and `label`. The attachment's `type` is
  `attachmentType`, a file's `type` is `mediaType`, and a manual's `label`
  is `displayLabel`.

## Model

| member | source | states |
|---|---|---|
| IncidentTypes.StatusName | src/types/incident.ts:2 | every status has a non-empty name; `StatusNameRoundTrip` reads each name back as its status |
| IncidentTypes.ParseStatus | src/types/incident.ts:2 | a string that reads as a status is that status's name |
| IncidentTypes.StatusNameRoundTrip | src/types/incident.ts:2 | every status reads back from its name, so the four names are distinct |
| IncidentTypes.StatusNamesAreExactlyFour | src/types/incident.ts:2 | a string is a status exactly when it is "draft", "preliminary", "done" or "sent to client" |
| IncidentTypes.AttachmentTypeName | src/types/incident.ts:8 | an attachment type is one of "image", "pdf", "doc" |
| JsText.Includes | src/context/IncidentContext.tsx:74-78 | the empty piece is always included, and an included piece is no longer than the string; `IncludesIffOccurs` relates it to occurrence at an index |
| JsText.IncludesIffOccurs | src/context/IncidentContext.tsx:74-78 | `includes` holds exactly when the piece occurs at some index of the string |
| JsText.IncludedCharsOccur | src/context/IncidentContext.tsx:74-78 | every character of an included piece occurs in the string |
| JsText.NatToString | src/context/IncidentContext.tsx:71 | the decimal form of an index is a non-empty string of digits, and it starts with '0' only for zero (no leading zeros) |
| JsText.DecimalValueOfNatToString | src/context/IncidentContext.tsx:71 | reading the decimal form back gives the index |
| JsText.NatToStringInjective | src/context/IncidentContext.tsx:71 | distinct indexes have distinct decimal forms |
| JsText.BeforeFirstT | src/pages/CreateIncident.tsx:23 | the result has no 'T', is a prefix of the input, and is followed by 'T' unless it is the whole input |
| JsText.BeforeFirstTOfTimestamp | src/pages/CreateIncident.tsx:23 | on an ISO timestamp `date + "T" + time`, the result is the date |
| IncidentContext.SeedIncidents | src/context/IncidentContext.tsx:24-65 | the store starts with three records, ids "1", "2", "3" and statuses preliminary, draft, done |
| IncidentContext.SeedIdsUnique | src/context/IncidentContext.tsx:24-65 | the seed ids are distinct |
| IncidentContext.ClassifyMediaType | src/context/IncidentContext.tsx:74-78 | image exactly when "image" occurs in the media type; pdf exactly when "image" does not occur and "pdf" does; doc exactly when neither occurs |
| IncidentContext.ClassifyByOccurrence | src/context/IncidentContext.tsx:74-78 | the type is image iff "image" occurs in the media type; pdf iff "image" does not occur and "pdf" does; doc iff neither occurs |
| IncidentContext.ClassifyExamples | src/context/IncidentContext.tsx:74-78 | "image/png" is image, "application/pdf" is pdf, "application/msword" is doc |
| IncidentContext.AttachmentId | src/context/IncidentContext.tsx:71 | an attachment id starts with the incident id and a dash |
| IncidentContext.AttachmentIdInjective | src/context/IncidentContext.tsx:71 | two attachment ids of one incident are equal only for equal indexes |
| IncidentContext.ToAttachments | src/context/IncidentContext.tsx:70-79 | one attachment per file, in file order; attachment i has id `<id>-<i>`, file i's name, URL i and the type classified from file i's media type |
| IncidentContext.AttachmentIdsDistinct | src/context/IncidentContext.tsx:70-79 | the attachments of one new incident have pairwise distinct ids |
| IncidentContext.NewIncident | src/context/IncidentContext.tsx:81-87 | the record has the generated id, status draft and the given creation time; every form field but the files reads back from it unchanged; its attachments are the form's files converted in order |
| IncidentContext.NewIncidentFromForm | src/context/IncidentContext.tsx:81-87 | the new record has the generated id, status draft and the given creation time whatever the form holds; every form field other than the files reads back unchanged; the attachments keep the files' count, order and names |
| IncidentContext.MapWhereId | src/context/IncidentContext.tsx:94-100 | same length; position i holds f of the old record when its id matches and the old record otherwise |
| IncidentContext.WithStatus | src/context/IncidentContext.tsx:93-101 | same length and order; records with the id get the new status and no other change; other records are unchanged |
| IncidentContext.WithInvestigation | src/context/IncidentContext.tsx:107-115 | same length and order; records with the id get the new investigation text and no other change; other records are unchanged |
| IncidentContext.FindById | src/context/IncidentContext.tsx:103-105 | not found exactly when no record has the id; otherwise the record at the first index with that id |
| IncidentContext.MapWhereIdAbsentIsNoOp | src/context/IncidentContext.tsx:94-100 | when no record has the id, the mapped list equals the old list |
| IncidentContext.MapWhereIdKeepsIds | src/context/IncidentContext.tsx:94-100 | an id-preserving update keeps every position's id, and so keeps ids unique |
| IncidentContext.FindAfterMapWhereId | src/context/IncidentContext.tsx:94-105 | a lookup after an update gives the updated first match for the updated id and the old answer for every other id |
| IncidentContext.WithStatusAbsentIsNoOp | src/context/IncidentContext.tsx:93-101 | a status update with an absent id leaves the list exactly as it was |
| IncidentContext.WithInvestigationAbsentIsNoOp | src/context/IncidentContext.tsx:107-115 | a report update with an absent id leaves the list exactly as it was |
| IncidentContext.FindAfterWithStatus | src/context/IncidentContext.tsx:93-105 | after a status update, the id finds the old record with the new status and all other fields equal; other ids find what they found before |
| IncidentContext.FindAfterWithInvestigation | src/context/IncidentContext.tsx:103-115 | after a report update, the id finds the old record with the new text and the same status; other ids find what they found before |
| IncidentContext.UpdatesKeepUniqueIds | src/context/IncidentContext.tsx:93-115 | both updates keep the ids unique |
| IncidentContext.FindAfterPrepend | src/context/IncidentContext.tsx:89 | after a prepend, the new record's id finds the new record and other ids find what they found before |
| IncidentContext.PrependKeepsUniqueIds | src/context/IncidentContext.tsx:68-89 | adding a record with a fresh id keeps the ids unique |
| IncidentContext.IncidentStore.constructor | src/context/IncidentContext.tsx:24-65 | the store starts with the seed list |
| IncidentContext.IncidentStore.AddIncident | src/context/IncidentContext.tsx:67-91 | returns the generated id; the list is the new record followed by the old list unchanged, one longer; the returned id finds the new record |
| IncidentContext.IncidentStore.UpdateIncidentStatus | src/context/IncidentContext.tsx:93-101 | the list becomes `WithStatus` of the old list, and is unchanged when the id is absent |
| IncidentContext.IncidentStore.GetIncidentById | src/context/IncidentContext.tsx:103-105 | not found exactly when no stored record has the id; a found record is stored and has the id, and is the first such record of the list (`FindById`); the list is only read |
| IncidentContext.IncidentStore.UpdateIncidentReport | src/context/IncidentContext.tsx:107-115 | the list becomes `WithInvestigation` of the old list, and is unchanged when the id is absent |
| IncidentContext.SeedAddScenario | src/context/IncidentContext.tsx:81-89 | adding a test record to the seed list gives four records, the new draft first and the seeds after it |
| IncidentContext.SeedUpdateStatusScenario | src/context/IncidentContext.tsx:93-105 | after setting record "1" to done, looking up "1" gives status done |
| IncidentContext.SeedUpdateReportScenario | src/context/IncidentContext.tsx:103-115 | after setting record "2"'s report to "new text", "2" has that text and is still a draft |
| ManualSelectionSection.AvailableManuals | src/components/incidents/ManualSelectionSection.tsx:14-20 | five manuals are offered, with pairwise distinct ids |
| ManualSelectionSection.AvailableManualIdsAre | src/components/incidents/ManualSelectionSection.tsx:14-20 | the ids offered are manual1 to manual5 in that order, all distinct |
| ManualSelectionSection.CurrentValues | src/components/incidents/ManualSelectionSection.tsx:53 | a missing field value counts as the empty list, and a present one, even an empty one, is used as it is |
| ManualSelectionSection.IsChecked | src/components/incidents/ManualSelectionSection.tsx:51 | a box is checked exactly when its id is in the current values, so a missing field value checks nothing |
| ManualSelectionSection.OnCheckedChange | src/components/incidents/ManualSelectionSection.tsx:52-58 | checking yields the current values followed by the id, one longer; unchecking yields a subsequence of the current values without the id, with every other id as often as before |
| ManualSelectionSection.RemoveAll | src/components/incidents/ManualSelectionSection.tsx:57 | the result lacks the id, keeps every other id as often as before, and is a subsequence of the input |
| ManualSelectionSection.CheckAppends | src/components/incidents/ManualSelectionSection.tsx:53-55 | checking keeps the current list as a prefix and adds the id once at the end, without removing an earlier copy |
| ManualSelectionSection.UncheckRemovesAll | src/components/incidents/ManualSelectionSection.tsx:56-58 | unchecking removes every occurrence and keeps the other ids in order and with their counts |
| ManualSelectionSection.CheckboxShowsChange | src/components/incidents/ManualSelectionSection.tsx:51-58 | after a change the box shows the new state, and every other box shows what it showed before |
| ManualSelectionSection.RemoveAllAbsent | src/components/incidents/ManualSelectionSection.tsx:57 | filtering out an absent id returns the list unchanged |
| ManualSelectionSection.RemoveAllAppend | src/components/incidents/ManualSelectionSection.tsx:57 | filtering out an id after appending it gives the same result as filtering before the append |
| ManualSelectionSection.CheckThenUncheckRestores | src/components/incidents/ManualSelectionSection.tsx:53-58 | checking an unselected manual and then unchecking it restores the original list |
| CreateIncident.DefaultFormValues | src/pages/CreateIncident.tsx:21-37 | the date is the prefix of the current timestamp up to its first 'T'; every other text field, the files and the manuals are empty; the report type is quality |
| CreateIncident.AutoFilled | src/pages/CreateIncident.tsx:47-50 | departure and base become BOG, arrival MDE, registration HK-4321, and every other field keeps its value |
| CreateIncident.DefaultFormValuesAre | src/pages/CreateIncident.tsx:21-37 | the date starts as the date part of the current timestamp; every other text field, the files and the manuals start empty; the report type starts as quality |
| CreateIncident.Step | src/pages/CreateIncident.tsx:39-69 | a flight-number change stores the value and schedules a fill iff the value and airline are non-empty and the flag is clear; an airline change stores it and clears the flag; a fire sets the four fields and the flag and changes nothing else; a manual change sets only the selection |
| CreateIncident.FilledStaysFilledUntilAirlineChanges | src/pages/CreateIncident.tsx:43-67 | once the flag is set, no event sequence without an airline change clears it or schedules another fill |
| CreateIncident.AirlineChangeReenablesAutoFill | src/pages/CreateIncident.tsx:43-67 | after a non-empty airline change, a non-empty flight number schedules a fill again |
| CreateIncident.AutoFillScenario | src/pages/CreateIncident.tsx:39-58 | on a fresh page, entering an airline and a flight number and letting the timer fire fills BOG, MDE, HK-4321, BOG and sets the flag |
| CreateIncident.ReviewPath | src/pages/CreateIncident.tsx:79 | the route is "/review-incident/" followed by exactly the id |
| CreateIncident.CreateIncidentPage.constructor | src/pages/CreateIncident.tsx:19-37 | the page starts with the default values, the flag clear and no fill pending |
| CreateIncident.CreateIncidentPage.HandleFlightNumberChange | src/pages/CreateIncident.tsx:39-60 | the new state is `Step` of the old one on a flight-number change |
| CreateIncident.CreateIncidentPage.FireAutoFill | src/pages/CreateIncident.tsx:45-58 | with a fill pending, the new state is `Step` of the old one on a fire |
| CreateIncident.CreateIncidentPage.HandleAirlineChange | src/pages/CreateIncident.tsx:62-69 | the new state is `Step` of the old one on an airline change |
| CreateIncident.CreateIncidentPage.HandleManualCheckedChange | src/components/incidents/ManualSelectionSection.tsx:52-58 | the new state is `Step` of the old one on a checkbox change |
| CreateIncident.CreateIncidentPage.OnSubmit | src/pages/CreateIncident.tsx:71-80 | the store gains the record built from the form's values, at the front; the new id finds it; the route is the review route of that id |

## Left out

- Rendering, styling, dialogs, toasts and routing are presentation only. These are the JSX of every page, the list page (which only forwards to `updateIncidentStatus`), the index and not-found pages, and the application shell. Navigation is modelled only as the route string that `OnSubmit` returns.
- The simulated assistant chat on the review page is left out. It is driven by timers, and its text embeds the local time. It reaches the store only through `updateIncidentReport` and `updateIncidentStatus(id, 'done')`, which are modelled.
- The plain field bindings of the create form are not events of the model. These are the date, event number, base, registration, airports, cause-analysis and report-type inputs, whose changes are stored with no logic. Only the flight-number, airline and manual handlers are modelled.
- `Math.random`, `Date` and `URL.createObjectURL` are parameters. The id's format (at most seven base-36 digits) and the check that `createdAt` is not before the call are not modelled.
- A file's bytes and the release of object URLs are not modelled. The code never releases them.
- The timer's 500 ms delay is not modelled, only the order of events. The model also assumes that each handler sees the flag and the store's list as set by the previous events, as React's re-render between user events provides. In the code, `setIncidents` takes effect at the next render, so `getIncidentById` in the same handler as `addIncident` would not yet see the new record; the model's `AddIncident` ensures that it does. No handler of the application reads the list right after changing it: the review page looks the record up while rendering.
- The error that `useIncidents` throws outside its provider is context wiring, not modelled.
- Delete and id uniqueness are not modelled beyond what is said above: the code has neither.
