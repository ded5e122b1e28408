# SymptomTracker core in Dafny

SymptomTracker is an asthma diary. Its single SwiftUI screen, `ContentView`, lets the
user do five things:

- log a symptom with a severity from 1 to 4 at a chosen date and time;
- log a medication dose at a chosen time;
- record a peak-flow reading in L/min;
- extend the symptom and medication choice lists ("presets");
- browse a month calendar that colours each day by its worst symptom and marks the
  days with a dose.

This project models the screen's non-UI core and proves properties of it:

- `entries.dfy` (module `Entries`): the three records `Symptom`, `Medication` and
  `PeakFlowEntry`. Foundation's `Date`/`Calendar` pair is replaced by a `Moment`, which
  is a local day index plus the seconds since that day's midnight. "Same calendar day"
  means equal day indices.
- `sequences.dfy` (module `Sequences`): Swift's `firstIndex(of:)` and `remove(at:)` as
  functions, plus the two distinctness invariants the screen keeps: no repeated preset
  and no repeated entry id.
- `text.dfy` (module `Text`): two string operations the actions depend on.
  - `trimmingCharacters(in:)` follows how the source trims a candidate preset name.
    The generic trim (`TrimStart`, `TrimEnd`, `TrimBy`) takes the character class as a
    parameter, and its lemmas hold for every class. `Trim` is the
    `.whitespacesAndNewlines` instance.
  - `Int(_:)` follows how the peak-flow field is parsed: an optional sign, ASCII
    digits, and a 64-bit range check.
- `calendar.dfy` (module `Calendar`): the calendar screen.
  - A month is given by its first day index, that day's weekday (1..7) and its length.
  - `GenerateDatesForMonth` builds the grid with the source's padding `for` loop and day
    `while` loop.
  - `OnDay` models the day-detail filters. `MaxSeverity` models `maxSeverity(on:)` and
    `HasMedication` models `hasMedication(on:)`.
  - `TierOf` is the severity-to-colour switch.
- `tracker.dfy` (module `Tracker`): class `ContentView`, with the screen's `@State`
  fields as fields and its actions as methods.
  - It covers logging a symptom, a dose and a peak-flow reading; deleting a symptom or
    a dose; adding a preset; and the three pickers.
  - Every action keeps the invariant `Valid()`: both preset lists have no repeats, each
    picker's selection is one of its choices, every severity comes from the picker's
    range, and ids are unique within each log.
  - `UUID()` becomes a caller-supplied `freshId`, required to be unused in the log it
    joins. `Date()` becomes a `now` parameter.
  - Each `save...` stores a copy of the whole log in a slot field. The slot records what
    was last written to `UserDefaults`.

The "Log Medication" button records the free-text field `newMedicationName`, not the
medication picker's selection, and it does so even when that field is empty. The model
does the same.

## Model

| member | source | states |
|---|---|---|
| Entries.SymptomId | SymptomTracker/SymptomTracker/ContentView.swift:19-30 | a `Symptom` is the value (id, name, severity, timestamp); this is its `Identifiable` id, and the record's synthesized equality compares it with the other fields |
| Entries.MedicationId | SymptomTracker/SymptomTracker/ContentView.swift:32-41 | a `Medication` is the value (id, name, timestamp); this is its `Identifiable` id |
| Entries.PeakFlowId | SymptomTracker/SymptomTracker/ContentView.swift:43-52 | a `PeakFlowEntry` is the value (id, value, timestamp); this is its `Identifiable` id |
| Entries.SameDay | SymptomTracker/SymptomTracker/ContentView.swift:313 | `isDate(_:inSameDayAs:)`: two moments are on the same calendar day exactly when their day indices are equal; every day filter and day summary is stated through it |
| Sequences.FirstIndex | SymptomTracker/SymptomTracker/ContentView.swift:515 | none exactly when the element is absent; otherwise an index holding the element, with no equal element before it |
| Sequences.RemoveAt | SymptomTracker/SymptomTracker/ContentView.swift:516 | one element fewer; the elements before `k` are kept and the ones after it shift down by one, in order; the multiset loses exactly `s[k]` |
| Sequences.AppendKeepsNoDuplicates | SymptomTracker/SymptomTracker/ContentView.swift:616-617 | appending a name that is not yet listed keeps a list duplicate-free |
| Sequences.AppendKeepsKeysDistinct | SymptomTracker/SymptomTracker/ContentView.swift:568 | appending an entry with an unused id keeps ids unique |
| Sequences.RemoveKeepsKeysDistinct | SymptomTracker/SymptomTracker/ContentView.swift:535 | removing an entry keeps the ids of the rest unique |
| Sequences.KeysDistinctNoDuplicates | SymptomTracker/SymptomTracker/ContentView.swift:19-20 | entries that carry unique ids are pairwise unequal, since equality includes the id |
| Sequences.RemoveOnlyOccurrence | SymptomTracker/SymptomTracker/ContentView.swift:514-519 | in a duplicate-free log, the removed entry no longer occurs |
| Text.TrimStart | SymptomTracker/SymptomTracker/ContentView.swift:615 | the result is a suffix; every removed character is in the class; the result does not start with one |
| Text.TrimEnd | SymptomTracker/SymptomTracker/ContentView.swift:615 | the result is a prefix; every removed character is in the class; the result does not end with one |
| Text.TrimBy | SymptomTracker/SymptomTracker/ContentView.swift:615 | no longer than the input; a non-empty result has no class character at either end |
| Text.Trim | SymptomTracker/SymptomTracker/ContentView.swift:615 | `trimmingCharacters(in: .whitespacesAndNewlines)`: `TrimBy` for the 25 scalars of that set; `TrimBy`, `TrimIsInfix`, `TrimEmptyIffBlank` and `TrimIdempotent` state what it returns |
| Text.TrimIsInfix | SymptomTracker/SymptomTracker/ContentView.swift:615 | the trimmed name is a contiguous run of the input, and only class characters are cut on either side |
| Text.TrimEmptyIffBlank | SymptomTracker/SymptomTracker/ContentView.swift:616 | a candidate trims to empty exactly when all of it is in the class |
| Text.TrimKeepsTrimmed | SymptomTracker/SymptomTracker/ContentView.swift:615 | a name with no class character at either end trims to itself |
| Text.TrimIdempotent | SymptomTracker/SymptomTracker/ContentView.swift:615 | trimming twice gives the same result as trimming once |
| Text.ParseInt | SymptomTracker/SymptomTracker/ContentView.swift:477 | an accepted value fits a 64-bit `Int`; `ParseIntAccepts` and `ParseIntWellFormed` together state exactly which fields are accepted and with what value |
| Text.ParseIntAccepts | SymptomTracker/SymptomTracker/ContentView.swift:477 | an accepted field is a sign or digit followed by digits only and ends in a digit (so a lone sign is rejected); it contains no whitespace (no trimming) |
| Text.ParseIntWellFormed | SymptomTracker/SymptomTracker/ContentView.swift:477 | an optional sign followed by one or more digits (leading zeros allowed) is accepted with its signed value exactly when that value fits 64 bits, and rejected otherwise |
| Text.ParseIntExamples | SymptomTracker/SymptomTracker/ContentView.swift:477 | "+5" and "05" are both read as 5 |
| Text.ParseIntRejectsExamples | SymptomTracker/SymptomTracker/ContentView.swift:477 | a field with an inner space, an empty field, and a lone "+" or "-" are all rejected |
| Text.Decimal | SymptomTracker/SymptomTracker/ContentView.swift:494 | `"\(value)"`: the digits of the magnitude, with a leading `-` when negative; `ParseDecimal` states that it parses back |
| Text.DecimalNatValue | SymptomTracker/SymptomTracker/ContentView.swift:494 | the digits of a rendered natural number evaluate back to it |
| Text.ParseDecimal | SymptomTracker/SymptomTracker/ContentView.swift:477 | every 64-bit value, typed as it is displayed, parses back to itself |
| Text.ParseDecimalOverflow | SymptomTracker/SymptomTracker/ContentView.swift:477 | the rendering of a value outside the 64-bit range is rejected |
| Calendar.GenerateDatesForMonth | SymptomTracker/SymptomTracker/ContentView.swift:589-612 | length is `(weekday-1) + length of month`; a cell is padding exactly when it is one of the first `weekday-1`; the cells after the padding are the month's days from its first, consecutive and ascending |
| Calendar.OnDay | SymptomTracker/SymptomTracker/ContentView.swift:312-320 | no longer than the log; every kept entry is on the selected day |
| Calendar.OnDayConcat | SymptomTracker/SymptomTracker/ContentView.swift:312-320 | the filter keeps log order: filtering a concatenation concatenates the filtered parts |
| Calendar.OnDayCount | SymptomTracker/SymptomTracker/ContentView.swift:312-320 | each entry on that day is kept as often as it occurs in the log; no other entry is kept |
| Calendar.OnDayMembers | SymptomTracker/SymptomTracker/ContentView.swift:312-320 | an entry is in the filtered list exactly when it is in the log and on that day |
| Calendar.Severities | SymptomTracker/SymptomTracker/ContentView.swift:624 | same length as the log, holding each entry's severity in position |
| Calendar.MaxOf | SymptomTracker/SymptomTracker/ContentView.swift:624 | none exactly for an empty list; otherwise a member of the list that is at least every element |
| Calendar.MaxSeverity | SymptomTracker/SymptomTracker/ContentView.swift:622-625 | `maxSeverity(on:)`: the maximum of the severities of that day's entries; `MaxSeverityNone` and `MaxSeverityIsMax` state when it is absent and that it is the day's maximum |
| Calendar.MaxSeverityNone | SymptomTracker/SymptomTracker/ContentView.swift:622-625 | no maximum exactly when no symptom falls on that day |
| Calendar.MaxSeverityIsMax | SymptomTracker/SymptomTracker/ContentView.swift:622-625 | a maximum is the severity of some entry on that day and at least every severity that day |
| Calendar.MaxSeverityExample | SymptomTracker/SymptomTracker/ContentView.swift:622-625 | severities 2, 4 and 1 on a day (with a 5 on another day) give 4; a day with no entries gives none |
| Calendar.HasMedication | SymptomTracker/SymptomTracker/ContentView.swift:508-512 | `hasMedication(on:)`: `contains` over the doses; `HasMedicationIff` states it is true exactly when some dose falls on that day |
| Calendar.HasMedicationIff | SymptomTracker/SymptomTracker/ContentView.swift:508-512 | true exactly when some dose falls on that day |
| Calendar.HasMedicationMatchesDetail | SymptomTracker/SymptomTracker/ContentView.swift:315-317 | the pill marker appears exactly when the day detail's medication list is non-empty |
| Calendar.HasMedicationExample | SymptomTracker/SymptomTracker/ContentView.swift:508-512 | a dose at 08:00 marks its whole day and not the next one |
| Calendar.TierOf | SymptomTracker/SymptomTracker/ContentView.swift:279-288 | clear exactly when there is no severity or it lies outside 1..5 |
| Calendar.TierInjective | SymptomTracker/SymptomTracker/ContentView.swift:279-288 | severities 1..5 map to five different tiers |
| Calendar.LoggedDayTier | SymptomTracker/SymptomTracker/ContentView.swift:441-442 | with severities from the picker, a day is never red, and it is clear exactly when it has no symptom |
| Tracker.Admissible | SymptomTracker/SymptomTracker/ContentView.swift:616 | the guard of both add-to-preset actions: the trimmed candidate is non-empty and not already listed; the add methods state both outcomes of it |
| Tracker.ContentView.constructor | SymptomTracker/SymptomTracker/ContentView.swift:55-92 | the initial state (empty logs, the default presets and selections, severity 1, empty fields) satisfies the invariant |
| Tracker.ContentView.SaveSymptom | SymptomTracker/SymptomTracker/ContentView.swift:521-525 | the symptom slot holds the current log; nothing else changes |
| Tracker.ContentView.SaveMedication | SymptomTracker/SymptomTracker/ContentView.swift:539-543 | the medication slot holds the current log; nothing else changes |
| Tracker.ContentView.SavePeakFlow | SymptomTracker/SymptomTracker/ContentView.swift:576-580 | the peak-flow slot holds the current log; nothing else changes |
| Tracker.ContentView.SelectPreset | SymptomTracker/SymptomTracker/ContentView.swift:433-437 | choosing a listed symptom selects it and keeps the invariant |
| Tracker.ContentView.SelectSeverity | SymptomTracker/SymptomTracker/ContentView.swift:441-442 | choosing a level from 1..4 selects it and keeps the invariant |
| Tracker.ContentView.SelectMedicationPreset | SymptomTracker/SymptomTracker/ContentView.swift:195-199 | choosing a listed medication selects it and keeps the invariant |
| Tracker.ContentView.LogSymptom | SymptomTracker/SymptomTracker/ContentView.swift:560-574 | with no symptom selected nothing changes; otherwise exactly one entry (selected name, severity and date) is appended, the selection resets to the first preset or "", severity resets to 1, and the log is saved; the invariant is kept |
| Tracker.ContentView.DeleteSymptomManually | SymptomTracker/SymptomTracker/ContentView.swift:514-519 | removes the first equal entry and saves; with no equal entry, changes nothing and does not save; afterwards the entry is absent |
| Tracker.ContentView.DeleteMedicationManually | SymptomTracker/SymptomTracker/ContentView.swift:533-538 | removes the first equal dose and saves; with no equal dose, changes nothing and does not save; afterwards the dose is absent |
| Tracker.ContentView.AddSymptomToPreset | SymptomTracker/SymptomTracker/ContentView.swift:614-620 | a trimmed name that is non-empty and new is appended and selected, and the field is cleared; otherwise nothing changes; the list stays duplicate-free |
| Tracker.ContentView.AddMedicationToPreset | SymptomTracker/SymptomTracker/ContentView.swift:551-557 | as written: the candidate is the trimmed symptom field; on acceptance it is appended and selected and the medication field is cleared; otherwise nothing changes |
| Tracker.ContentView.AddMedicationToPresetIntended | SymptomTracker/SymptomTracker/ContentView.swift:551-557 | the same guard and updates, with the trimmed medication field as the candidate |
| Tracker.ContentView.LogMedication | SymptomTracker/SymptomTracker/ContentView.swift:201-209 | always appends exactly one dose named by the medication field at the chosen time, saves, clears the field and resets the time to now |
| Tracker.ContentView.LogPeakFlow | SymptomTracker/SymptomTracker/ContentView.swift:476-483 | if the field parses as an `Int`, exactly one reading of that value stamped now is appended, the log is saved and the field cleared; otherwise log, slot and field are unchanged |
| Tracker.LogThenDeleteScenario | SymptomTracker/SymptomTracker/ContentView.swift:560-574 | on a fresh screen, logging "Coughing" at severity 3 stores exactly that record, and deleting it stores an empty log |
| Tracker.AddMedicationScenarioAsWritten | SymptomTracker/SymptomTracker/ContentView.swift:551-557 | as written, a name typed into the medication field of a fresh screen is not added and stays in the field |
| Tracker.AddMedicationTwiceScenario | SymptomTracker/SymptomTracker/ContentView.swift:551-557 | as intended, a new medication name is added once and selected; adding it again leaves the list unchanged |

## Left out

- SwiftUI view bodies, layout, toolbar mode flags, navigation and the delete confirmation alert are user interface, not modelled.
- `loadSymptom`, `loadMedication` and `loadPeakFlow`, and the JSON encoding and `UserDefaults` calls, are Foundation library calls. A save is modelled as a copy of the log into its slot. An encoding failure, which would skip the write, is not modelled. No persistence round trip is claimed: `let id = UUID()` ignores the initialisers' `id` argument, so ids would not survive a reload.
- Foundation `Calendar` arithmetic (`dateInterval(of:for:)`, `date(byAdding:)`, weekday lookup) and month navigation become the abstract `Month` and `Moment`. The guards that return `[]` or `break` when Foundation yields no date therefore have no counterpart.
- Calendar.GenerateDatesForMonth: requires a first weekday of at least 1. `Month.Valid` records the Gregorian bounds (1..7, 28..31), but the contract does not depend on them.
- The pill animation, `DispatchQueue.main.asyncAfter` and the floating-point animation state are timing and cosmetic, not modelled.
- Date formatting (`shortenedDate`) and the display-time sorting of the medication and peak-flow histories are presentation only, not modelled.
- `selectedCalendarDate` and the tap gesture that sets it are not modelled. The day-detail filters are modelled as `OnDay` for any selected date.
- Swift `String` compares by Unicode canonical equivalence. The model compares code points, so canonically equal spellings that differ in code points count as different names.
- `UUID()` freshness is a precondition (`!HasKey(log, key, freshId)`) of the logging actions. Generating the identifier is not modelled.
- SymptomTracker/SymptomTracker/SymptomTrackerApp.swift is the app entry point and a function that only prints. It is not part of this model.

## Findings

| source | as written | input that shows it | evidently intended | confidence | as-written member | corrected member |
|---|---|---|---|---|---|---|
| SymptomTracker/SymptomTracker/ContentView.swift:551-557 | `addMedicationToPreset` trims `newSymptomName`, the symptom field, to get its candidate, but clears `newMedicationName` | a fresh screen with `newSymptomName` = "" and "Nebulizer" typed into `newMedicationName`: "Add" is enabled, but nothing is added and the field keeps "Nebulizer" | the candidate is the trimmed `newMedicationName`, the field whose emptiness enables the button | high (not executed) | Tracker.AddMedicationScenarioAsWritten | Tracker.AddMedicationTwiceScenario |
