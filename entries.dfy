/**
 * The three record types of the tracker and the abstract clock they are stamped with.
 *
 * Foundation's `Date` and `Calendar` are replaced by a `Moment`: the index of a local
 * calendar day plus a time of day. Two moments fall on the same calendar day exactly
 * when their day indices are equal, which is what `Calendar.isDate(_:inSameDayAs:)`
 * decides in the source.
 */
module Entries {

  /** A generated identifier (`UUID()` in the source); only its equality matters. */
  type Uuid = int

  /** A point in time: a local calendar day and the seconds elapsed since its midnight. */
  datatype Moment = Moment(day: int, time: nat)

  predicate SameDay(a: Moment, b: Moment) {
    a.day == b.day
  }

  /** A logged symptom episode; severity is 1..4 when it comes from the severity picker. */
  datatype Symptom = Symptom(id: Uuid, name: string, severity: int, timestamp: Moment)

  /** A logged medication dose. */
  datatype Medication = Medication(id: Uuid, name: string, timestamp: Moment)

  /** A logged peak-flow reading in L/min. */
  datatype PeakFlowEntry = PeakFlowEntry(id: Uuid, value: int, timestamp: Moment)

  function SymptomId(e: Symptom): Uuid { e.id }
  function MedicationId(e: Medication): Uuid { e.id }
  function PeakFlowId(e: PeakFlowEntry): Uuid { e.id }

  function SymptomTime(e: Symptom): Moment { e.timestamp }
  function MedicationTime(e: Medication): Moment { e.timestamp }
  function PeakFlowTime(e: PeakFlowEntry): Moment { e.timestamp }
}
