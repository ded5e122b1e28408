/**
 * The calendar screen's arithmetic: the month grid, the per-day severity and medication
 * markers, the day-detail filters and the severity colour tiers.
 *
 * A month is given by its first day's index, that day's weekday (1 = first column of
 * the week, as `Calendar.component(.weekday, ...)` numbers it) and its number of days.
 */
module Calendar {
  import opened Wrappers
  import opened Entries

  datatype Month = Month(firstDay: int, firstWeekday: int, length: nat) {
    /** What the Gregorian calendar guarantees of every month. */
    predicate Valid() {
      1 <= firstWeekday <= 7 && 28 <= length <= 31
    }
  }

  /** A grid cell: a blank padding cell (`Date.distantPast` in the source) or a day's midnight. */
  datatype Cell = Placeholder | DayCell(date: Moment)

  /**
   * `generateDatesForMonth`: `firstWeekday - 1` padding cells, then the month's days
   * from its first to its last, one cell each.
   */
  method GenerateDatesForMonth(month: Month) returns (dates: seq<Cell>)
    requires 1 <= month.firstWeekday
    ensures |dates| == (month.firstWeekday - 1) + month.length
    ensures forall i :: 0 <= i < |dates| ==> (dates[i].Placeholder? <==> i < month.firstWeekday - 1)
    ensures forall i :: month.firstWeekday - 1 <= i < |dates| ==>
      dates[i] == DayCell(Moment(month.firstDay + (i - (month.firstWeekday - 1)), 0))
    ensures forall i :: month.firstWeekday - 1 <= i < |dates| - 1 ==>
      dates[i + 1].date.day == dates[i].date.day + 1
  {
    var padding := month.firstWeekday - 1;
    dates := [];
    for column := 1 to month.firstWeekday
      invariant |dates| == column - 1
      invariant forall i :: 0 <= i < |dates| ==> dates[i] == Placeholder
    {
      dates := dates + [Placeholder];
    }
    var current := month.firstDay;
    var end := month.firstDay + month.length;
    while current < end
      invariant month.firstDay <= current <= end
      invariant |dates| == padding + (current - month.firstDay)
      invariant forall i :: 0 <= i < padding ==> dates[i] == Placeholder
      invariant forall i :: padding <= i < |dates| ==>
        dates[i] == DayCell(Moment(month.firstDay + (i - padding), 0))
    {
      dates := dates + [DayCell(Moment(current, 0))];
      current := current + 1;
    }
  }

  /** The day-detail filter: the entries of `log` stamped on the calendar day of `date`. */
  function OnDay<T>(log: seq<T>, at: T -> Moment, date: Moment): (r: seq<T>)
    ensures |r| <= |log|
    ensures forall i :: 0 <= i < |r| ==> SameDay(at(r[i]), date)
  {
    if log == [] then []
    else (if SameDay(at(log[0]), date) then [log[0]] else []) + OnDay(log[1..], at, date)
  }

  /** The filter keeps the log's order: filtering a concatenation concatenates the filtered parts. */
  lemma {:induction false} OnDayConcat<T>(a: seq<T>, b: seq<T>, at: T -> Moment, date: Moment)
    ensures OnDay(a + b, at, date) == OnDay(a, at, date) + OnDay(b, at, date)
  {
    if a == [] {
      assert a + b == b;
    } else {
      assert (a + b)[0] == a[0] && (a + b)[1..] == a[1..] + b;
      OnDayConcat(a[1..], b, at, date);
    }
  }

  /** The filter keeps every entry on that day, as often as it occurs, and nothing else. */
  lemma {:induction false} OnDayCount<T>(log: seq<T>, at: T -> Moment, date: Moment, x: T)
    ensures multiset(OnDay(log, at, date))[x] == if SameDay(at(x), date) then multiset(log)[x] else 0
  {
    if log != [] {
      OnDayCount(log[1..], at, date, x);
      assert log == [log[0]] + log[1..];
    }
  }

  lemma OnDayMembers<T>(log: seq<T>, at: T -> Moment, date: Moment, x: T)
    ensures x in OnDay(log, at, date) <==> x in log && SameDay(at(x), date)
  {
    OnDayCount(log, at, date, x);
  }

  /** `map { $0.severity }`. */
  function Severities(log: seq<Symptom>): (r: seq<int>)
    ensures |r| == |log| && forall i :: 0 <= i < |log| ==> r[i] == log[i].severity
  {
    seq(|log|, i requires 0 <= i < |log| => log[i].severity)
  }

  /** Swift's `max()` on a sequence of integers: none for an empty sequence. */
  function MaxOf(xs: seq<int>): (r: Option<int>)
    ensures r.None? <==> xs == []
    ensures r.Some? ==> r.value in xs && forall i :: 0 <= i < |xs| ==> xs[i] <= r.value
  {
    if xs == [] then None
    else match MaxOf(xs[1..])
      case None => Some(xs[0])
      case Some(m) => Some(if xs[0] >= m then xs[0] else m)
  }

  /** `maxSeverity(on:)`: the highest severity among the symptoms logged on that day. */
  function MaxSeverity(log: seq<Symptom>, date: Moment): (r: Option<int>) {
    MaxOf(Severities(OnDay(log, SymptomTime, date)))
  }

  /** There is no maximum exactly when nothing was logged that day. */
  lemma MaxSeverityNone(log: seq<Symptom>, date: Moment)
    ensures MaxSeverity(log, date).None? <==> forall i :: 0 <= i < |log| ==> !SameDay(log[i].timestamp, date)
  {
    var f := OnDay(log, SymptomTime, date);
    if f != [] {
      OnDayMembers(log, SymptomTime, date, f[0]);
    } else {
      forall i | 0 <= i < |log| ensures !SameDay(log[i].timestamp, date) {
        OnDayMembers(log, SymptomTime, date, log[i]);
      }
    }
  }

  /** The maximum is the severity of one of that day's entries, and no entry of that day exceeds it. */
  lemma MaxSeverityIsMax(log: seq<Symptom>, date: Moment, v: int)
    requires MaxSeverity(log, date) == Some(v)
    ensures exists i :: 0 <= i < |log| && SameDay(log[i].timestamp, date) && log[i].severity == v
    ensures forall i :: 0 <= i < |log| && SameDay(log[i].timestamp, date) ==> log[i].severity <= v
  {
    var f := OnDay(log, SymptomTime, date);
    var sev := Severities(f);
    var j :| 0 <= j < |sev| && sev[j] == v;
    OnDayMembers(log, SymptomTime, date, f[j]);
    var i :| 0 <= i < |log| && log[i] == f[j];
    assert SameDay(log[i].timestamp, date) && log[i].severity == v;
    forall i | 0 <= i < |log| && SameDay(log[i].timestamp, date) ensures log[i].severity <= v {
      OnDayMembers(log, SymptomTime, date, log[i]);
      var j :| 0 <= j < |f| && f[j] == log[i];
      assert sev[j] <= v;
    }
  }

  /** `hasMedication(on:)`: whether `meds` contains a dose taken on that day. */
  function HasMedication(meds: seq<Medication>, date: Moment): (r: bool) {
    meds != [] && (SameDay(meds[0].timestamp, date) || HasMedication(meds[1..], date))
  }

  lemma {:induction false} HasMedicationIff(meds: seq<Medication>, date: Moment)
    ensures HasMedication(meds, date) <==> exists i :: 0 <= i < |meds| && SameDay(meds[i].timestamp, date)
  {
    if meds != [] {
      HasMedicationIff(meds[1..], date);
      if exists i :: 0 <= i < |meds| && SameDay(meds[i].timestamp, date) {
        var i :| 0 <= i < |meds| && SameDay(meds[i].timestamp, date);
        if i > 0 {
          assert meds[1..][i - 1] == meds[i];
        }
      }
    }
  }

  /** The pill marker and the medication panel of the day detail agree. */
  lemma HasMedicationMatchesDetail(meds: seq<Medication>, date: Moment)
    ensures HasMedication(meds, date) <==> OnDay(meds, MedicationTime, date) != []
  {
    HasMedicationIff(meds, date);
    var f := OnDay(meds, MedicationTime, date);
    if f != [] {
      OnDayMembers(meds, MedicationTime, date, f[0]);
    } else {
      forall i | 0 <= i < |meds| ensures !SameDay(meds[i].timestamp, date) {
        OnDayMembers(meds, MedicationTime, date, meds[i]);
      }
    }
  }

  /** The fill colour of a calendar day. */
  datatype Tier = Blue | Green | Yellow | Orange | Red | Clear

  /** The severity-to-colour switch: 1..5 to five colours, anything else (or none) to clear. */
  function TierOf(severity: Option<int>): (t: Tier)
    ensures t == Clear <==> !(severity.Some? && 1 <= severity.value <= 5)
  {
    match severity
    case Some(1) => Blue
    case Some(2) => Green
    case Some(3) => Yellow
    case Some(4) => Orange
    case Some(5) => Red
    case _ => Clear
  }

  /** Different severities in 1..5 get different colours. */
  lemma TierInjective(a: int, b: int)
    requires 1 <= a <= 5 && 1 <= b <= 5 && TierOf(Some(a)) == TierOf(Some(b))
    ensures a == b
  {
  }

  predicate SeveritiesInPickerRange(log: seq<Symptom>) {
    forall i :: 0 <= i < |log| ==> 1 <= log[i].severity <= 4
  }

  /**
   * With severities from the picker (1..4), a logged day is always filled and never red:
   * the fifth tier is unreachable from the logging screen.
   */
  lemma LoggedDayTier(log: seq<Symptom>, date: Moment)
    requires SeveritiesInPickerRange(log)
    ensures TierOf(MaxSeverity(log, date)) != Red
    ensures TierOf(MaxSeverity(log, date)) == Clear <==> forall i :: 0 <= i < |log| ==> !SameDay(log[i].timestamp, date)
  {
    MaxSeverityNone(log, date);
    match MaxSeverity(log, date)
    case None =>
    case Some(v) => MaxSeverityIsMax(log, date, v);
  }

  /** A day with symptoms of severities 2, 4 and 1 is summarised as 4; an empty day as none. */
  lemma MaxSeverityExample(d: Moment, other: Moment)
    requires !SameDay(d, other)
    ensures MaxSeverity([Symptom(0, "Coughing", 2, d), Symptom(1, "Wheezing", 4, d),
                         Symptom(2, "Chest pain", 5, other), Symptom(3, "Coughing", 1, d)], d) == Some(4)
    ensures MaxSeverity([Symptom(0, "Coughing", 2, d)], other) == None
  {
    var s0, s1, s2, s3 := Symptom(0, "Coughing", 2, d), Symptom(1, "Wheezing", 4, d),
                          Symptom(2, "Chest pain", 5, other), Symptom(3, "Coughing", 1, d);
    var log := [s0, s1, s2, s3];
    assert log[1..] == [s1, s2, s3] && log[1..][1..] == [s2, s3] && log[1..][1..][1..] == [s3];
    assert [s3][1..] == [];
    assert OnDay([s3], SymptomTime, d) == [s3];
    assert OnDay([s2, s3], SymptomTime, d) == [s3];
    assert OnDay([s1, s2, s3], SymptomTime, d) == [s1, s3];
    assert OnDay(log, SymptomTime, d) == [s0, s1, s3];
    assert Severities([s0, s1, s3]) == [2, 4, 1];
    assert [2, 4, 1][1..] == [4, 1] && [4, 1][1..] == [1] && [1][1..] == [];
    assert MaxOf([1]) == Some(1);
    assert MaxOf([4, 1]) == Some(4);
  }

  /** A dose at 08:00 marks the whole day, so a query at 23:00 the same day sees it. */
  lemma HasMedicationExample(day: int)
    ensures HasMedication([Medication(0, "Albuterol", Moment(day, 8 * 3600))], Moment(day, 23 * 3600))
    ensures !HasMedication([Medication(0, "Albuterol", Moment(day, 8 * 3600))], Moment(day + 1, 8 * 3600))
  {
  }
}
