/**
 * The state the tracker's screen keeps and the actions that change it: logging a
 * symptom, a medication dose or a peak-flow reading, deleting a symptom or a dose, and
 * adding a symptom or medication name to the choice lists.
 *
 * `UUID()` becomes a `freshId` the caller supplies (required to be unused in the log it
 * joins) and `Date()` becomes a `now` parameter. Each `save...` writes the whole log to
 * its storage slot; the slot fields record what was last written.
 */
module Tracker {
  import opened Wrappers
  import opened Entries
  import opened Text
  import opened Sequences
  import opened Calendar

  const DEFAULT_SYMPTOM_PRESETS: seq<string> := ["Chest pain", "Chest tightness", "Coughing", "Wheezing"]
  const DEFAULT_SYMPTOM_PRESET: string := "Coughing"
  const DEFAULT_MEDICATION_PRESETS: seq<string> := ["Albuterol", "Fostair"]
  const DEFAULT_MEDICATION_PRESET: string := "Fostair"

  /** The guard of both add-to-preset actions: a non-empty, not yet listed (trimmed) name. */
  predicate Admissible(presets: seq<string>, candidate: string) {
    candidate != "" && candidate !in presets
  }

  class ContentView {
    var selectedSeverity: int
    var loggedSymptom: seq<Symptom>
    var symptomPresets: seq<string>
    var selectedPreset: string
    var newSymptomName: string
    var selectedDate: Moment

    var loggedMedications: seq<Medication>
    var medicationPresets: seq<string>
    var selectedMedicationPreset: string
    var newMedicationName: string
    var selectedMedicationDate: Moment

    var peakFlowValue: string
    var loggedPeakflows: seq<PeakFlowEntry>

    /** The storage slots "loggedSymptomData", "loggedMedicationData", "loggedPeakFlowData"; None until first saved. */
    var symptomSlot: Option<seq<Symptom>>
    var medicationSlot: Option<seq<Medication>>
    var peakFlowSlot: Option<seq<PeakFlowEntry>>

    /**
     * The invariant every action keeps: preset lists without repeats, each picker's
     * selection among its choices, severities from the picker's range, and entry ids
     * unique within each log.
     */
    ghost predicate Valid()
      reads this`symptomPresets, this`medicationPresets, this`selectedPreset
      reads this`selectedMedicationPreset, this`selectedSeverity
      reads this`loggedSymptom, this`loggedMedications, this`loggedPeakflows
    {
      PickersValid() && LogsValid()
    }

    ghost predicate PickersValid()
      reads this`symptomPresets, this`medicationPresets, this`selectedPreset
      reads this`selectedMedicationPreset, this`selectedSeverity
    {
      && NoDuplicates(symptomPresets) && NoDuplicates(medicationPresets)
      && selectedPreset in symptomPresets
      && selectedMedicationPreset in medicationPresets
      && 1 <= selectedSeverity <= 4
    }

    ghost predicate LogsValid()
      reads this`loggedSymptom, this`loggedMedications, this`loggedPeakflows
    {
      && SeveritiesInPickerRange(loggedSymptom)
      && KeysDistinct(loggedSymptom, SymptomId)
      && KeysDistinct(loggedMedications, MedicationId)
      && KeysDistinct(loggedPeakflows, PeakFlowId)
    }

    /** The state when the screen appears, before any load. */
    constructor (now: Moment)
      ensures Valid()
      ensures loggedSymptom == [] && loggedMedications == [] && loggedPeakflows == []
      ensures symptomPresets == DEFAULT_SYMPTOM_PRESETS && selectedPreset == DEFAULT_SYMPTOM_PRESET
      ensures medicationPresets == DEFAULT_MEDICATION_PRESETS && selectedMedicationPreset == DEFAULT_MEDICATION_PRESET
      ensures selectedSeverity == 1 && newSymptomName == "" && newMedicationName == "" && peakFlowValue == ""
      ensures selectedDate == now && selectedMedicationDate == now
      ensures symptomSlot == None && medicationSlot == None && peakFlowSlot == None
    {
      selectedSeverity := 1;
      loggedSymptom := [];
      symptomPresets := DEFAULT_SYMPTOM_PRESETS;
      selectedPreset := DEFAULT_SYMPTOM_PRESET;
      newSymptomName := "";
      selectedDate := now;
      loggedMedications := [];
      medicationPresets := DEFAULT_MEDICATION_PRESETS;
      selectedMedicationPreset := DEFAULT_MEDICATION_PRESET;
      newMedicationName := "";
      selectedMedicationDate := now;
      peakFlowValue := "";
      loggedPeakflows := [];
      symptomSlot, medicationSlot, peakFlowSlot := None, None, None;
      new;
      assert DEFAULT_SYMPTOM_PRESETS[2] == DEFAULT_SYMPTOM_PRESET;
      assert DEFAULT_MEDICATION_PRESETS[1] == DEFAULT_MEDICATION_PRESET;
      assert |"Chest pain"| == 10 && |"Chest tightness"| == 15 && |"Coughing"| == 8 && |"Wheezing"| == 8;
      assert "Coughing"[0] != "Wheezing"[0];
      assert "Albuterol"[0] != "Fostair"[0];
    }

    method SaveSymptom()
      modifies this`symptomSlot
      ensures symptomSlot == Some(loggedSymptom)
    {
      symptomSlot := Some(loggedSymptom);
    }

    method SaveMedication()
      modifies this`medicationSlot
      ensures medicationSlot == Some(loggedMedications)
    {
      medicationSlot := Some(loggedMedications);
    }

    method SavePeakFlow()
      modifies this`peakFlowSlot
      ensures peakFlowSlot == Some(loggedPeakflows)
    {
      peakFlowSlot := Some(loggedPeakflows);
    }

    /** The symptom picker: only a listed preset can be chosen. */
    method SelectPreset(preset: string)
      requires Valid() && preset in symptomPresets
      modifies this`selectedPreset
      ensures Valid() && selectedPreset == preset
    {
      selectedPreset := preset;
    }

    /** The severity picker offers 1 to 4. */
    method SelectSeverity(level: int)
      requires Valid() && 1 <= level < 5
      modifies this`selectedSeverity
      ensures Valid() && selectedSeverity == level
    {
      selectedSeverity := level;
    }

    /** The medication picker: only a listed preset can be chosen. */
    method SelectMedicationPreset(preset: string)
      requires Valid() && preset in medicationPresets
      modifies this`selectedMedicationPreset
      ensures Valid() && selectedMedicationPreset == preset
    {
      selectedMedicationPreset := preset;
    }

    /**
     * `logSymptom`: with a symptom selected, append one entry for it at the selected
     * severity and date, reset the pickers and save; with none selected, do nothing.
     */
    method LogSymptom(freshId: Uuid)
      requires Valid() && !HasKey(loggedSymptom, SymptomId, freshId)
      modifies this`loggedSymptom, this`selectedPreset, this`selectedSeverity, this`symptomSlot
      ensures Valid()
      ensures old(selectedPreset) == "" ==>
        && loggedSymptom == old(loggedSymptom) && selectedPreset == old(selectedPreset)
        && selectedSeverity == old(selectedSeverity) && symptomSlot == old(symptomSlot)
      ensures old(selectedPreset) != "" ==>
        && loggedSymptom == old(loggedSymptom) + [Symptom(freshId, old(selectedPreset), old(selectedSeverity), selectedDate)]
        && selectedPreset == (if symptomPresets == [] then "" else symptomPresets[0])
        && selectedSeverity == 1
        && symptomSlot == Some(loggedSymptom)
    {
      if selectedPreset == "" {
        return;
      }
      var newSymptom := Symptom(freshId, selectedPreset, selectedSeverity, selectedDate);
      AppendKeepsKeysDistinct(loggedSymptom, SymptomId, newSymptom);
      loggedSymptom := loggedSymptom + [newSymptom];
      selectedPreset := if symptomPresets != [] then symptomPresets[0] else "";
      selectedSeverity := 1;
      SaveSymptom();
    }

    /**
     * `deleteSymptomManually`: remove the first entry equal to `symptom` and save; if
     * there is none, change nothing and do not save.
     */
    method DeleteSymptomManually(symptom: Symptom)
      requires Valid()
      modifies this`loggedSymptom, this`symptomSlot
      ensures Valid()
      ensures match FirstIndex(old(loggedSymptom), symptom)
        case None => loggedSymptom == old(loggedSymptom) && symptomSlot == old(symptomSlot)
        case Some(k) => loggedSymptom == RemoveAt(old(loggedSymptom), k) && symptomSlot == Some(loggedSymptom)
      ensures symptom !in loggedSymptom
    {
      var index := FirstIndex(loggedSymptom, symptom);
      if index.Some? {
        KeysDistinctNoDuplicates(loggedSymptom, SymptomId);
        RemoveOnlyOccurrence(loggedSymptom, index.value);
        RemoveKeepsKeysDistinct(loggedSymptom, SymptomId, index.value);
        loggedSymptom := RemoveAt(loggedSymptom, index.value);
        SaveSymptom();
      }
    }

    /**
     * `deleteMedicationManually`: remove the first dose equal to `medication` and save;
     * if there is none, change nothing and do not save.
     */
    method DeleteMedicationManually(medication: Medication)
      requires Valid()
      modifies this`loggedMedications, this`medicationSlot
      ensures Valid()
      ensures match FirstIndex(old(loggedMedications), medication)
        case None => loggedMedications == old(loggedMedications) && medicationSlot == old(medicationSlot)
        case Some(k) => loggedMedications == RemoveAt(old(loggedMedications), k) && medicationSlot == Some(loggedMedications)
      ensures medication !in loggedMedications
    {
      var index := FirstIndex(loggedMedications, medication);
      if index.Some? {
        KeysDistinctNoDuplicates(loggedMedications, MedicationId);
        RemoveOnlyOccurrence(loggedMedications, index.value);
        RemoveKeepsKeysDistinct(loggedMedications, MedicationId, index.value);
        loggedMedications := RemoveAt(loggedMedications, index.value);
        SaveMedication();
      }
    }

    /**
     * `addSymptomToPreset`: add the trimmed typed name to the symptom list and select
     * it, unless it is blank or already listed.
     */
    method AddSymptomToPreset()
      requires Valid()
      modifies this`symptomPresets, this`selectedPreset, this`newSymptomName
      ensures Valid()
      ensures Admissible(old(symptomPresets), Trim(old(newSymptomName))) ==>
        && symptomPresets == old(symptomPresets) + [Trim(old(newSymptomName))]
        && selectedPreset == Trim(old(newSymptomName)) && newSymptomName == ""
      ensures !Admissible(old(symptomPresets), Trim(old(newSymptomName))) ==>
        && symptomPresets == old(symptomPresets) && selectedPreset == old(selectedPreset) && newSymptomName == old(newSymptomName)
    {
      var trimmed := Trim(newSymptomName);
      if !Admissible(symptomPresets, trimmed) {
        return;
      }
      AppendKeepsNoDuplicates(symptomPresets, trimmed);
      symptomPresets := symptomPresets + [trimmed];
      selectedPreset := trimmed;
      newSymptomName := "";
    }

    /**
     * `addMedicationToPreset` as written: the candidate is read from the symptom name
     * field, while the medication name field is the one cleared on success.
     */
    method AddMedicationToPreset()
      requires Valid()
      modifies this`medicationPresets, this`selectedMedicationPreset, this`newMedicationName
      ensures Valid()
      ensures Admissible(old(medicationPresets), Trim(newSymptomName)) ==>
        && medicationPresets == old(medicationPresets) + [Trim(newSymptomName)]
        && selectedMedicationPreset == Trim(newSymptomName) && newMedicationName == ""
      ensures !Admissible(old(medicationPresets), Trim(newSymptomName)) ==>
        && medicationPresets == old(medicationPresets) && selectedMedicationPreset == old(selectedMedicationPreset) && newMedicationName == old(newMedicationName)
    {
      var trimmed := Trim(newSymptomName);
      if !Admissible(medicationPresets, trimmed) {
        return;
      }
      AppendKeepsNoDuplicates(medicationPresets, trimmed);
      medicationPresets := medicationPresets + [trimmed];
      selectedMedicationPreset := trimmed;
      newMedicationName := "";
    }

    /**
     * `addMedicationToPreset` as its button evidently means it: the candidate is the
     * trimmed medication name field, the one that enables the button.
     */
    method AddMedicationToPresetIntended()
      requires Valid()
      modifies this`medicationPresets, this`selectedMedicationPreset, this`newMedicationName
      ensures Valid()
      ensures Admissible(old(medicationPresets), Trim(old(newMedicationName))) ==>
        && medicationPresets == old(medicationPresets) + [Trim(old(newMedicationName))]
        && selectedMedicationPreset == Trim(old(newMedicationName)) && newMedicationName == ""
      ensures !Admissible(old(medicationPresets), Trim(old(newMedicationName))) ==>
        && medicationPresets == old(medicationPresets) && selectedMedicationPreset == old(selectedMedicationPreset) && newMedicationName == old(newMedicationName)
    {
      var trimmed := Trim(newMedicationName);
      if !Admissible(medicationPresets, trimmed) {
        return;
      }
      AppendKeepsNoDuplicates(medicationPresets, trimmed);
      medicationPresets := medicationPresets + [trimmed];
      selectedMedicationPreset := trimmed;
      newMedicationName := "";
    }

    /**
     * The "Log Medication" button: always append one dose named by the medication name
     * field at the chosen time, save, and reset the field and the time picker to `now`.
     */
    method LogMedication(freshId: Uuid, now: Moment)
      requires Valid() && !HasKey(loggedMedications, MedicationId, freshId)
      modifies this`loggedMedications, this`medicationSlot, this`newMedicationName, this`selectedMedicationDate
      ensures Valid()
      ensures loggedMedications == old(loggedMedications) + [Medication(freshId, old(newMedicationName), old(selectedMedicationDate))]
      ensures medicationSlot == Some(loggedMedications)
      ensures newMedicationName == "" && selectedMedicationDate == now
    {
      var newMedication := Medication(freshId, newMedicationName, selectedMedicationDate);
      AppendKeepsKeysDistinct(loggedMedications, MedicationId, newMedication);
      loggedMedications := loggedMedications + [newMedication];
      SaveMedication();
      newMedicationName := "";
      selectedMedicationDate := now;
    }

    /**
     * The peak-flow "Save" button: when the typed value parses as an `Int`, append one
     * reading of it stamped `now`, save and clear the field; otherwise change nothing.
     */
    method LogPeakFlow(freshId: Uuid, now: Moment)
      requires Valid() && !HasKey(loggedPeakflows, PeakFlowId, freshId)
      modifies this`loggedPeakflows, this`peakFlowSlot, this`peakFlowValue
      ensures Valid()
      ensures match ParseInt(old(peakFlowValue))
        case None =>
          && loggedPeakflows == old(loggedPeakflows) && peakFlowSlot == old(peakFlowSlot)
          && peakFlowValue == old(peakFlowValue)
        case Some(v) =>
          && loggedPeakflows == old(loggedPeakflows) + [PeakFlowEntry(freshId, v, now)]
          && peakFlowSlot == Some(loggedPeakflows) && peakFlowValue == ""
    {
      var parsed := ParseInt(peakFlowValue);
      if parsed.Some? {
        var newEntry := PeakFlowEntry(freshId, parsed.value, now);
        AppendKeepsKeysDistinct(loggedPeakflows, PeakFlowId, newEntry);
        loggedPeakflows := loggedPeakflows + [newEntry];
        SavePeakFlow();
        peakFlowValue := "";
      }
    }
  }

  /**
   * Logging "Coughing" at severity 3 on a fresh screen stores exactly that record;
   * deleting it again stores an empty log.
   */
  method LogThenDeleteScenario(t1: Moment, id: Uuid) returns (afterLog: Option<seq<Symptom>>, afterDelete: Option<seq<Symptom>>)
    ensures afterLog == Some([Symptom(id, "Coughing", 3, t1)])
    ensures afterDelete == Some([])
  {
    var view := new ContentView(t1);
    view.SelectSeverity(3);
    view.LogSymptom(id);
    var logged := Symptom(id, "Coughing", 3, t1);
    assert view.loggedSymptom == [logged];
    afterLog := view.symptomSlot;
    assert FirstIndex([logged], logged) == Some(0);
    view.DeleteSymptomManually(logged);
    assert view.loggedSymptom == [];
    afterDelete := view.symptomSlot;
  }

  /**
   * As written, typing a name (for instance "Nebulizer") into the medication name field
   * of a fresh screen and pressing "Add" adds nothing and leaves the field as typed,
   * because the candidate comes from the still empty symptom name field.
   */
  method AddMedicationScenarioAsWritten(now: Moment, name: string) returns (before: seq<string>, after: seq<string>, field: string)
    ensures after == before
    ensures field == name
  {
    var view := new ContentView(now);
    view.newMedicationName := name;
    before := view.medicationPresets;
    view.AddMedicationToPreset();
    after := view.medicationPresets;
    field := view.newMedicationName;
  }

  /**
   * As intended, a typed medication name that is not listed yet (for instance
   * "Nebulizer") is added once and selected; adding it a second time is rejected and
   * leaves the list as it was.
   */
  method AddMedicationTwiceScenario(now: Moment, name: string) returns (selected: string, first: seq<string>, second: seq<string>)
    requires Admissible(DEFAULT_MEDICATION_PRESETS, Trim(name))
    ensures selected == Trim(name)
    ensures first == DEFAULT_MEDICATION_PRESETS + [Trim(name)]
    ensures second == first
  {
    var view := new ContentView(now);
    view.newMedicationName := name;
    view.AddMedicationToPresetIntended();
    selected := view.selectedMedicationPreset;
    first := view.medicationPresets;
    assert !Admissible(first, Trim(name)) by {
      assert first[|first| - 1] == Trim(name);
    }
    view.newMedicationName := name;
    view.AddMedicationToPresetIntended();
    second := view.medicationPresets;
  }
}
