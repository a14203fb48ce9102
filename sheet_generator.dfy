/**
 * The second copy of the change-sheet and workflow-sheet generators, kept in
 * its own file by the repository with the same text. Each operation here is
 * the corresponding one of `ChangesheetGenerator`.
 */
module SheetGenerator {
  import opened Common
  import opened Frames
  import ChangesheetGenerator

  function ChangeSheetInitializeEmptyDf(): (t: Table)
    ensures WellFormed(t) && t.rows == []
    ensures t.columns == ["id", "action", "attribute", "value"]
  {
    ChangesheetGenerator.ChangeSheetInitializeEmptyDf()
  }

  function ChangeSheetAddRow(df: Table, id: string, action: string, attribute: string, value: string): (t: Table)
    requires WellFormed(df)
    ensures WellFormed(t) && |t.rows| == |df.rows| + 1
    ensures |df.columns| <= |t.columns| && t.columns[..|df.columns|] == df.columns
    ensures var last := t.rows[|df.rows|];
      Get(last, "id") == Str(id) && Get(last, "action") == Str(action)
      && Get(last, "attribute") == Str(attribute) && Get(last, "value") == Str(value)
    ensures forall i, c :: 0 <= i < |df.rows| && c in df.rows[i] ==> c in t.rows[i] && t.rows[i][c] == df.rows[i][c]
  {
    ChangesheetGenerator.ChangeSheetAddRow(df, id, action, attribute, value)
  }

  function WorkflowSheetInitializeEmptyDf(): (t: Table)
    ensures WellFormed(t) && t.rows == []
    ensures t.columns == ["biosample_id", "raw_data_identifier", "last_processed_sample"]
  {
    ChangesheetGenerator.WorkflowSheetInitializeEmptyDf()
  }

  function WorkflowSheetAddRow(df: Table, biosampleId: string, rawDataIdentifier: string, lastProcessedSample: string): (t: Table)
    requires WellFormed(df)
    ensures WellFormed(t) && |t.rows| == |df.rows| + 1
    ensures |df.columns| <= |t.columns| && t.columns[..|df.columns|] == df.columns
    ensures var last := t.rows[|df.rows|];
      Get(last, "biosample_id") == Str(biosampleId) && Get(last, "raw_data_identifier") == Str(rawDataIdentifier)
      && Get(last, "last_processed_sample") == Str(lastProcessedSample)
    ensures forall i, c :: 0 <= i < |df.rows| && c in df.rows[i] ==> c in t.rows[i] && t.rows[i][c] == df.rows[i][c]
  {
    ChangesheetGenerator.WorkflowSheetAddRow(df, biosampleId, rawDataIdentifier, lastProcessedSample)
  }
}
