/** Section H of the PSUR schema, `H_information_from_fsca` (template.py:743-763). */
module SectionH {
  import opened Json
  import opened Schema
  import opened Fields
  import opened Tables

  /** `information_from_fsca` (template.py:743-763). */
  method InformationFromFsca() returns (r: Schema)
    ensures Sound(r)
  {
    var table8FscaInitiatedCurrentPeriodAndOpenFscas := Table8FscaInitiatedCurrentPeriodAndOpenFscas();
    r := Object(Some(["summary_or_na_statement", "table_8_fsca_initiated_current_period_and_open_fscas"]), map[
      "summary_or_na_statement" := Leaf(TextArea),
      "table_8_fsca_initiated_current_period_and_open_fscas" := table8FscaInitiatedCurrentPeriodAndOpenFscas],
    []);
  }

  /** `table_8_fsca_initiated_current_period_and_open_fscas` (template.py:749-761). */
  method Table8FscaInitiatedCurrentPeriodAndOpenFscas() returns (r: Schema)
    ensures Sound(r) && MinItems(r) == Some(Int(0))
  {
    r := TableArray(["type_of_action", "manufacturer_reference_number", "issuing_date_or_date_of_final_fsn", "scope_of_fsca_device_models_within_scope", "status_of_fsca", "rationale_and_description_of_action_taken", "impacted_regions"], map[
      "type_of_action" := Leaf(Text),
      "manufacturer_reference_number" := Leaf(Text),
      "issuing_date_or_date_of_final_fsn" := Leaf(Date),
      "scope_of_fsca_device_models_within_scope" := Leaf(TextArea),
      "status_of_fsca" := Leaf(Text),
      "rationale_and_description_of_action_taken" := Leaf(TextArea),
      "impacted_regions" := Leaf(TextArea),
      "date_reported_to_mhra_if_applicable" := Leaf(Date)], 0);
  }
}
