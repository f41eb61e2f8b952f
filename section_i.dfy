/** Section I of the PSUR schema, `I_corrective_and_preventive_actions` (template.py:766-786). */
module SectionI {
  import opened Json
  import opened Schema
  import opened Fields
  import opened Tables

  /** `corrective_and_preventive_actions` (template.py:766-786). */
  method CorrectiveAndPreventiveActions() returns (r: Schema)
    ensures Sound(r)
  {
    var table9CapaInitiatedCurrentReportingPeriod := Table9CapaInitiatedCurrentReportingPeriod();
    r := Object(Some(["summary_or_na_statement", "table_9_capa_initiated_current_reporting_period"]), map[
      "summary_or_na_statement" := Leaf(TextArea),
      "table_9_capa_initiated_current_reporting_period" := table9CapaInitiatedCurrentReportingPeriod],
    []);
  }

  /** `table_9_capa_initiated_current_reporting_period` (template.py:772-784). */
  method Table9CapaInitiatedCurrentReportingPeriod() returns (r: Schema)
    ensures Sound(r) && MinItems(r) == Some(Int(0))
  {
    r := TableArray(["capa_number_or_manufacturer_reference_number", "initiation_date", "scope_of_capa", "status_of_capa", "capa_description", "root_cause", "effectiveness_of_capa", "target_date_for_completion_if_ongoing"], map[
      "capa_number_or_manufacturer_reference_number" := Leaf(Text),
      "initiation_date" := Leaf(Date),
      "scope_of_capa" := Leaf(TextArea),
      "status_of_capa" := Leaf(Text),
      "capa_description" := Leaf(TextArea),
      "root_cause" := Leaf(TextArea),
      "effectiveness_of_capa" := Leaf(TextArea),
      "target_date_for_completion_if_ongoing" := Leaf(Date)], 0);
  }
}
