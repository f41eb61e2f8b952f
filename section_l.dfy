/** Section L of the PSUR schema, `L_pmcf` (template.py:827-844). */
module SectionL {
  import opened Json
  import opened Schema
  import opened Fields
  import opened Tables

  /** `pmcf` (template.py:827-844). */
  method Pmcf() returns (r: Schema)
    ensures Sound(r)
  {
    var table11PmcfActivities := Table11PmcfActivities();
    r := Object(Some(["summary_or_na_statement", "table_11_pmcf_activities"]), map[
      "summary_or_na_statement" := Leaf(TextArea),
      "table_11_pmcf_activities" := table11PmcfActivities],
    []);
  }

  /** `table_11_pmcf_activities` (template.py:833-842). */
  method Table11PmcfActivities() returns (r: Schema)
    ensures Sound(r) && MinItems(r) == Some(Int(0))
  {
    r := TableArray(["specific_pmcf_activities", "key_findings", "impact_on_safety_performance"], map[
      "specific_pmcf_activities" := Leaf(TextArea),
      "key_findings" := Leaf(TextArea),
      "impact_on_safety_performance" := Leaf(TextArea),
      "rmf_or_cer_update" := Leaf(TextArea),
      "pmcf_evaluation_report_reference" := Leaf(Text)], 0);
  }
}
