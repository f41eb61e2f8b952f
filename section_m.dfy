/** Section M of the PSUR schema, `M_findings_and_conclusions` (template.py:847-875). */
module SectionM {
  import opened Json
  import opened Schema
  import opened Fields
  import opened Tables

  /** `findings_and_conclusions` (template.py:847-875). */
  method FindingsAndConclusions() returns (r: Schema)
    ensures Sound(r)
  {
    var actionsTakenOrPlanned := ActionsTakenOrPlanned();
    r := Object(Some(["benefit_risk_profile_conclusion", "overall_performance_conclusion", "actions_taken_or_planned"]), map[
      "benefit_risk_profile_conclusion" := Leaf(TextArea),
      "intended_benefits_achieved" := Leaf(TextArea),
      "limitations_of_data_and_conclusion" := Leaf(TextArea),
      "new_or_emerging_risks_or_new_benefits" := Leaf(TextArea),
      "actions_taken_or_planned" := actionsTakenOrPlanned,
      "overall_performance_conclusion" := Leaf(TextArea)],
    []);
  }

  /** `actions_taken_or_planned` (template.py:856-872). */
  method ActionsTakenOrPlanned() returns (r: Schema)
    ensures Sound(r)
  {
    r := Object(Some(["action_details_and_follow_up"]), map[
      "benefit_risk_assessment_update" := Leaf(Flag),
      "risk_management_file_update" := Leaf(Flag),
      "product_design_update" := Leaf(Flag),
      "manufacturing_process_update" := Leaf(Flag),
      "ifu_or_labeling_update" := Leaf(Flag),
      "clinical_evaluation_report_update" := Leaf(Flag),
      "sscp_update_if_applicable" := Leaf(Flag),
      "capa_initiated" := Leaf(Flag),
      "fsca_initiated" := Leaf(Flag),
      "action_details_and_follow_up" := Leaf(TextArea)],
    []);
  }
}
