/** Section A of the PSUR schema, `A_executive_summary` (template.py:148-208). */
module SectionA {
  import opened Json
  import opened Schema
  import opened Fields
  import opened Tables

  /** `executive_summary` (template.py:148-208). */
  method ExecutiveSummary() returns (r: Schema)
    ensures Sound(r)
  {
    var previousPsurActionsStatus := PreviousPsurActionsStatus();
    r := Object(Some(["previous_psur_actions_status", "notified_body_review_status", "data_collection_period_changes", "benefit_risk_assessment_conclusion"]), map[
      "previous_psur_actions_status" := previousPsurActionsStatus,
      "notified_body_review_status" := Object(Some(["previous_psur_reviewed_by_notified_body"]), map[
        "previous_psur_reviewed_by_notified_body" := Select("YesNoNA"),
        "notified_body_actions_taken" := Leaf(TextArea),
        "status_of_nb_actions" := Leaf(TextArea)],
      []),
      "data_collection_period_changes" := Object(Some(["data_collection_period_changed"]), map[
        "data_collection_period_changed" := Select("TriState"),
        "justification_for_change" := Leaf(TextArea),
        "impact_on_comparability" := Leaf(TextArea)],
      [
        WhenEquals("data_collection_period_changed", Str("YES"), ["justification_for_change", "impact_on_comparability"])]),
      "benefit_risk_assessment_conclusion" := Object(Some(["conclusion"]), map[
        "conclusion" := Leaf(Choice(["NOT_ADVERSELY_IMPACTED_UNCHANGED", "ADVERSELY_IMPACTED", "NOT_SELECTED"], "NOT_SELECTED")),
        "high_level_summary_if_adversely_impacted" := Leaf(TextArea)],
      [
        WhenEquals("conclusion", Str("ADVERSELY_IMPACTED"), ["high_level_summary_if_adversely_impacted"])])],
    []);
  }

  /** `previous_psur_actions_status` (template.py:153-169). */
  method PreviousPsurActionsStatus() returns (r: Schema)
    ensures Sound(r)
  {
    r := Object(Some(["actions_and_status_from_previous_report", "status_of_previous_actions"]), map[
      "actions_and_status_from_previous_report" := Leaf(TextArea),
      "status_of_previous_actions" := Object(Some(["status"]), map[
        "status" := Leaf(Choice(["COMPLETED", "IN_PROGRESS", "NOT_STARTED", "NOT_APPLICABLE", "NOT_SELECTED"], "NOT_SELECTED")),
        "details_if_needed" := Leaf(TextArea)],
      [])],
    []);
  }
}
