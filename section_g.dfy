/** Section G of the PSUR schema, `G_information_from_trend_reporting` (template.py:704-740). */
module SectionG {
  import opened Json
  import opened Schema
  import opened Fields
  import opened Tables

  /** `information_from_trend_reporting` (template.py:704-740). */
  method InformationFromTrendReporting() returns (r: Schema)
    ensures Sound(r)
  {
    var trendReports := TrendReports();
    r := Object(Some(["overall_monthly_complaint_rate_trending", "trend_reporting_summary"]), map[
      "overall_monthly_complaint_rate_trending" := Object(Some(["breaches_commentary_and_actions"]), map[
        "graph_reference" := Leaf(Text),
        "upper_control_limit_definition" := Leaf(TextArea),
        "breaches_commentary_and_actions" := Leaf(TextArea)],
      []),
      "trend_reporting_summary" := Object(Some(["trend_reports"]), map[
        "statement_if_not_applicable" := Leaf(TextArea),
        "trend_reports" := trendReports],
      [])],
    []);
  }

  /** `trend_reports` (template.py:725-736). */
  method TrendReports() returns (r: Schema)
    ensures Sound(r) && MinItems(r) == Some(Int(0))
  {
    r := TableArray(["affected_device_models_or_trade_names", "manufacturer_reference_number", "date_trend_first_identified", "current_status_of_trend_investigation"], map[
      "affected_device_models_or_trade_names" := Leaf(TextArea),
      "manufacturer_reference_number" := Leaf(Text),
      "date_trend_first_identified" := Leaf(Date),
      "date_reported_to_mhra_if_applicable" := Leaf(Date),
      "current_status_of_trend_investigation" := Leaf(TextArea),
      "corrective_or_preventive_actions_resulted" := Leaf(TextArea),
      "fsca_reference_number_if_relevant" := Leaf(Text)], 0);
  }
}
