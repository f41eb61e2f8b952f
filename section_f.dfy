/** Section F of the PSUR schema, `F_product_complaint_types_counts_and_rates` (template.py:610-701). */
module SectionF {
  import opened Json
  import opened Schema
  import opened Fields
  import opened Tables

  /** `product_complaint_types_counts_and_rates` (template.py:610-701). */
  method ProductComplaintTypesCountsAndRates() returns (r: Schema)
    ensures Sound(r)
    ensures SelectsFormatAt(r, "table_7_complaint_rate_and_count")
  {
    var table7ComplaintRateAndCount := Table7ComplaintRateAndCount();
    r := Object(Some(["complaint_rate_calculation", "annual_number_of_complaints_and_complaint_rate_by_harm_and_medical_device_problem", "table_7_complaint_rate_and_count"]), map[
      "complaint_rate_calculation" := Object(Some(["method_description_and_justification"]), map[
        "method_description_and_justification" := Leaf(TextArea)],
      []),
      "annual_number_of_complaints_and_complaint_rate_by_harm_and_medical_device_problem" := Object(Some(["risk_documentation_update_needed"]), map[
        "commentary_context_for_exceedances" := Leaf(TextArea),
        "risk_documentation_update_needed" := Select("TriState")],
      []),
      "table_7_complaint_rate_and_count" := table7ComplaintRateAndCount],
    []);
  }

  /** `table_7_complaint_rate_and_count` (template.py:632-699). */
  method Table7ComplaintRateAndCount() returns (r: Schema)
    ensures Sound(r)
    ensures SelectsOneFormat(r, "use_if_psur_frequency", "annual_format", "every_two_years_format")
  {
    var annualFormat := AnnualFormat();
    var everyTwoYearsFormatRows := EveryTwoYearsFormatRows();
    var everyTwoYearsFormatGrandTotal := EveryTwoYearsFormatGrandTotal();
    r := Object(Some(["use_if_psur_frequency"]), map[
      "use_if_psur_frequency" := Leaf(Frequency),
      "annual_format" := annualFormat,
      "every_two_years_format" := Object(Some(["date_ranges", "rows"]), map[
        "date_ranges" := DateRanges(2),
        "rows" := everyTwoYearsFormatRows,
        "grand_total" := everyTwoYearsFormatGrandTotal],
      [])],
    [
      WhenEquals("use_if_psur_frequency", Str("ANNUALLY"), ["annual_format"]),
      WhenEquals("use_if_psur_frequency", Str("EVERY_TWO_YEARS"), ["every_two_years_format"])]);
    FormatRules("use_if_psur_frequency", "annual_format", "every_two_years_format");
  }

  /** `annual_format` (template.py:638-663). */
  method AnnualFormat() returns (r: Schema)
    ensures Sound(r)
  {
    var annualFormatRows := AnnualFormatRows();
    r := Object(Some(["date_range", "rows"]), map[
      "date_range" := Leaf(Text),
      "rows" := annualFormatRows,
      "grand_total" := Object(None, map[
        "complaint_count" := Leaf(Count),
        "complaint_rate" := Leaf(Rate)],
      [])],
    []);
  }

  /** `rows` (template.py:644-653). */
  method AnnualFormatRows() returns (r: Schema)
    ensures Sound(r) && MinItems(r) == Some(Int(0))
  {
    r := TableArray(["harm", "medical_device_problem"], map[
      "harm" := Leaf(Text),
      "medical_device_problem" := Leaf(Text),
      "current_12_month_complaint_count" := Leaf(Count),
      "current_12_month_complaint_rate" := Leaf(Rate),
      "max_expected_rate_of_occurrence_from_ract" := Leaf(Rate)], 0);
  }

  /** `rows` (template.py:670-681). */
  method EveryTwoYearsFormatRows() returns (r: Schema)
    ensures Sound(r) && MinItems(r) == Some(Int(0))
  {
    r := TableArray(["harm", "medical_device_problem"], map[
      "harm" := Leaf(Text),
      "medical_device_problem" := Leaf(Text),
      "period_1_complaint_count" := Leaf(Count),
      "period_1_complaint_rate" := Leaf(Rate),
      "period_2_complaint_count" := Leaf(Count),
      "period_2_complaint_rate" := Leaf(Rate),
      "max_expected_rate_of_occurrence_from_ract" := Leaf(Rate)], 0);
  }

  /** `grand_total` (template.py:682-691). */
  method EveryTwoYearsFormatGrandTotal() returns (r: Schema)
    ensures Sound(r)
  {
    r := Object(None, map[
      "period_1_complaint_count" := Leaf(Count),
      "period_1_complaint_rate" := Leaf(Rate),
      "period_2_complaint_count" := Leaf(Count),
      "period_2_complaint_rate" := Leaf(Rate)],
    []);
  }
}
