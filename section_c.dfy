/** Section C of the PSUR schema, `C_volume_of_sales_and_population_exposure` (template.py:436-545). */
module SectionC {
  import opened Json
  import opened Schema
  import opened Fields
  import opened Tables

  /** `volume_of_sales_and_population_exposure` (template.py:436-545). */
  method VolumeOfSalesAndPopulationExposure() returns (r: Schema)
    ensures Sound(r)
    ensures SelectsFormatAt(r, "table_1_sales_by_region")
  {
    var criteriaUsedForSalesData := CriteriaUsedForSalesData();
    var table1SalesByRegion := Table1SalesByRegion();
    var sizeAndCharacteristicsOfPopulationUsingDevice := SizeAndCharacteristicsOfPopulationUsingDevice();
    r := Object(Some(["sales_methodology", "table_1_sales_by_region", "sales_data_analysis", "size_and_characteristics_of_population_using_device"]), map[
      "sales_methodology" := Object(Some(["criteria_used_for_sales_data", "market_history"]), map[
        "criteria_used_for_sales_data" := criteriaUsedForSalesData,
        "market_history" := Leaf(TextArea)],
      []),
      "table_1_sales_by_region" := table1SalesByRegion,
      "sales_data_analysis" := Object(Some(["narrative_analysis"]), map[
        "sales_trend_over_time_chart_reference" := Leaf(Text),
        "narrative_analysis" := Leaf(TextArea)],
      []),
      "size_and_characteristics_of_population_using_device" := sizeAndCharacteristicsOfPopulationUsingDevice],
    []);
  }

  /** `criteria_used_for_sales_data` (template.py:446-466). */
  method CriteriaUsedForSalesData() returns (r: Schema)
    ensures Sound(r)
  {
    var other := Other();
    r := Object(None, map[
      "devices_placed_on_market_or_put_into_service" := Leaf(Flag),
      "units_distributed_from_doc_or_ec_eu_mark_approval_to_end_date" := Leaf(Flag),
      "units_distributed_within_each_time_period" := Leaf(Flag),
      "episodes_of_use_for_reusable_devices" := Leaf(Flag),
      "active_installed_base" := Leaf(Flag),
      "units_implanted" := Leaf(Flag),
      "other" := other],
    []);
  }

  /** `other` (template.py:456-464). */
  method Other() returns (r: Schema)
    ensures Sound(r)
  {
    r := Object(Some(["selected", "rationale"]), map[
      "selected" := Leaf(Flag),
      "rationale" := Leaf(TextArea)],
    []);
  }

  /** `table_1_sales_by_region` (template.py:470-515). */
  method Table1SalesByRegion() returns (r: Schema)
    ensures Sound(r)
    ensures SelectsOneFormat(r, "use_if_psur_frequency", "annual_format", "every_two_years_format")
  {
    var annualFormatRows := AnnualFormatRows();
    var everyTwoYearsFormatRows := EveryTwoYearsFormatRows();
    r := Object(Some(["use_if_psur_frequency"]), map[
      "use_if_psur_frequency" := Leaf(Frequency),
      "annual_format" := Object(None, map[
        "date_ranges" := DateRanges(4),
        "rows" := annualFormatRows],
      []),
      "every_two_years_format" := Object(None, map[
        "date_ranges" := DateRanges(4),
        "rows" := everyTwoYearsFormatRows],
      [])],
    [
      WhenEquals("use_if_psur_frequency", Str("ANNUALLY"), ["annual_format"]),
      WhenEquals("use_if_psur_frequency", Str("EVERY_TWO_YEARS"), ["every_two_years_format"])]);
    FormatRules("use_if_psur_frequency", "annual_format", "every_two_years_format");
  }

  /** `rows` (template.py:481-489). */
  method AnnualFormatRows() returns (r: Schema)
    ensures Sound(r) && MinItems(r) == Some(Int(0))
  {
    r := TableArray(["region", "preceding_12_month_periods", "current_data_collection_period"], map[
      "region" := Leaf(Text),
      "preceding_12_month_periods" := Amounts(3),
      "current_data_collection_period" := Leaf(Amount),
      "percent_of_global_sales" := Leaf(Percent)], 0);
  }

  /** `rows` (template.py:497-505). */
  method EveryTwoYearsFormatRows() returns (r: Schema)
    ensures Sound(r) && MinItems(r) == Some(Int(0))
  {
    r := TableArray(["region", "period_values_12_month_each", "total_24_month"], map[
      "region" := Leaf(Text),
      "period_values_12_month_each" := Amounts(4),
      "total_24_month" := Leaf(Amount),
      "percent_of_global_sales_24_month" := Leaf(Percent)], 0);
  }

  /** `size_and_characteristics_of_population_using_device` (template.py:525-543). */
  method SizeAndCharacteristicsOfPopulationUsingDevice() returns (r: Schema)
    ensures Sound(r)
  {
    r := Object(Some(["usage_frequency", "estimated_size_of_patient_population_exposed", "characteristics_of_patient_population_exposed"]), map[
      "usage_frequency" := Object(Some(["single_use_per_patient", "multiple_uses_per_patient"]), map[
        "single_use_per_patient" := Select("TriState"),
        "multiple_uses_per_patient" := Select("TriState"),
        "average_uses_per_patient" := Leaf(Rate)],
      []),
      "estimated_size_of_patient_population_exposed" := Leaf(TextArea),
      "characteristics_of_patient_population_exposed" := Leaf(TextArea)],
    []);
  }
}
