/** Section D of the PSUR schema, `D_information_on_serious_incidents` (template.py:548-588). */
module SectionD {
  import opened Json
  import opened Schema
  import opened Fields
  import opened Tables

  /** `information_on_serious_incidents` (template.py:548-588). */
  method InformationOnSeriousIncidents() returns (r: Schema)
    ensures Sound(r)
  {
    var table2SeriousIncidentsByImdrfAnnexAByRegion := Table2SeriousIncidentsByImdrfAnnexAByRegion();
    var table3SeriousIncidentsByImdrfAnnexCInvestigationFindingsByRegion := Table3SeriousIncidentsByImdrfAnnexCInvestigationFindingsByRegion();
    var table4HealthImpactByInvestigationConclusion := Table4HealthImpactByInvestigationConclusion();
    r := Object(Some(["narrative_summary", "table_2_serious_incidents_by_imdrf_annex_a_by_region", "table_3_serious_incidents_by_imdrf_annex_c_investigation_findings_by_region", "table_4_health_impact_by_investigation_conclusion"]), map[
      "narrative_summary" := Leaf(TextArea),
      "table_2_serious_incidents_by_imdrf_annex_a_by_region" := table2SeriousIncidentsByImdrfAnnexAByRegion,
      "table_3_serious_incidents_by_imdrf_annex_c_investigation_findings_by_region" := table3SeriousIncidentsByImdrfAnnexCInvestigationFindingsByRegion,
      "table_4_health_impact_by_investigation_conclusion" := table4HealthImpactByInvestigationConclusion,
      "new_incident_types_identified_this_cycle" := Leaf(TextArea)],
    []);
  }

  /** `table_2_serious_incidents_by_imdrf_annex_a_by_region` (template.py:554-563). */
  method Table2SeriousIncidentsByImdrfAnnexAByRegion() returns (r: Schema)
    ensures Sound(r) && MinItems(r) == Some(Int(0))
  {
    r := TableArray(["region", "imdrf_problem_code_and_term", "n_current_period"], map[
      "region" := Leaf(Text),
      "imdrf_problem_code_and_term" := Leaf(Text),
      "n_current_period" := Leaf(Count),
      "rate_percent" := Leaf(Percent),
      "complaint_number" := Leaf(Text)], 0);
  }

  /** `table_3_serious_incidents_by_imdrf_annex_c_investigation_findings_by_region` (template.py:564-573). */
  method Table3SeriousIncidentsByImdrfAnnexCInvestigationFindingsByRegion() returns (r: Schema)
    ensures Sound(r) && MinItems(r) == Some(Int(0))
  {
    r := TableArray(["region", "imdrf_cause_code_and_term", "n_current_period"], map[
      "region" := Leaf(Text),
      "imdrf_cause_code_and_term" := Leaf(Text),
      "n_current_period" := Leaf(Count),
      "rate_percent" := Leaf(Percent),
      "complaint_number" := Leaf(Text)], 0);
  }

  /** `table_4_health_impact_by_investigation_conclusion` (template.py:574-585). */
  method Table4HealthImpactByInvestigationConclusion() returns (r: Schema)
    ensures Sound(r) && MinItems(r) == Some(Int(0))
  {
    var investigationConclusion := InvestigationConclusion();
    r := TableArray(["region", "imdrf_health_impact_annex_f_code_and_term", "number_of_serious_incidents"], map[
      "region" := Leaf(Text),
      "imdrf_health_impact_annex_f_code_and_term" := Leaf(Text),
      "number_of_serious_incidents" := Leaf(Count),
      "investigation_conclusion_1" := investigationConclusion,
      "investigation_conclusion_2" := investigationConclusion,
      "investigation_conclusion_3" := investigationConclusion,
      "investigation_conclusion_4" := investigationConclusion], 0);
  }

  /** `investigation_conclusion` (template.py:580-583). */
  method InvestigationConclusion() returns (r: Schema)
    ensures Sound(r)
  {
    r := Object(None, map[
      "code_and_term" := Leaf(Text),
      "percent" := Leaf(Percent)],
    []);
  }
}
