/** Section K of the PSUR schema, `K_review_of_external_databases_and_registries` (template.py:806-824). */
module SectionK {
  import opened Json
  import opened Schema
  import opened Fields
  import opened Tables

  /** `review_of_external_databases_and_registries` (template.py:806-824). */
  method ReviewOfExternalDatabasesAndRegistries() returns (r: Schema)
    ensures Sound(r)
  {
    var table10AdverseEventsAndRecalls := Table10AdverseEventsAndRecalls();
    r := Object(Some(["registries_reviewed_summary", "table_10_adverse_events_and_recalls"]), map[
      "registries_reviewed_summary" := Leaf(TextArea),
      "table_10_adverse_events_and_recalls" := table10AdverseEventsAndRecalls],
    []);
  }

  /** `table_10_adverse_events_and_recalls` (template.py:812-822). */
  method Table10AdverseEventsAndRecalls() returns (r: Schema)
    ensures Sound(r) && MinItems(r) == Some(Int(0))
  {
    r := TableArray(["database_or_registry", "total_matches", "relevant_findings"], map[
      "database_or_registry" := Leaf(Text),
      "total_matches" := Leaf(Count),
      "relevant_findings" := Leaf(TextArea),
      "benchmark_vs_similar_devices" := Leaf(TextArea),
      "regulatory_actions_affecting_similar_devices" := Leaf(TextArea),
      "rmf_update_reference" := Leaf(Text)], 0);
  }
}
