/** Section J of the PSUR schema, `J_scientific_literature_review` (template.py:789-803). */
module SectionJ {
  import opened Json
  import opened Schema
  import opened Fields
  import opened Tables

  /** `scientific_literature_review` (template.py:789-803). */
  method ScientificLiteratureReview() returns (r: Schema)
    ensures Sound(r)
  {
    r := Object(Some(["literature_search_methodology", "summary_of_new_data_performance_or_safety"]), map[
      "literature_search_methodology" := Leaf(TextArea),
      "number_of_relevant_articles_identified" := Leaf(Count),
      "summary_of_new_data_performance_or_safety" := Leaf(TextArea),
      "newly_observed_uses" := Leaf(TextArea),
      "previously_unassessed_risks" := Leaf(TextArea),
      "state_of_the_art_changes" := Leaf(TextArea),
      "comparison_with_similar_devices" := Leaf(TextArea),
      "technical_documentation_search_results_reference" := Leaf(TextInput(false, None, None, Some(Widget("text"))))],
    []);
  }
}
