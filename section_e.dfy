/** Section E of the PSUR schema, `E_customer_feedback` (template.py:591-607). */
module SectionE {
  import opened Json
  import opened Schema
  import opened Fields
  import opened Tables

  /** `customer_feedback` (template.py:591-607). */
  method CustomerFeedback() returns (r: Schema)
    ensures Sound(r)
  {
    var table6FeedbackByTypeAndSource := Table6FeedbackByTypeAndSource();
    r := Object(Some(["summary", "table_6_feedback_by_type_and_source"]), map[
      "summary" := Leaf(TextArea),
      "table_6_feedback_by_type_and_source" := table6FeedbackByTypeAndSource],
    []);
  }

  /** `table_6_feedback_by_type_and_source` (template.py:597-605). */
  method Table6FeedbackByTypeAndSource() returns (r: Schema)
    ensures Sound(r) && MinItems(r) == Some(Int(0))
  {
    r := TableArray(["feedback_type", "source", "count", "summary"], map[
      "feedback_type" := Leaf(Text),
      "source" := Leaf(Text),
      "count" := Leaf(Count),
      "summary" := Leaf(TextArea)], 0);
  }
}
