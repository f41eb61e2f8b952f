/** The `uiSchema` block of scripts/generate_template_json.py: one titled entry per section, built by a
    loop over the section keys, the hint patched into section F, and the `ui:order` list. */
module UiSchema {
  import opened Json
  import Template

  /** `section_keys` (scripts/generate_template_json.py:236-250). */
  const SectionKeys: seq<string> := [
    "A_executive_summary", "B_scope_and_device_description", "C_volume_of_sales_and_population_exposure",
    "D_information_on_serious_incidents", "E_customer_feedback", "F_product_complaint_types_counts_and_rates",
    "G_information_from_trend_reporting", "H_information_from_fsca", "I_corrective_and_preventive_actions",
    "J_scientific_literature_review", "K_review_of_external_databases_and_registries", "L_pmcf",
    "M_findings_and_conclusions"]

  /** `section_titles` (scripts/generate_template_json.py:252-266). */
  const SectionTitles: map<string, string> := map[
    "A_executive_summary" := "Section A: Executive Summary",
    "B_scope_and_device_description" := "Section B: Scope and Device Description",
    "C_volume_of_sales_and_population_exposure" := "Section C: Volume of Sales and Population Exposure",
    "D_information_on_serious_incidents" := "Section D: Information on Serious Incidents",
    "E_customer_feedback" := "Section E: Customer Feedback",
    "F_product_complaint_types_counts_and_rates" := "Section F: Product Complaint Types, Complaint Counts, and Complaint Rates",
    "G_information_from_trend_reporting" := "Section G: Information from Trend Reporting",
    "H_information_from_fsca" := "Section H: Information from Field Safety Corrective Actions (FSCA)",
    "I_corrective_and_preventive_actions" := "Section I: Corrective and Preventive Actions",
    "J_scientific_literature_review" := "Section J: Scientific Literature Review",
    "K_review_of_external_databases_and_registries" := "Section K: Review of External Databases and Registries",
    "L_pmcf" := "Section L: Post-Market Clinical Follow-up (PMCF)",
    "M_findings_and_conclusions" := "Section M: Findings and Conclusions"]

  const FSection: string := "F_product_complaint_types_counts_and_rates"
  const HintKey: string := "table_7_complaint_rate_and_count"

  /** The packaging script lists the sections in the order the schema requires them. */
  lemma SectionKeysMatchSchema()
    ensures SectionKeys == Template.SectionOrder
  {
  }

  /** `section_titles` has a title for every section key and for nothing else. */
  lemma TitlesCoverKeys()
    ensures SectionTitles.Keys == set k | k in SectionKeys
  {
  }

  /** A `KeyError` names the key that was looked up and missing. */
  datatype Result<T> = Success(value: T) | KeyError(key: string)

  /** `{"ui:title": title}` */
  function TitleEntry(title: string): Json {
    Obj(map["ui:title" := Str(title)])
  }

  /** The loop `for sk in section_keys: ui_sections[sk] = {"ui:title": section_titles[sk]}`
      (scripts/generate_template_json.py:268-272): an entry per key, titled from `titles`; the first
      key without a title stops it with a `KeyError`. */
  method BuildUiSections(keys: seq<string>, titles: map<string, string>) returns (r: Result<map<string, Json>>)
    ensures r.Success? <==> forall i | 0 <= i < |keys| :: keys[i] in titles
    ensures r.Success? ==> r.value.Keys == set k | k in keys
    ensures r.Success? ==> forall k | k in r.value :: k in titles && r.value[k] == TitleEntry(titles[k])
    ensures r.KeyError? ==> exists i | 0 <= i < |keys| ::
      keys[i] == r.key && keys[i] !in titles && forall j | 0 <= j < i :: keys[j] in titles
  {
    var ui: map<string, Json> := map[];
    for i := 0 to |keys|
      invariant forall j | 0 <= j < i :: keys[j] in titles
      invariant ui.Keys == set j | 0 <= j < i :: keys[j]
      invariant forall k | k in ui :: k in titles && ui[k] == TitleEntry(titles[k])
    {
      if keys[i] !in titles {
        return KeyError(keys[i]);
      }
      ui := ui[keys[i] := TitleEntry(titles[keys[i]])];
    }
    assert (set j | 0 <= j < |keys| :: keys[j]) == set k | k in keys by {
      forall k | k in keys ensures exists j | 0 <= j < |keys| :: keys[j] == k {
        var j :| 0 <= j < |keys| && keys[j] == k;
      }
    }
    return Success(ui);
  }

  /** The renderer hint for Table 7 (scripts/generate_template_json.py:275-283). */
  function HierarchicalHint(): Json {
    Obj(map[
      "ui:field" := Str("HierarchicalTable"),
      "ui:options" := Obj(map[
        "gridLines" := Bool(true),
        "headerRepeat" := Bool(true),
        "rowIndentFieldWhen" := Obj(map["row_type" := Str("MEDICAL_DEVICE_PROBLEM")]),
        "cellTemplate" := Obj(map["current_period_value" := Str("stacked_rate_count")])])])
  }

  /** `ui_sections[F][HintKey] = {...}`: section F's entry, mutated in place, gains the Table 7 hint
      and keeps everything else; no other entry changes (scripts/generate_template_json.py:275-283). */
  method PatchSectionF(ui: map<string, Json>) returns (r: map<string, Json>)
    requires FSection in ui && ui[FSection].Obj?
    ensures r.Keys == ui.Keys
    ensures forall k | k in ui && k != FSection :: r[k] == ui[k]
    ensures r[FSection].Obj? && r[FSection].fields.Keys == ui[FSection].fields.Keys + {HintKey}
    ensures r[FSection].fields[HintKey] == HierarchicalHint()
    ensures forall k | k in ui[FSection].fields && k != HintKey :: r[FSection].fields[k] == ui[FSection].fields[k]
  {
    var entry := ui[FSection].fields;
    entry := entry[HintKey := HierarchicalHint()];
    r := ui[FSection := Obj(entry)];
  }

  /** `ui_sections` as the script leaves it: one entry per section key, each titled from the titles,
      and section F's entry also holding the Table 7 hint (scripts/generate_template_json.py:268-283). */
  method UiSections(keys: seq<string>, titles: map<string, string>) returns (ui: map<string, Json>)
    requires titles.Keys == set k | k in keys
    requires FSection in titles
    ensures ui.Keys == titles.Keys
    ensures forall k | k in ui ::
      (ui[k].Obj? && "ui:title" in ui[k].fields && ui[k].fields["ui:title"] == Str(titles[k]))
    ensures forall k | k in ui && k != FSection :: ui[k] == TitleEntry(titles[k])
    ensures ui[FSection].fields.Keys == {"ui:title", HintKey} && ui[FSection].fields[HintKey] == HierarchicalHint()
  {
    var r := BuildUiSections(keys, titles);
    assert FSection in r.value;
    ui := PatchSectionF(r.value);
  }

  /** `{"validateOn": "blur", "showErrors": "inline", "lockSectionOrder": True}` */
  function GlobalOptions(): Json {
    Obj(map["validateOn" := Str("blur"), "showErrors" := Str("inline"), "lockSectionOrder" := Bool(true)])
  }

  /** `{"ui:order": keys, **ui_sections}`: later keys win, as in a Python dictionary display. */
  function SectionsEntry(keys: seq<string>, ui: map<string, Json>): map<string, Json> {
    map["ui:order" := StrArr(keys)] + ui
  }

  /** `ui_schema` (scripts/generate_template_json.py:285-296). */
  function UiSchemaJson(keys: seq<string>, ui: map<string, Json>): Json {
    Obj(map["ui:globalOptions" := GlobalOptions(), "sections" := Obj(SectionsEntry(keys, ui))])
  }

  /** When no section is called `ui:order`, the spread keeps the order list and every entry. */
  lemma SectionsEntryKeepsOrder(keys: seq<string>, ui: map<string, Json>)
    requires "ui:order" !in ui
    ensures var s := SectionsEntry(keys, ui);
      && s.Keys == {"ui:order"} + ui.Keys
      && s["ui:order"] == StrArr(keys)
      && forall k | k in ui :: s[k] == ui[k]
  {
  }

  /** A section called `ui:order` would replace the order list: the keys must avoid that name. */
  lemma SectionsEntryOverwritesOrder(keys: seq<string>, ui: map<string, Json>)
    requires "ui:order" in ui
    ensures SectionsEntry(keys, ui)["ui:order"] == ui["ui:order"]
  {
  }

  /** No section key is `ui:order`. */
  lemma NoSectionIsOrder()
    ensures "ui:order" !in SectionKeys
  {
  }

  // ---------------------------------------------------------------------------------------------
  // Reading a `uiSchema` dictionary

  /** The `sections` entry of a `uiSchema` dictionary; empty when it is missing. */
  function SectionsOf(j: Json): map<string, Json> {
    if j.Obj? && "sections" in j.fields && j.fields["sections"].Obj? then j.fields["sections"].fields else map[]
  }

  /** The `ui:order` list of a `uiSchema` dictionary. */
  function OrderOf(j: Json): Option<seq<string>> {
    var s := SectionsOf(j);
    if "ui:order" in s && s["ui:order"].Arr? then Strings(s["ui:order"].items) else None
  }

  /** The `ui:title` of one section entry of a `uiSchema` dictionary. */
  function TitleOf(j: Json, key: string): Option<string> {
    var s := SectionsOf(j);
    if key in s && s[key].Obj? && "ui:title" in s[key].fields && s[key].fields["ui:title"].Str?
    then Some(s[key].fields["ui:title"].s)
    else None
  }

  /** `ui_schema` around `ui_sections` built from `keys` and `titles`: its `ui:order` is `keys`, every
      key has an entry titled from `titles`, and section F's entry carries the Table 7 hint. */
  method UiSchemaFor(keys: seq<string>, titles: map<string, string>) returns (j: Json)
    requires titles.Keys == set k | k in keys
    requires FSection in titles && "ui:order" !in keys
    ensures OrderOf(j) == Some(keys)
    ensures SectionsOf(j).Keys == {"ui:order"} + titles.Keys
    ensures forall k | k in titles :: TitleOf(j, k) == Some(titles[k])
    ensures HintsF(j)
  {
    var ui := UiSections(keys, titles);
    SectionsEntryKeepsOrder(keys, ui);
    StringsOfStrArr(keys);
    j := UiSchemaJson(keys, ui);
    assert SectionsOf(j) == SectionsEntry(keys, ui);
  }

  /** Section F's entry of a `uiSchema` carries the hierarchical Table 7 hint. */
  predicate HintsF(ui: Json) {
    var sections := SectionsOf(ui);
    FSection in sections && sections[FSection].Obj? && HintKey in sections[FSection].fields
    && sections[FSection].fields[HintKey] == HierarchicalHint()
  }

  /** `ui_schema` as the script builds it (scripts/generate_template_json.py:236-296). */
  method BuildUiSchema() returns (j: Json)
    ensures OrderOf(j) == Some(SectionKeys)
    ensures SectionsOf(j).Keys == {"ui:order"} + set k | k in SectionKeys
    ensures forall k | k in SectionKeys :: TitleOf(j, k) == Some(SectionTitles[k])
    ensures HintsF(j)
  {
    TitlesCoverKeys();
    NoSectionIsOrder();
    j := UiSchemaFor(SectionKeys, SectionTitles);
  }
}
