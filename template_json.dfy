/** The five-key `template_json` document scripts/generate_template_json.py assembles around the
    schema template.py builds. */
module TemplateJson {
  import opened Json
  import Template
  import Layout
  import UiSchema

  /** The keys of the assembled document (scripts/generate_template_json.py:299-305). */
  const TopKeys: set<string> := {"meta", "schema", "uiSchema", "layout", "theme"}

  /** `meta` (scripts/generate_template_json.py:32-38). */
  method Meta() returns (j: Json)
    ensures j.Obj? && j.fields.Keys == {"id", "source_file", "revision", "renderer_targets", "preserve_layout_fidelity"}
    ensures j.fields["source_file"] == Str("template.py")
  {
    j := Obj(map[
      "id" := Str("FormQAR-054_UI_SCHEMA_PACK"),
      "source_file" := Str("template.py"),
      "revision" := Str("C"),
      "renderer_targets" := StrArr(["docx", "pdf", "web"]),
      "preserve_layout_fidelity" := Bool(true)]);
  }

  /** `theme` (scripts/generate_template_json.py:42-61); `lineHeight` is kept as its decimal text. Its
      font is the one the layout locks. */
  method Theme() returns (j: Json)
    ensures j.Obj? && j.fields.Keys == {"word_form_fidelity"}
    ensures Locked(j)
  {
    var table := Obj(map[
      "border" := Str("1px solid #000000"),
      "gridLines" := Bool(true),
      "headerWeight" := Int(700),
      "cellPaddingPx" := Int(4)]);
    var inputs := Obj(map[
      "text" := Obj(map["heightPx" := Int(24)]),
      "textarea" := Obj(map["minHeightPx" := Int(60)]),
      "radioInline" := Bool(true)]);
    j := Obj(map["word_form_fidelity" := Obj(map[
      "fontFamily" := Str("Arial"),
      "fontSizePt" := Int(10),
      "lineHeight" := Num("1.15"),
      "sectionTitleWeight" := Int(700),
      "blockSpacingPx" := Int(6),
      "table" := table,
      "inputs" := inputs])]);
  }

  /** The Word-fidelity font of a `theme` dictionary agrees with the layout's `typography_lock`. */
  predicate Locked(theme: Json) {
    && theme.Obj? && "word_form_fidelity" in theme.fields && theme.fields["word_form_fidelity"].Obj?
    && var font := theme.fields["word_form_fidelity"].fields;
       forall k | k in Layout.TypographyLock() :: k in font && font[k] == Layout.TypographyLock()[k]
  }

  /** `template_json = {"meta": ..., "schema": ..., "uiSchema": ..., "layout": ..., "theme": ...}` */
  function Assemble(meta: Json, schema: Json, ui: Json, layout: Json, theme: Json): Json {
    Obj(map["meta" := meta, "schema" := schema, "uiSchema" := ui, "layout" := layout, "theme" := theme])
  }

  /** The part of the document stored under `key`; `null`-free stand-in `{}` when it is missing. */
  function Part(doc: Json, key: string): Json {
    if doc.Obj? && key in doc.fields then doc.fields[key] else Obj(map[])
  }

  /** The assembled document has exactly the five keys, and each part is stored unchanged. */
  lemma AssembleParts(meta: Json, schema: Json, ui: Json, layout: Json, theme: Json)
    ensures var doc := Assemble(meta, schema, ui, layout, theme);
      && doc.Obj? && doc.fields.Keys == TopKeys
      && Part(doc, "meta") == meta && Part(doc, "schema") == schema && Part(doc, "uiSchema") == ui
      && Part(doc, "layout") == layout && Part(doc, "theme") == theme
  {
  }

  /** The whole script after its `exec`: the schema, then `meta`, `theme`, `layout` and `ui_schema`,
      wrapped into the five-key document. The schema is consistent and closed, its root has the
      root's shape, its C and F tables each select one format, its required sections are the
      `ui:order` list, every section is titled, section F carries the hierarchical hint, and every
      layout table keeps the table rules and what the definition assigned to its id promises. */
  method Generate() returns (doc: Json)
    ensures doc.Obj? && doc.fields.Keys == TopKeys
    ensures Template.DocumentConsistent(Part(doc, "schema")) && Template.DocumentClosed(Part(doc, "schema"))
    ensures Template.RootShaped(Part(doc, "schema"))
    ensures Template.FormatsSelected(Part(doc, "schema"))
    ensures Template.RequiredSections(Part(doc, "schema")) == Some(UiSchema.SectionKeys)
    ensures Template.PopulatedSections(Part(doc, "schema")) == set k | k in UiSchema.SectionKeys
    ensures UiSchema.OrderOf(Part(doc, "uiSchema")) == Some(UiSchema.SectionKeys)
    ensures forall k | k in UiSchema.SectionKeys ::
      UiSchema.TitleOf(Part(doc, "uiSchema"), k) == Some(UiSchema.SectionTitles[k])
    ensures UiSchema.HintsF(Part(doc, "uiSchema"))
    ensures Locked(Part(doc, "theme"))
    ensures Layout.LocksTypography(Part(doc, "layout"))
    ensures Layout.TablesOf(Part(doc, "layout")).Keys == Layout.TableIds
    ensures Layout.KeepsPromises(Part(doc, "layout"))
    ensures Layout.AnnualSalesStored(Part(doc, "layout")) && Layout.PrefillsDocumentTypes(Part(doc, "layout"))
    ensures var tables := Layout.TablesOf(Part(doc, "layout"));
      forall id | id in tables :: Layout.ParseTable(tables[id]).Some? && Layout.TableOK(Layout.ParseTable(tables[id]).value)
  {
    var schema := Template.BuildSchema();
    var meta := Meta();
    var theme := Theme();
    var layout := Layout.BuildLayout();
    var ui := UiSchema.BuildUiSchema();
    UiSchema.SectionKeysMatchSchema();
    AssembleParts(meta, schema, ui, layout, theme);
    doc := Assemble(meta, schema, ui, layout, theme);
  }
}
