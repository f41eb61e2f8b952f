/** The `layout` block of scripts/generate_template_json.py: the table definitions the DOCX renderer
    draws, their encoding as dictionaries, and the `tables` map filled entry by entry. */
module Layout {
  import opened Json
  import SectionB

  /** `{"key": key, "header": header}`: one column of a rendered table. */
  datatype Column = Column(key: string, header: string)

  /** `{"row": row, "col_start": colStart, "col_end": colEnd, "label": caption}`: a header cell that
      spans the columns `colStart` to `colEnd`, both included. */
  datatype MergedCell = MergedCell(row: int, colStart: int, colEnd: int, caption: string)

  /** A table definition: its columns, and the optional `header_rows`, `merged_cells` and `prefill_rows`. */
  datatype TableLayout = TableLayout(
    columns: seq<Column>,
    headerRows: Option<int>,
    mergedCells: Option<seq<MergedCell>>,
    prefillRows: Option<seq<string>>)

  /** Two header cells of the same row cover no common column. */
  predicate Disjoint(a: MergedCell, b: MergedCell) {
    a.row != b.row || a.colEnd < b.colStart || b.colEnd < a.colStart
  }

  /** The rules a table definition keeps: distinct column keys; every merged cell lies in a header
      row and spans existing columns in order; no two merged cells overlap. */
  predicate TableOK(t: TableLayout) {
    && (forall i, j | 0 <= i < j < |t.columns| :: t.columns[i].key != t.columns[j].key)
    && (t.mergedCells.Some? ==>
          var cells := t.mergedCells.value;
          && (forall i | 0 <= i < |cells| ::
                && t.headerRows.Some? && 0 <= cells[i].row < t.headerRows.value
                && 0 <= cells[i].colStart <= cells[i].colEnd < |t.columns|)
          && (forall i, j | 0 <= i < j < |cells| :: Disjoint(cells[i], cells[j])))
  }

  // ---------------------------------------------------------------------------------------------
  // Encoding

  function ColumnJson(c: Column): Json {
    Obj(map["key" := Str(c.key), "header" := Str(c.header)])
  }

  function MergedCellJson(m: MergedCell): Json {
    Obj(map["row" := Int(m.row), "col_start" := Int(m.colStart), "col_end" := Int(m.colEnd), "label" := Str(m.caption)])
  }

  function ColumnsJson(cs: seq<Column>): (r: seq<Json>)
    ensures |r| == |cs| && forall i | 0 <= i < |cs| :: r[i] == ColumnJson(cs[i])
  {
    seq(|cs|, i requires 0 <= i < |cs| => ColumnJson(cs[i]))
  }

  function MergedCellsJson(ms: seq<MergedCell>): (r: seq<Json>)
    ensures |r| == |ms| && forall i | 0 <= i < |ms| :: r[i] == MergedCellJson(ms[i])
  {
    seq(|ms|, i requires 0 <= i < |ms| => MergedCellJson(ms[i]))
  }

  /** The dictionary a table definition is written as; optional keys appear only when set. */
  function TableJson(t: TableLayout): Json {
    Obj(map["columns" := Arr(ColumnsJson(t.columns))]
      + (if t.headerRows.Some? then map["header_rows" := Int(t.headerRows.value)] else map[])
      + (if t.mergedCells.Some? then map["merged_cells" := Arr(MergedCellsJson(t.mergedCells.value))] else map[])
      + (if t.prefillRows.Some? then map["prefill_rows" := StrArr(t.prefillRows.value)] else map[]))
  }

  // ---------------------------------------------------------------------------------------------
  // Reading a table definition back

  function ParseColumn(j: Json): Option<Column> {
    if j.Obj? && "key" in j.fields && j.fields["key"].Str? && "header" in j.fields && j.fields["header"].Str?
    then Some(Column(j.fields["key"].s, j.fields["header"].s))
    else None
  }

  function ParseMergedCell(j: Json): Option<MergedCell> {
    if && j.Obj? && "row" in j.fields && j.fields["row"].Int?
       && "col_start" in j.fields && j.fields["col_start"].Int?
       && "col_end" in j.fields && j.fields["col_end"].Int?
       && "label" in j.fields && j.fields["label"].Str?
    then Some(MergedCell(j.fields["row"].i, j.fields["col_start"].i, j.fields["col_end"].i, j.fields["label"].s))
    else None
  }

  function ParseColumns(items: seq<Json>): (r: Option<seq<Column>>)
    ensures r.Some? ==> |r.value| == |items|
  {
    if items == [] then Some([])
    else
      match (ParseColumn(items[0]), ParseColumns(items[1..]))
      case (Some(c), Some(cs)) => Some([c] + cs)
      case _ => None
  }

  function ParseMergedCells(items: seq<Json>): (r: Option<seq<MergedCell>>)
    ensures r.Some? ==> |r.value| == |items|
  {
    if items == [] then Some([])
    else
      match (ParseMergedCell(items[0]), ParseMergedCells(items[1..]))
      case (Some(m), Some(ms)) => Some([m] + ms)
      case _ => None
  }

  /** The table definition a dictionary describes, when it describes one. */
  function ParseTable(j: Json): Option<TableLayout> {
    if !j.Obj? || "columns" !in j.fields || !j.fields["columns"].Arr? then None
    else
      var f := j.fields;
      var columns := ParseColumns(f["columns"].items);
      var headerRows := if "header_rows" in f && f["header_rows"].Int? then Some(f["header_rows"].i) else None;
      var cells := if "merged_cells" in f && f["merged_cells"].Arr? then ParseMergedCells(f["merged_cells"].items) else None;
      var prefill := if "prefill_rows" in f && f["prefill_rows"].Arr? then Strings(f["prefill_rows"].items) else None;
      if columns.None? then None
      else if "merged_cells" in f && cells.None? then None
      else if "prefill_rows" in f && prefill.None? then None
      else Some(TableLayout(columns.value, headerRows, cells, prefill))
  }

  lemma {:induction false} ColumnsRoundTrip(cs: seq<Column>)
    ensures ParseColumns(ColumnsJson(cs)) == Some(cs)
  {
    if cs != [] {
      assert ColumnsJson(cs)[1..] == ColumnsJson(cs[1..]);
      ColumnsRoundTrip(cs[1..]);
      assert [cs[0]] + cs[1..] == cs;
    }
  }

  lemma {:induction false} MergedCellsRoundTrip(ms: seq<MergedCell>)
    ensures ParseMergedCells(MergedCellsJson(ms)) == Some(ms)
  {
    if ms != [] {
      assert MergedCellsJson(ms)[1..] == MergedCellsJson(ms[1..]);
      MergedCellsRoundTrip(ms[1..]);
      assert [ms[0]] + ms[1..] == ms;
    }
  }

  /** Every table definition is read back from its dictionary unchanged. */
  lemma TableRoundTrip(t: TableLayout)
    ensures ParseTable(TableJson(t)) == Some(t)
  {
    var f := TableJson(t).fields;
    assert f["columns"] == Arr(ColumnsJson(t.columns));
    ColumnsRoundTrip(t.columns);
    assert ("header_rows" in f <==> t.headerRows.Some?) && (t.headerRows.Some? ==> f["header_rows"] == Int(t.headerRows.value));
    if t.mergedCells.Some? {
      assert f["merged_cells"] == Arr(MergedCellsJson(t.mergedCells.value));
      MergedCellsRoundTrip(t.mergedCells.value);
    }
    assert "merged_cells" in f <==> t.mergedCells.Some?;
    if t.prefillRows.Some? {
      assert f["prefill_rows"] == StrArr(t.prefillRows.value);
      StringsOfStrArr(t.prefillRows.value);
    }
    assert "prefill_rows" in f <==> t.prefillRows.Some?;
  }

  // ---------------------------------------------------------------------------------------------
  // The table definitions

  /** `tables["C.table_1_annual_sales"]` (scripts/generate_template_json.py:68-83). */
  method AnnualSales() returns (t: TableLayout)
    ensures TableOK(t) && |t.columns| == 6
    ensures t.headerRows == Some(3) && t.mergedCells.Some? && |t.mergedCells.value| == 3
  {
    t := TableLayout([
        Column("region", "Region"),
        Column("preceding_period_1", "Period 1"),
        Column("preceding_period_2", "Period 2"),
        Column("preceding_period_3", "Period 3"),
        Column("current_data_collection_period", "Current Period"),
        Column("percent_of_global_sales", "% Global Sales")],
      Some(3), Some([
        MergedCell(0, 1, 3, "Preceding 12-Month Periods"),
        MergedCell(0, 4, 4, "Current Data Collection Period"),
        MergedCell(0, 5, 5, "% of Global Sales")]),
      None);
  }

  /** `tables["D.table_2"]` (scripts/generate_template_json.py:86-94). */
  method IncidentsByProblemCode() returns (t: TableLayout)
    ensures TableOK(t) && |t.columns| == 5
  {
    t := TableLayout([
        Column("region", "Region"),
        Column("imdrf_problem_code_and_term", "IMDRF Problem Code & Term"),
        Column("n_current_period", "N (Current Period)"),
        Column("rate_percent", "Rate (%)"),
        Column("complaint_number", "Complaint Number")],
      None, None,
      None);
  }

  /** `tables["D.table_3"]` (scripts/generate_template_json.py:97-105). */
  method IncidentsByCauseCode() returns (t: TableLayout)
    ensures TableOK(t) && |t.columns| == 5
  {
    t := TableLayout([
        Column("region", "Region"),
        Column("imdrf_cause_code_and_term", "IMDRF Cause Code & Term"),
        Column("n_current_period", "N (Current Period)"),
        Column("rate_percent", "Rate (%)"),
        Column("complaint_number", "Complaint Number")],
      None, None,
      None);
  }

  /** `tables["D.table_4"]` (scripts/generate_template_json.py:108-118). */
  method HealthImpactByConclusion() returns (t: TableLayout)
    ensures TableOK(t) && |t.columns| == 7
  {
    t := TableLayout([
        Column("region", "Region"),
        Column("imdrf_health_impact_annex_f_code_and_term", "IMDRF Health Impact (Annex F)"),
        Column("number_of_serious_incidents", "# Serious Incidents"),
        Column("investigation_conclusion_1", "Investigation Conclusion 1"),
        Column("investigation_conclusion_2", "Investigation Conclusion 2"),
        Column("investigation_conclusion_3", "Investigation Conclusion 3"),
        Column("investigation_conclusion_4", "Investigation Conclusion 4")],
      None, None,
      None);
  }

  /** `tables["E.table_6"]` (scripts/generate_template_json.py:121-128). */
  method FeedbackByTypeAndSource() returns (t: TableLayout)
    ensures TableOK(t) && |t.columns| == 4
  {
    t := TableLayout([
        Column("feedback_type", "Feedback Type"),
        Column("source", "Source"),
        Column("count", "Count"),
        Column("summary", "Summary")],
      None, None,
      None);
  }

  /** `tables["F.table_7_annually_harm_problem"]` (scripts/generate_template_json.py:131-137). */
  method ComplaintRateAndCount() returns (t: TableLayout)
    ensures TableOK(t) && |t.columns| == 3
  {
    t := TableLayout([
        Column("label", "Harm / Medical Device Problem"),
        Column("current_period_value", "Current Period (Rate / Count)"),
        Column("max_expected_rate_from_ract", "Max Expected Rate (RACT)")],
      None, None,
      None);
  }

  /** `tables["G.trend_reports"]` (scripts/generate_template_json.py:140-150). */
  method TrendReports() returns (t: TableLayout)
    ensures TableOK(t) && |t.columns| == 7
  {
    t := TableLayout([
        Column("affected_device_models_or_trade_names", "Affected Device Models / Trade Names"),
        Column("manufacturer_reference_number", "Manufacturer Ref No."),
        Column("date_trend_first_identified", "Date Trend First Identified"),
        Column("date_reported_to_mhra_if_applicable", "Date Reported to MHRA"),
        Column("current_status_of_trend_investigation", "Status of Investigation"),
        Column("corrective_or_preventive_actions_resulted", "Corrective/Preventive Actions"),
        Column("fsca_reference_number_if_relevant", "FSCA Ref No.")],
      None, None,
      None);
  }

  /** `tables["H.table_8_fsca"]` (scripts/generate_template_json.py:153-164). */
  method Fscas() returns (t: TableLayout)
    ensures TableOK(t) && |t.columns| == 8
  {
    t := TableLayout([
        Column("type_of_action", "Type of Action"),
        Column("manufacturer_reference_number", "Manufacturer Ref No."),
        Column("issuing_date_or_date_of_final_fsn", "Issuing Date / Date of Final FSN"),
        Column("scope_of_fsca_device_models_within_scope", "Scope of FSCA"),
        Column("status_of_fsca", "Status of FSCA"),
        Column("rationale_and_description_of_action_taken", "Rationale & Description"),
        Column("impacted_regions", "Impacted Regions"),
        Column("date_reported_to_mhra_if_applicable", "Date Reported to MHRA")],
      None, None,
      None);
  }

  /** `tables["I.table_9_capa"]` (scripts/generate_template_json.py:167-178). */
  method Capas() returns (t: TableLayout)
    ensures TableOK(t) && |t.columns| == 8
  {
    t := TableLayout([
        Column("capa_number_or_manufacturer_reference_number", "CAPA Number / Ref No."),
        Column("initiation_date", "Initiation Date"),
        Column("scope_of_capa", "Scope of CAPA"),
        Column("status_of_capa", "Status"),
        Column("capa_description", "CAPA Description"),
        Column("root_cause", "Root Cause"),
        Column("effectiveness_of_capa", "Effectiveness"),
        Column("target_date_for_completion_if_ongoing", "Target Date")],
      None, None,
      None);
  }

  /** `tables["K.table_10"]` (scripts/generate_template_json.py:181-190). */
  method ExternalDatabaseFindings() returns (t: TableLayout)
    ensures TableOK(t) && |t.columns| == 6
  {
    t := TableLayout([
        Column("database_or_registry", "Database / Registry"),
        Column("total_matches", "Total Matches"),
        Column("relevant_findings", "Relevant Findings"),
        Column("benchmark_vs_similar_devices", "Benchmark vs Similar Devices"),
        Column("regulatory_actions_affecting_similar_devices", "Regulatory Actions"),
        Column("rmf_update_reference", "RMF Update Ref")],
      None, None,
      None);
  }

  /** `tables["L.table_11_pmcf"]` (scripts/generate_template_json.py:193-201). */
  method PmcfActivities() returns (t: TableLayout)
    ensures TableOK(t) && |t.columns| == 5
  {
    t := TableLayout([
        Column("specific_pmcf_activities", "PMCF Activities"),
        Column("key_findings", "Key Findings"),
        Column("impact_on_safety_performance", "Impact on Safety/Performance"),
        Column("rmf_or_cer_update", "RMF/CER Update"),
        Column("pmcf_evaluation_report_reference", "PMCF Report Ref")],
      None, None,
      None);
  }

  /** `tables["B.associated_documents"]` (scripts/generate_template_json.py:204-211). */
  method AssociatedDocuments() returns (t: TableLayout)
    ensures TableOK(t) && |t.columns| == 3
    ensures t.prefillRows == Some(SectionB.DocumentTypes[..3])
    ensures t.prefillRows.Some? && forall i | 0 <= i < |t.prefillRows.value| :: t.prefillRows.value[i] in SectionB.DocumentTypes
  {
    t := TableLayout([
        Column("document_type", "Document Type"),
        Column("document_number", "Document Number"),
        Column("document_title", "Document Title")],
      None, None,
      Some(["PMS Plan", "Clinical Evaluation Report", "PMCF Plan"]));
    assert SectionB.DocumentTypes[..3] == ["PMS Plan", "Clinical Evaluation Report", "PMCF Plan"];
  }

  /** `tables["B.mdr_devices_table"]` (scripts/generate_template_json.py:214-221). */
  method MdrDevices() returns (t: TableLayout)
    ensures TableOK(t) && |t.columns| == 4
  {
    t := TableLayout([
        Column("basic_udi_di", "Basic UDI-DI"),
        Column("device_trade_name", "Device Trade Name"),
        Column("emdn_code", "EMDN Code"),
        Column("changes_from_previous_psur", "Changes from Previous PSUR")],
      None, None,
      None);
  }

  /** The ids of the table definitions, as inserted. */
  const TableIds: set<string> := {
    "C.table_1_annual_sales", "D.table_2", "D.table_3", "D.table_4", "E.table_6",
    "F.table_7_annually_harm_problem", "G.trend_reports", "H.table_8_fsca", "I.table_9_capa", "K.table_10",
    "L.table_11_pmcf", "B.associated_documents", "B.mdr_devices_table"}

  /** What the definition assigned to table `id` promises: it keeps the table rules and has that
      id's number of columns; the annual-sales table also has three header rows and three merged
      cells, and the associated-documents table prefills the first three document types. */
  predicate Promised(id: string, t: TableLayout) {
    && TableOK(t)
    && (id == "C.table_1_annual_sales" ==>
          |t.columns| == 6 && t.headerRows == Some(3) && t.mergedCells.Some? && |t.mergedCells.value| == 3)
    && (id == "D.table_2" ==> |t.columns| == 5)
    && (id == "D.table_3" ==> |t.columns| == 5)
    && (id == "D.table_4" ==> |t.columns| == 7)
    && (id == "E.table_6" ==> |t.columns| == 4)
    && (id == "F.table_7_annually_harm_problem" ==> |t.columns| == 3)
    && (id == "G.trend_reports" ==> |t.columns| == 7)
    && (id == "H.table_8_fsca" ==> |t.columns| == 8)
    && (id == "I.table_9_capa" ==> |t.columns| == 8)
    && (id == "K.table_10" ==> |t.columns| == 6)
    && (id == "L.table_11_pmcf" ==> |t.columns| == 5)
    && (id == "B.associated_documents" ==> |t.columns| == 3 && t.prefillRows == Some(SectionB.DocumentTypes[..3]))
    && (id == "B.mdr_devices_table" ==> |t.columns| == 4)
  }

  /** Every definition of a `tables` map keeps its id's promise. */
  predicate AllPromised(tables: map<string, TableLayout>) {
    forall id | id in tables :: Promised(id, tables[id])
  }

  /** Every table of a `layout` dictionary reads back as a definition that keeps its id's promise. */
  predicate KeepsPromises(j: Json) {
    forall id | id in TablesOf(j) :: ParseTable(TablesOf(j)[id]).Some? && Promised(id, ParseTable(TablesOf(j)[id]).value)
  }

  /** The `C.table_1_annual_sales` entry of a `layout` dictionary reads back as a table of six
      columns, three header rows and three merged cells. */
  predicate AnnualSalesStored(j: Json) {
    && "C.table_1_annual_sales" in TablesOf(j)
    && var t := ParseTable(TablesOf(j)["C.table_1_annual_sales"]);
       && t.Some? && |t.value.columns| == 6 && t.value.headerRows == Some(3)
       && t.value.mergedCells.Some? && |t.value.mergedCells.value| == 3
  }

  /** The `B.associated_documents` entry of a `layout` dictionary reads back with prefilled rows,
      each a value of the schema's `document_type` enumeration. */
  predicate PrefillsDocumentTypes(j: Json) {
    && "B.associated_documents" in TablesOf(j)
    && var t := ParseTable(TablesOf(j)["B.associated_documents"]);
       && t.Some? && t.value.prefillRows.Some?
       && forall i | 0 <= i < |t.value.prefillRows.value| :: t.value.prefillRows.value[i] in SectionB.DocumentTypes
  }

  /** `tables = {}` and its thirteen assignments (scripts/generate_template_json.py:65-221). */
  method BuildTables() returns (tables: map<string, TableLayout>)
    ensures tables.Keys == TableIds
    ensures AllPromised(tables)
    ensures "B.associated_documents" in tables && tables["B.associated_documents"].prefillRows.Some?
    ensures var rows := tables["B.associated_documents"].prefillRows.value;
      forall i | 0 <= i < |rows| :: rows[i] in SectionB.DocumentTypes
  {
    tables := map[];
    var t;
    t := AnnualSales();
    tables := tables["C.table_1_annual_sales" := t];
    t := IncidentsByProblemCode();
    tables := tables["D.table_2" := t];
    t := IncidentsByCauseCode();
    tables := tables["D.table_3" := t];
    t := HealthImpactByConclusion();
    tables := tables["D.table_4" := t];
    t := FeedbackByTypeAndSource();
    tables := tables["E.table_6" := t];
    t := ComplaintRateAndCount();
    tables := tables["F.table_7_annually_harm_problem" := t];
    t := TrendReports();
    tables := tables["G.trend_reports" := t];
    t := Fscas();
    tables := tables["H.table_8_fsca" := t];
    t := Capas();
    tables := tables["I.table_9_capa" := t];
    t := ExternalDatabaseFindings();
    tables := tables["K.table_10" := t];
    t := PmcfActivities();
    tables := tables["L.table_11_pmcf" := t];
    t := AssociatedDocuments();
    tables := tables["B.associated_documents" := t];
    t := MdrDevices();
    tables := tables["B.mdr_devices_table" := t];
    PrefillInEnum(tables);
  }

  /** One dictionary per table definition, under the table's identifier. */
  function TablesJson(tables: map<string, TableLayout>): map<string, Json> {
    map id | id in tables :: TableJson(tables[id])
  }

  /** Every table definition is read back from its dictionary unchanged. */
  lemma TablesRoundTrip(tables: map<string, TableLayout>)
    ensures TablesJson(tables).Keys == tables.Keys
    ensures forall id | id in tables :: ParseTable(TablesJson(tables)[id]) == Some(tables[id])
  {
    forall id | id in tables ensures ParseTable(TableJson(tables[id])) == Some(tables[id]) {
      TableRoundTrip(tables[id]);
    }
  }

  /** The font the layout locks (scripts/generate_template_json.py:226-230); `lineHeight` is kept as
      its decimal text. */
  function TypographyLock(): map<string, Json> {
    map["fontFamily" := Str("Arial"), "fontSizePt" := Int(10), "lineHeight" := Num("1.15")]
  }

  /** The `layout` dictionary around the table definitions (scripts/generate_template_json.py:223-232). */
  function LayoutJson(tables: map<string, TableLayout>): Json {
    Obj(map[
      "pageModel" := Str("A4"),
      "section_order_locked" := Bool(true),
      "typography_lock" := Obj(TypographyLock()),
      "tables" := Obj(TablesJson(tables))])
  }

  /** A `layout` dictionary whose `typography_lock` is the locked font. */
  predicate LocksTypography(j: Json) {
    j.Obj? && "typography_lock" in j.fields && j.fields["typography_lock"] == Obj(TypographyLock())
  }

  /** The `tables` entry of a `layout` dictionary; empty when it is missing. */
  function TablesOf(j: Json): map<string, Json> {
    if j.Obj? && "tables" in j.fields && j.fields["tables"].Obj? then j.fields["tables"].fields else map[]
  }

  /** The `layout` dictionary has its four keys, and its `tables` entry holds the definitions. */
  lemma LayoutJsonShape(tables: map<string, TableLayout>)
    ensures LayoutJson(tables).Obj?
    ensures LayoutJson(tables).fields.Keys == {"pageModel", "section_order_locked", "typography_lock", "tables"}
    ensures TablesOf(LayoutJson(tables)) == TablesJson(tables)
    ensures LayoutJson(tables).fields["typography_lock"] == Obj(TypographyLock())
  {
  }

  /** The `layout` dictionary has its four keys, and every table of it is read back from its
      dictionary unchanged. */
  lemma LayoutRoundTrip(tables: map<string, TableLayout>)
    ensures var j := LayoutJson(tables);
      && j.Obj? && j.fields.Keys == {"pageModel", "section_order_locked", "typography_lock", "tables"}
      && TablesOf(j).Keys == tables.Keys
      && forall id | id in tables :: ParseTable(TablesOf(j)[id]) == Some(tables[id])
  {
    LayoutJsonShape(tables);
    TablesRoundTrip(tables);
  }

  /** `layout` as the script builds it: every table it lists reads back as a definition that keeps the
      rules and what the definition assigned to its id promises, and the prefilled document types are
      values of the schema's `document_type` enumeration (scripts/generate_template_json.py:65-232). */
  method BuildLayout() returns (j: Json)
    ensures j.Obj? && j.fields.Keys == {"pageModel", "section_order_locked", "typography_lock", "tables"}
    ensures LocksTypography(j)
    ensures TablesOf(j).Keys == TableIds
    ensures forall id | id in TablesOf(j) :: ParseTable(TablesOf(j)[id]).Some? && TableOK(ParseTable(TablesOf(j)[id]).value)
    ensures KeepsPromises(j)
    ensures AnnualSalesStored(j)
    ensures PrefillsDocumentTypes(j)
  {
    var tables := BuildTables();
    LayoutRoundTrip(tables);
    LayoutJsonShape(tables);
    j := LayoutJson(tables);
    LayoutKeepsPromises(tables, j);
  }

  /** A `layout` dictionary whose tables read back as definitions that keep their ids' promises has
      the annual-sales shape, the document-type prefill, and tables that keep the table rules. */
  lemma LayoutKeepsPromises(tables: map<string, TableLayout>, j: Json)
    requires tables.Keys == TableIds && AllPromised(tables)
    requires TablesOf(j).Keys == tables.Keys
    requires forall id | id in tables :: ParseTable(TablesOf(j)[id]) == Some(tables[id])
    ensures KeepsPromises(j)
    ensures AnnualSalesStored(j)
    ensures PrefillsDocumentTypes(j)
    ensures forall id | id in TablesOf(j) :: ParseTable(TablesOf(j)[id]).Some? && TableOK(ParseTable(TablesOf(j)[id]).value)
  {
    forall id | id in TablesOf(j)
      ensures ParseTable(TablesOf(j)[id]).Some? && Promised(id, ParseTable(TablesOf(j)[id]).value)
    {
      assert ParseTable(TablesOf(j)[id]) == Some(tables[id]);
    }
    assert Promised("C.table_1_annual_sales", tables["C.table_1_annual_sales"]);
    PrefillInEnum(tables);
  }

  /** The rows the associated-documents definition prefills are values of the schema's
      `document_type` enumeration (scripts/generate_template_json.py:204-212). */
  lemma PrefillInEnum(tables: map<string, TableLayout>)
    requires "B.associated_documents" in tables && AllPromised(tables)
    ensures tables["B.associated_documents"].prefillRows.Some?
    ensures var rows := tables["B.associated_documents"].prefillRows.value;
      forall i | 0 <= i < |rows| :: rows[i] in SectionB.DocumentTypes
  {
    var docs := tables["B.associated_documents"];
    assert Promised("B.associated_documents", docs);
    forall i | 0 <= i < |docs.prefillRows.value| ensures docs.prefillRows.value[i] in SectionB.DocumentTypes {
      assert docs.prefillRows.value[i] == SectionB.DocumentTypes[i];
    }
  }
}
