/** The `form` and `psur_cover_page` properties of the root schema literal (template.py:25-123). */
module FrontMatter {
  import opened Json
  import opened Schema
  import opened Fields
  import opened Tables

  /** `form` (template.py:25-51). */
  method Form() returns (r: Schema)
    ensures Sound(r)
  {
    var documentControl := DocumentControl();
    r := Object(Some(["form_id", "form_title", "revision", "document_control"]), map[
      "form_id" := Leaf(Fixed("FormQAR-054")),
      "form_title" := Leaf(Fixed("Periodic Safety Update Report (PSUR)")),
      "revision" := Leaf(TextInput(false, None, Some("C"), None)),
      "document_control" := documentControl],
    []);
  }

  /** `document_control` (template.py:33-49). */
  method DocumentControl() returns (r: Schema)
    ensures Sound(r)
  {
    r := Object(Some(["product_or_product_family", "infocard_number"]), map[
      "product_or_product_family" := Leaf(TextInput(true, None, None, Some(Obj(map["widget" := Str("text"), "label" := Str("Product or Product Family")])))),
      "infocard_number" := Leaf(TextInput(true, None, None, Some(Obj(map["widget" := Str("text"), "label" := Str("Infocard Number")])))),
      "page_control" := Object(None, map[
        "current_page" := Leaf(PageNumber),
        "total_pages" := Leaf(PageNumber)],
      [])],
    []);
  }

  /** `psur_cover_page` (template.py:53-123). */
  method PsurCoverPage() returns (r: Schema)
    ensures Sound(r)
  {
    var manufacturerInformation := ManufacturerInformation();
    var regulatoryInformation := RegulatoryInformation();
    var documentInformation := DocumentInformation();
    r := Object(Some(["manufacturer_information", "regulatory_information", "document_information"]), map[
      "manufacturer_information" := manufacturerInformation,
      "regulatory_information" := regulatoryInformation,
      "document_information" := documentInformation],
    []);
  }

  /** `manufacturer_information` (template.py:58-81). */
  method ManufacturerInformation() returns (r: Schema)
    ensures Sound(r)
  {
    var authorizedRepresentative := AuthorizedRepresentative();
    r := Object(Some(["company_name", "address_lines", "manufacturer_srn", "authorized_representative"]), map[
      "company_name" := Leaf(TextInput(true, None, Some("CooperSurgical, Inc."), Some(Widget("text")))),
      "address_lines" := Array(Leaf(NonEmptyText), map["minItems" := Int(1), "ui" := Obj(map["widget" := Str("textarea"), "label" := Str("Manufacturer Address (lines)")])]),
      "manufacturer_srn" := Leaf(TextInput(false, Some("^[A-Z]{2}-MF-\\d{10,}$"), Some("US-MF-000002607"), Some(Obj(map["widget" := Str("text"), "help" := Str("Format: US-MF-##########")])))),
      "authorized_representative" := authorizedRepresentative],
    []);
  }

  /** `authorized_representative` (template.py:66-79). */
  method AuthorizedRepresentative() returns (r: Schema)
    ensures Sound(r)
  {
    r := Object(Some(["is_applicable"]), map[
      "is_applicable" := Leaf(Checkbox(Obj(map["widget" := Str("checkbox"), "label" := Str("Authorized Representative applicable?")]))),
      "name" := Leaf(TextInput(true, None, Some("CooperSurgical Distribution B.V."), Some(Widget("text")))),
      "address_lines" := Array(Leaf(NonEmptyText), map["minItems" := Int(1), "default" := StrArr(["Celsiusweg 35", "5928 PR Venlo", "The Netherlands"]), "ui" := Widget("textarea")]),
      "authorized_representative_srn" := Leaf(TextInput(false, Some("^[A-Z]{2}-AR-\\d{10,}$"), Some("NL-AR-0000000059"), Some(Obj(map["widget" := Str("text"), "help" := Str("Format: NL-AR-##########")]))))],
    [
      WhenEquals("is_applicable", Bool(true), ["name", "address_lines", "authorized_representative_srn"])]);
  }

  /** `regulatory_information` (template.py:82-100). */
  method RegulatoryInformation() returns (r: Schema)
    ensures Sound(r)
  {
    r := Object(Some(["certificate_number", "date_of_issue", "notified_body", "psur_available_within_3_working_days"]), map[
      "certificate_number" := Leaf(TextInput(true, None, None, Some(Widget("text")))),
      "date_of_issue" := Leaf(DatePicker),
      "notified_body" := Object(Some(["name", "number"]), map[
        "name" := Leaf(TextInput(true, None, Some("BSI Group The Netherlands B.V."), Some(Widget("text")))),
        "number" := Leaf(TextInput(false, Some("^\\d{4}$"), Some("2797"), Some(Obj(map["widget" := Str("text"), "help" := Str("4-digit NB number")]))))],
      []),
      "psur_available_within_3_working_days" := Leaf(Checkbox(Widget("checkbox")))],
    []);
  }

  /** `document_information` (template.py:101-121). */
  method DocumentInformation() returns (r: Schema)
    ensures Sound(r)
  {
    r := Object(Some(["data_collection_period", "psur_cadence"]), map[
      "data_collection_period" := Object(Some(["start_date", "end_date"]), map[
        "start_date" := Leaf(DatePicker),
        "end_date" := Leaf(DatePicker)],
      [
        WhenAllPresent(["start_date", "end_date"], map["end_date" := Obj(map["format" := Str("date")])])]),
      "psur_cadence" := Leaf(Frequency)],
    []);
  }
}
