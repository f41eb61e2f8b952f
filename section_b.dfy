/** Section B of the PSUR schema, `B_scope_and_device_description` (template.py:211-433). */
module SectionB {
  import opened Json
  import opened Schema
  import opened Fields
  import opened Tables

  /** `scope_and_device_description` (template.py:211-433). */
  method ScopeAndDeviceDescription() returns (r: Schema)
    ensures Sound(r)
  {
    var deviceInformation := DeviceInformation();
    var deviceClassification := DeviceClassification();
    var deviceTimelineAndStatus := DeviceTimelineAndStatus();
    var deviceDescriptionAndInformation := DeviceDescriptionAndInformation();
    var deviceInformationBreakdown := DeviceInformationBreakdown();
    var dataCollectionPeriodReportingPeriodInformation := DataCollectionPeriodReportingPeriodInformation();
    var technicalInformation := TechnicalInformation();
    var modelCatalogNumbers := ModelCatalogNumbers();
    var deviceGroupingInformation := DeviceGroupingInformation();
    r := Object(Some(["device_information", "device_classification", "device_timeline_and_status", "device_description_and_information", "device_information_breakdown", "data_collection_period_reporting_period_information", "technical_information", "model_catalog_numbers", "device_grouping_information"]), map[
      "device_information" := deviceInformation,
      "device_classification" := deviceClassification,
      "device_timeline_and_status" := deviceTimelineAndStatus,
      "device_description_and_information" := deviceDescriptionAndInformation,
      "device_information_breakdown" := deviceInformationBreakdown,
      "data_collection_period_reporting_period_information" := dataCollectionPeriodReportingPeriodInformation,
      "technical_information" := technicalInformation,
      "model_catalog_numbers" := modelCatalogNumbers,
      "device_grouping_information" := deviceGroupingInformation],
    []);
  }

  /** `device_information` (template.py:218-226). */
  method DeviceInformation() returns (r: Schema)
    ensures Sound(r)
  {
    r := Object(Some(["product_name", "implantable_device"]), map[
      "product_name" := Leaf(NonEmptyText),
      "implantable_device" := Select("TriState")],
    []);
  }

  /** `device_classification` (template.py:227-254). */
  method DeviceClassification() returns (r: Schema)
    ensures Sound(r)
  {
    var ukClassification := UkClassification();
    r := Object(Some(["eu_mdr_classification", "eu_technical_documentation_number", "classification_rule_mdr_annex_viii", "uk_classification", "us_fda_classification", "us_pre_market_submission_number"]), map[
      "eu_mdr_classification" := Select("MDRClass"),
      "eu_technical_documentation_number" := Leaf(NonEmptyText),
      "classification_rule_mdr_annex_viii" := Leaf(NonEmptyText),
      "uk_classification" := ukClassification,
      "us_fda_classification" := Select("USFDAClass"),
      "us_pre_market_submission_number" := Leaf(NonEmptyText)],
    []);
  }

  /** `uk_classification` (template.py:236-250). */
  method UkClassification() returns (r: Schema)
    ensures Sound(r)
  {
    r := Object(Some(["is_applicable", "uk_classification_value"]), map[
      "is_applicable" := Leaf(Flag),
      "uk_classification_value" := Select("MDRClass"),
      "uk_conformity_assessment_details" := Leaf(TextArea),
      "uk_classification_rule" := Leaf(Text)],
    [
      WhenEquals("is_applicable", Bool(true), ["uk_conformity_assessment_details", "uk_classification_rule"])]);
  }

  /** `device_timeline_and_status` (template.py:255-305). */
  method DeviceTimelineAndStatus() returns (r: Schema)
    ensures Sound(r)
  {
    var certificationMilestones := CertificationMilestones();
    var psurObligationStatusAssessment := PsurObligationStatusAssessment();
    r := Object(Some(["certification_milestones", "psur_obligation_status_assessment"]), map[
      "certification_milestones" := certificationMilestones,
      "psur_obligation_status_assessment" := psurObligationStatusAssessment],
    []);
  }

  /** `certification_milestones` (template.py:260-291). */
  method CertificationMilestones() returns (r: Schema)
    ensures Sound(r)
  {
    var uk := Uk();
    r := Object(Some(["eu", "uk"]), map[
      "eu" := Object(None, map[
        "first_declaration_of_conformity_date" := Leaf(Date),
        "first_ec_eu_certificate_date" := Leaf(Date),
        "first_ce_marking_date" := Leaf(Date)],
      []),
      "uk" := uk],
    []);
  }

  /** `uk` (template.py:274-289). */
  method Uk() returns (r: Schema)
    ensures Sound(r)
  {
    r := Object(Some(["is_applicable"]), map[
      "is_applicable" := Leaf(Flag),
      "first_date_of_certification_or_doc_for_gb_market" := Leaf(Date),
      "first_ce_marking_date" := Leaf(Date),
      "first_market_placement_date" := Leaf(Date),
      "first_service_deployment_date" := Leaf(Date)],
    [
      WhenEquals("is_applicable", Bool(true), ["first_date_of_certification_or_doc_for_gb_market", "first_market_placement_date"])]);
  }

  /** `psur_obligation_status_assessment` (template.py:292-303). */
  method PsurObligationStatusAssessment() returns (r: Schema)
    ensures Sound(r)
  {
    r := Object(Some(["market_status", "certificate_status"]), map[
      "market_status" := Leaf(NonEmptyTextArea),
      "last_device_sold_date_or_na" := Leaf(TextInput(false, None, None, Some(Obj(map["widget" := Str("text"), "help" := Str("Use date (YYYY-MM-DD) or 'N/A'")])))),
      "certificate_status" := Leaf(NonEmptyTextArea),
      "projected_end_of_pms_period" := Leaf(TextInput(false, None, None, Some(Widget("text")))),
      "confirmation_of_ongoing_psur_obligation" := Leaf(TextArea)],
    []);
  }

  /** `device_description_and_information` (template.py:306-317). */
  method DeviceDescriptionAndInformation() returns (r: Schema)
    ensures Sound(r)
  {
    r := Object(Some(["device_description", "intended_purpose_use"]), map[
      "device_description" := Leaf(NonEmptyTextArea),
      "intended_purpose_use" := Leaf(NonEmptyTextArea),
      "indications" := Leaf(TextArea),
      "contraindications" := Leaf(TextArea),
      "target_populations" := Leaf(TextArea)],
    []);
  }

  /** `device_information_breakdown` (template.py:318-358). */
  method DeviceInformationBreakdown() returns (r: Schema)
    ensures Sound(r)
  {
    var basicUdiDiRows := BasicUdiDiRows();
    var deviceGroupFamilyRows := DeviceGroupFamilyRows();
    r := Object(Some(["mdr_devices", "legacy_devices"]), map[
      "mdr_devices" := Object(Some(["basic_udi_di_rows"]), map[
        "basic_udi_di_rows" := basicUdiDiRows],
      []),
      "legacy_devices" := Object(Some(["is_applicable"]), map[
        "is_applicable" := Leaf(Flag),
        "device_group_family_rows" := deviceGroupFamilyRows],
      [])],
    []);
  }

  /** `basic_udi_di_rows` (template.py:328-337). */
  method BasicUdiDiRows() returns (r: Schema)
    ensures Sound(r) && MinItems(r) == Some(Int(1))
  {
    r := TableArray(["basic_udi_di", "device_trade_name", "emdn_code"], map[
      "basic_udi_di" := Leaf(NonEmptyText),
      "device_trade_name" := Leaf(NonEmptyText),
      "emdn_code" := Leaf(NonEmptyText),
      "changes_from_previous_psur" := Leaf(TextArea)], 1);
  }

  /** `device_group_family_rows` (template.py:346-354). */
  method DeviceGroupFamilyRows() returns (r: Schema)
    ensures Sound(r) && MinItems(r) == Some(Int(0))
  {
    r := TableArray(["device_group", "trade_names", "gmdn_code", "market_availability_member_states"], map[
      "device_group" := Leaf(Text),
      "trade_names" := Leaf(TextArea),
      "gmdn_code" := Leaf(Text),
      "market_availability_member_states" := Leaf(TextArea)], 0);
  }

  /** `data_collection_period_reporting_period_information` (template.py:359-385). */
  method DataCollectionPeriodReportingPeriodInformation() returns (r: Schema)
    ensures Sound(r)
  {
    var pmsPeriodDeterminationUkDevices := PmsPeriodDeterminationUkDevices();
    r := Object(Some(["date_range"]), map[
      "date_range" := Object(Some(["start_date", "end_date"]), map[
        "start_date" := Leaf(Date),
        "end_date" := Leaf(Date)],
      []),
      "pms_period_determination_uk_devices" := pmsPeriodDeterminationUkDevices],
    []);
  }

  /** `pms_period_determination_uk_devices` (template.py:373-383). */
  method PmsPeriodDeterminationUkDevices() returns (r: Schema)
    ensures Sound(r)
  {
    r := Object(Some(["is_applicable"]), map[
      "is_applicable" := Leaf(Flag),
      "pms_period_determination_text" := Leaf(TextArea),
      "device_lifetime_text" := Leaf(TextArea),
      "projected_end_of_pms_period_text" := Leaf(TextArea)],
    []);
  }

  /** `technical_information` (template.py:386-408). */
  method TechnicalInformation() returns (r: Schema)
    ensures Sound(r)
  {
    var associatedDocumentsRow := AssociatedDocumentsRow();
    r := Object(Some(["risk_management_file_number", "associated_documents"]), map[
      "risk_management_file_number" := Leaf(NonEmptyText),
      "associated_documents" := Array(associatedDocumentsRow, map["minItems" := Int(1), "ui" := Widget("table")])],
    []);
  }

  /** `associated_documents_row` (template.py:395-404). */
  method AssociatedDocumentsRow() returns (r: Schema)
    ensures Sound(r)
  {
    var associatedDocumentsRowDocumentType := AssociatedDocumentsRowDocumentType();
    r := Object(Some(["document_type", "document_number", "document_title"]), map[
      "document_type" := associatedDocumentsRowDocumentType,
      "document_number" := Leaf(NonEmptyText),
      "document_title" := Leaf(NonEmptyText)],
    []);
  }

  /** The values of `document_type` (template.py:400). */
  const DocumentTypes: seq<string> := ["PMS Plan", "Clinical Evaluation Report", "PMCF Plan", "Other"]

  /** `document_type` (template.py:400-400). */
  method AssociatedDocumentsRowDocumentType() returns (r: Schema)
    ensures Sound(r)
    ensures Enumerated(r) == Some(DocumentTypes)
  {
    StringsOfStrArr(DocumentTypes);
    r := Leaf(Custom(map["type" := Str("string"), "enum" := StrArr(DocumentTypes)]));
  }

  /** `model_catalog_numbers` (template.py:409-416). */
  method ModelCatalogNumbers() returns (r: Schema)
    ensures Sound(r)
  {
    r := Object(Some(["complete_listing_reference"]), map[
      "complete_listing_reference" := Leaf(TextInput(true, None, None, Some(Obj(map["widget" := Str("text"), "help" := Str("Reference to an attachment or controlled list")]))))],
    []);
  }

  /** `device_grouping_information` (template.py:417-431). */
  method DeviceGroupingInformation() returns (r: Schema)
    ensures Sound(r)
  {
    r := Object(Some(["is_applicable", "multiple_devices_included"]), map[
      "is_applicable" := Leaf(Flag),
      "multiple_devices_included" := Select("TriState"),
      "justification_for_grouping" := Leaf(TextArea),
      "leading_device" := Leaf(Text),
      "leading_device_rationale" := Leaf(TextArea),
      "same_clinical_evaluation_report" := Select("TriState"),
      "same_notified_body_for_all_devices" := Select("TriState"),
      "grouping_changes_from_previous_psur" := Select("TriState")],
    []);
  }
}
