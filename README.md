# FormQAR-054 PSUR template, modelled in Dafny

The repository assembles one JSON document that describes a regulatory form, the FormQAR-054
Periodic Safety Update Report (PSUR). It has two parts:

- `template.py` builds a JSON Schema for the form. It writes a root `schema` literal whose
  `$defs` hold four shared enumerations and a `sections` object. That object already requires the
  thirteen section names, but its `properties` are still empty. It then binds the alias
  `sections` to `$defs.sections.properties` and fills it in place with thirteen section schemas,
  A to M. The row tables inside the sections come from one factory, `table_array`.
- `scripts/generate_template_json.py` keeps the text of `template.py` up to its file-write marker
  and runs it to obtain `schema`. It adds a `meta` block, a `theme` and a `layout`. The layout's
  `tables` map is filled one table definition at a time. A loop over the section keys builds the
  `uiSchema` section entries, and one entry is patched for section F. The five parts are then
  wrapped into `template_json`.

The model has the same layers:

- **`Json`** (`json.dfy`): the emitted values. They are `Bool`, `Int`, `Num` (a decimal kept as
  text), `Str`, `Arr` and `Obj`.
- **`Fields`**, **`Schema`**, **`Tables`**: a typed view of the schema, with one encoder to the
  exact dictionary shape.
  - `Fields` (`fields.dfy`) holds the leaf kinds.
  - `Schema` (`schema.dfy`) holds objects with `required` lists and `allOf` `if`/`then` rules,
    arrays, and `$ref`s with an optional select widget.
  - `Tables` (`tables.dfy`) holds `table_array` and the other repeated shapes.
  - `Schema` states what a consistent schema dictionary is. Its `required` lists and rules name
    declared properties, its `$ref`s resolve to `$defs`, every enumeration offers its default, and
    its objects are closed. `Schema` proves that the encoder keeps every typed rule.
- **`FrontMatter`** and **`SectionA`** to **`SectionM`**: the literal, cut into methods. Every
  section, every `table_array` call, every row object, every object written twice and every
  larger object is a method of its own. It returns its sub-schema and promises that the
  sub-schema is sound. A parent uses only its children's contracts. Leaves and small objects
  are written inline in their parent.
- **`Template`** (`template.dfy`): the root literal and the builder.
  - `Template.SchemaBuilder` is a class. Its `sections` field is the aliased map. `Insert` changes
    one entry of it, and `Finalize` nests the map into the document.
  - `BuildSchema` runs the thirteen insertions, in three runs. It proves that the finished
    document is consistent and closed, that its root keeps its shape, that its populated sections
    are exactly its required ones, and that sections C and F select their table's format by the
    reporting frequency.
- **`SourcePrefix`**: `source.split("# Write to file")[0]`.
- **`Layout`**: the table definitions and their round trip through dictionaries.
- **`UiSchema`**: the titled section entries, the F patch and `ui:order`.
- **`TemplateJson`**: the five-key document.

Two behaviours of the code shape the model:

- `table_array` does not check that the required columns are among the given columns. It returns
  such a table unchanged (`Tables.TableArrayKeepsUndeclaredColumn`). That every table in the file
  is well formed is therefore proved call site by call site.
- `prefill_rows` of `B.associated_documents` holds three labels: `PMS Plan`, `Clinical Evaluation
  Report` and `PMCF Plan` (scripts/generate_template_json.py:210). They are the first three values
  of the schema's `document_type` enumeration, which also offers `Other`.
  `Layout.AssociatedDocuments` states the list exactly.

## Model

| member | source | states |
|---|---|---|
| SectionA.ExecutiveSummary | template.py:148-208 | `executive_summary` is sound: its `required` list and every `if`/`then` rule name only properties it declares, every `$ref` in it names a `$defs` entry, and every enumeration default is one of its values |
| SectionA.PreviousPsurActionsStatus | template.py:153-169 | `previous_psur_actions_status` is sound: its `required` list and every `if`/`then` rule name only properties it declares, every `$ref` in it names a `$defs` entry, and every enumeration default is one of its values |
| SectionB.ScopeAndDeviceDescription | template.py:211-433 | `scope_and_device_description` is sound: its `required` list and every `if`/`then` rule name only properties it declares, every `$ref` in it names a `$defs` entry, and every enumeration default is one of its values |
| SectionB.DeviceInformation | template.py:218-226 | `device_information` is sound: its `required` list and every `if`/`then` rule name only properties it declares, every `$ref` in it names a `$defs` entry, and every enumeration default is one of its values |
| SectionB.DeviceClassification | template.py:227-254 | `device_classification` is sound: its `required` list and every `if`/`then` rule name only properties it declares, every `$ref` in it names a `$defs` entry, and every enumeration default is one of its values |
| SectionB.UkClassification | template.py:236-250 | `uk_classification` is sound: its `required` list and every `if`/`then` rule name only properties it declares, every `$ref` in it names a `$defs` entry, and every enumeration default is one of its values |
| SectionB.DeviceTimelineAndStatus | template.py:255-305 | `device_timeline_and_status` is sound: its `required` list and every `if`/`then` rule name only properties it declares, every `$ref` in it names a `$defs` entry, and every enumeration default is one of its values |
| SectionB.CertificationMilestones | template.py:260-291 | `certification_milestones` is sound: its `required` list and every `if`/`then` rule name only properties it declares, every `$ref` in it names a `$defs` entry, and every enumeration default is one of its values |
| SectionB.Uk | template.py:274-289 | `uk` is sound: its `required` list and every `if`/`then` rule name only properties it declares, every `$ref` in it names a `$defs` entry, and every enumeration default is one of its values |
| SectionB.PsurObligationStatusAssessment | template.py:292-303 | `psur_obligation_status_assessment` is sound: its `required` list and every `if`/`then` rule name only properties it declares, every `$ref` in it names a `$defs` entry, and every enumeration default is one of its values |
| SectionB.DeviceDescriptionAndInformation | template.py:306-317 | `device_description_and_information` is sound: its `required` list and every `if`/`then` rule name only properties it declares, every `$ref` in it names a `$defs` entry, and every enumeration default is one of its values |
| SectionB.DeviceInformationBreakdown | template.py:318-358 | `device_information_breakdown` is sound: its `required` list and every `if`/`then` rule name only properties it declares, every `$ref` in it names a `$defs` entry, and every enumeration default is one of its values |
| SectionB.BasicUdiDiRows | template.py:328-337 | `basic_udi_di_rows` is a `table_array` row table with `minItems` 1 whose required columns are declared columns and whose column schemas are sound |
| SectionB.DeviceGroupFamilyRows | template.py:346-354 | `device_group_family_rows` is a `table_array` row table with `minItems` 0 whose required columns are declared columns and whose column schemas are sound |
| SectionB.DataCollectionPeriodReportingPeriodInformation | template.py:359-385 | `data_collection_period_reporting_period_information` is sound: its `required` list and every `if`/`then` rule name only properties it declares, every `$ref` in it names a `$defs` entry, and every enumeration default is one of its values |
| SectionB.PmsPeriodDeterminationUkDevices | template.py:373-383 | `pms_period_determination_uk_devices` is sound: its `required` list and every `if`/`then` rule name only properties it declares, every `$ref` in it names a `$defs` entry, and every enumeration default is one of its values |
| SectionB.TechnicalInformation | template.py:386-408 | `technical_information` is sound: its `required` list and every `if`/`then` rule name only properties it declares, every `$ref` in it names a `$defs` entry, and every enumeration default is one of its values |
| SectionB.AssociatedDocumentsRow | template.py:395-404 | `associated_documents_row` is sound: its `required` list and every `if`/`then` rule name only properties it declares, every `$ref` in it names a `$defs` entry, and every enumeration default is one of its values |
| SectionB.AssociatedDocumentsRowDocumentType | template.py:400-400 | `document_type` is a plain string field whose enumeration is exactly `PMS Plan`, `Clinical Evaluation Report`, `PMCF Plan`, `Other`, in that order |
| SectionB.ModelCatalogNumbers | template.py:409-416 | `model_catalog_numbers` is sound: its `required` list and every `if`/`then` rule name only properties it declares, every `$ref` in it names a `$defs` entry, and every enumeration default is one of its values |
| SectionB.DeviceGroupingInformation | template.py:417-431 | `device_grouping_information` is sound: its `required` list and every `if`/`then` rule name only properties it declares, every `$ref` in it names a `$defs` entry, and every enumeration default is one of its values |
| SectionC.VolumeOfSalesAndPopulationExposure | template.py:436-545 | `volume_of_sales_and_population_exposure` is sound: its `required` list and every `if`/`then` rule name only properties it declares, every `$ref` in it names a `$defs` entry, and every enumeration default is one of its values |
| SectionC.CriteriaUsedForSalesData | template.py:446-466 | `criteria_used_for_sales_data` is sound: its `required` list and every `if`/`then` rule name only properties it declares, every `$ref` in it names a `$defs` entry, and every enumeration default is one of its values |
| SectionC.Other | template.py:456-464 | `other` is sound: its `required` list and every `if`/`then` rule name only properties it declares, every `$ref` in it names a `$defs` entry, and every enumeration default is one of its values |
| SectionC.Table1SalesByRegion | template.py:470-515 | `table_1_sales_by_region` is sound: its `required` list and every `if`/`then` rule name only properties it declares, every `$ref` in it names a `$defs` entry, and every enumeration default is one of its values; `use_if_psur_frequency` is required and a two-value frequency choice, `ANNUALLY` makes exactly `annual_format` required and `EVERY_TWO_YEARS` exactly `every_two_years_format`, neither of which is required otherwise |
| SectionC.AnnualFormatRows | template.py:481-489 | `rows` is a `table_array` row table with `minItems` 0 whose required columns are declared columns and whose column schemas are sound |
| SectionC.EveryTwoYearsFormatRows | template.py:497-505 | `rows` is a `table_array` row table with `minItems` 0 whose required columns are declared columns and whose column schemas are sound |
| SectionC.SizeAndCharacteristicsOfPopulationUsingDevice | template.py:525-543 | `size_and_characteristics_of_population_using_device` is sound: its `required` list and every `if`/`then` rule name only properties it declares, every `$ref` in it names a `$defs` entry, and every enumeration default is one of its values |
| SectionD.InformationOnSeriousIncidents | template.py:548-588 | `information_on_serious_incidents` is sound: its `required` list and every `if`/`then` rule name only properties it declares, every `$ref` in it names a `$defs` entry, and every enumeration default is one of its values |
| SectionD.Table2SeriousIncidentsByImdrfAnnexAByRegion | template.py:554-563 | `table_2_serious_incidents_by_imdrf_annex_a_by_region` is a `table_array` row table with `minItems` 0 whose required columns are declared columns and whose column schemas are sound |
| SectionD.Table3SeriousIncidentsByImdrfAnnexCInvestigationFindingsByRegion | template.py:564-573 | `table_3_serious_incidents_by_imdrf_annex_c_investigation_findings_by_region` is a `table_array` row table with `minItems` 0 whose required columns are declared columns and whose column schemas are sound |
| SectionD.Table4HealthImpactByInvestigationConclusion | template.py:574-585 | `table_4_health_impact_by_investigation_conclusion` is a `table_array` row table with `minItems` 0 whose required columns are declared columns and whose column schemas are sound |
| SectionD.InvestigationConclusion | template.py:580-583 | `investigation_conclusion` is sound: its `required` list and every `if`/`then` rule name only properties it declares, every `$ref` in it names a `$defs` entry, and every enumeration default is one of its values |
| SectionE.CustomerFeedback | template.py:591-607 | `customer_feedback` is sound: its `required` list and every `if`/`then` rule name only properties it declares, every `$ref` in it names a `$defs` entry, and every enumeration default is one of its values |
| SectionE.Table6FeedbackByTypeAndSource | template.py:597-605 | `table_6_feedback_by_type_and_source` is a `table_array` row table with `minItems` 0 whose required columns are declared columns and whose column schemas are sound |
| SectionF.ProductComplaintTypesCountsAndRates | template.py:610-701 | `product_complaint_types_counts_and_rates` is sound: its `required` list and every `if`/`then` rule name only properties it declares, every `$ref` in it names a `$defs` entry, and every enumeration default is one of its values |
| SectionF.Table7ComplaintRateAndCount | template.py:632-699 | `table_7_complaint_rate_and_count` is sound: its `required` list and every `if`/`then` rule name only properties it declares, every `$ref` in it names a `$defs` entry, and every enumeration default is one of its values; `use_if_psur_frequency` is required and a two-value frequency choice, `ANNUALLY` makes exactly `annual_format` required and `EVERY_TWO_YEARS` exactly `every_two_years_format`, neither of which is required otherwise |
| SectionF.AnnualFormat | template.py:638-663 | `annual_format` is sound: its `required` list and every `if`/`then` rule name only properties it declares, every `$ref` in it names a `$defs` entry, and every enumeration default is one of its values |
| SectionF.AnnualFormatRows | template.py:644-653 | `rows` is a `table_array` row table with `minItems` 0 whose required columns are declared columns and whose column schemas are sound |
| SectionF.EveryTwoYearsFormatRows | template.py:670-681 | `rows` is a `table_array` row table with `minItems` 0 whose required columns are declared columns and whose column schemas are sound |
| SectionF.EveryTwoYearsFormatGrandTotal | template.py:682-691 | `grand_total` is sound: its `required` list and every `if`/`then` rule name only properties it declares, every `$ref` in it names a `$defs` entry, and every enumeration default is one of its values |
| SectionG.InformationFromTrendReporting | template.py:704-740 | `information_from_trend_reporting` is sound: its `required` list and every `if`/`then` rule name only properties it declares, every `$ref` in it names a `$defs` entry, and every enumeration default is one of its values |
| SectionG.TrendReports | template.py:725-736 | `trend_reports` is a `table_array` row table with `minItems` 0 whose required columns are declared columns and whose column schemas are sound |
| SectionH.InformationFromFsca | template.py:743-763 | `information_from_fsca` is sound: its `required` list and every `if`/`then` rule name only properties it declares, every `$ref` in it names a `$defs` entry, and every enumeration default is one of its values |
| SectionH.Table8FscaInitiatedCurrentPeriodAndOpenFscas | template.py:749-761 | `table_8_fsca_initiated_current_period_and_open_fscas` is a `table_array` row table with `minItems` 0 whose required columns are declared columns and whose column schemas are sound |
| SectionI.CorrectiveAndPreventiveActions | template.py:766-786 | `corrective_and_preventive_actions` is sound: its `required` list and every `if`/`then` rule name only properties it declares, every `$ref` in it names a `$defs` entry, and every enumeration default is one of its values |
| SectionI.Table9CapaInitiatedCurrentReportingPeriod | template.py:772-784 | `table_9_capa_initiated_current_reporting_period` is a `table_array` row table with `minItems` 0 whose required columns are declared columns and whose column schemas are sound |
| SectionJ.ScientificLiteratureReview | template.py:789-803 | `scientific_literature_review` is sound: its `required` list and every `if`/`then` rule name only properties it declares, every `$ref` in it names a `$defs` entry, and every enumeration default is one of its values |
| SectionK.ReviewOfExternalDatabasesAndRegistries | template.py:806-824 | `review_of_external_databases_and_registries` is sound: its `required` list and every `if`/`then` rule name only properties it declares, every `$ref` in it names a `$defs` entry, and every enumeration default is one of its values |
| SectionK.Table10AdverseEventsAndRecalls | template.py:812-822 | `table_10_adverse_events_and_recalls` is a `table_array` row table with `minItems` 0 whose required columns are declared columns and whose column schemas are sound |
| SectionL.Pmcf | template.py:827-844 | `pmcf` is sound: its `required` list and every `if`/`then` rule name only properties it declares, every `$ref` in it names a `$defs` entry, and every enumeration default is one of its values |
| SectionL.Table11PmcfActivities | template.py:833-842 | `table_11_pmcf_activities` is a `table_array` row table with `minItems` 0 whose required columns are declared columns and whose column schemas are sound |
| SectionM.FindingsAndConclusions | template.py:847-875 | `findings_and_conclusions` is sound: its `required` list and every `if`/`then` rule name only properties it declares, every `$ref` in it names a `$defs` entry, and every enumeration default is one of its values |
| SectionM.ActionsTakenOrPlanned | template.py:856-872 | `actions_taken_or_planned` is sound: its `required` list and every `if`/`then` rule name only properties it declares, every `$ref` in it names a `$defs` entry, and every enumeration default is one of its values |
| FrontMatter.Form | template.py:25-51 | `form` is sound: its `required` list and every `if`/`then` rule name only properties it declares, every `$ref` in it names a `$defs` entry, and every enumeration default is one of its values |
| FrontMatter.DocumentControl | template.py:33-49 | `document_control` is sound: its `required` list and every `if`/`then` rule name only properties it declares, every `$ref` in it names a `$defs` entry, and every enumeration default is one of its values |
| FrontMatter.PsurCoverPage | template.py:53-123 | `psur_cover_page` is sound: its `required` list and every `if`/`then` rule name only properties it declares, every `$ref` in it names a `$defs` entry, and every enumeration default is one of its values |
| FrontMatter.ManufacturerInformation | template.py:58-81 | `manufacturer_information` is sound: its `required` list and every `if`/`then` rule name only properties it declares, every `$ref` in it names a `$defs` entry, and every enumeration default is one of its values |
| FrontMatter.AuthorizedRepresentative | template.py:66-79 | `authorized_representative` is sound: its `required` list and every `if`/`then` rule name only properties it declares, every `$ref` in it names a `$defs` entry, and every enumeration default is one of its values |
| FrontMatter.RegulatoryInformation | template.py:82-100 | `regulatory_information` is sound: its `required` list and every `if`/`then` rule name only properties it declares, every `$ref` in it names a `$defs` entry, and every enumeration default is one of its values |
| FrontMatter.DocumentInformation | template.py:101-121 | `document_information` is sound: its `required` list and every `if`/`then` rule name only properties it declares, every `$ref` in it names a `$defs` entry, and every enumeration default is one of its values |
| Fields.AttrsPlain | template.py:60-75 | every leaf kind that meets its own conditions is written as a plain dictionary: no `$ref`, no `object` or `array` type, and a default only when it is among the enumerated values |
| Fields.ChoiceDefaultOffered | template.py:164 | an inline enumeration with a default is acceptable exactly when its emitted `default` is one of its emitted `enum` values |
| Schema.RuleEncodingConsistent | template.py:189-191 | an `if`/`then` rule whose names are declared properties is emitted as an `allOf` entry whose `if` and `then` mention only declared properties |
| Schema.RequiredWhenEncoded | template.py:509-514 | reading the `then.required` lists back off the emitted `allOf` list for a property and a value gives exactly the names the typed rules make required for them |
| Schema.FormatRules | template.py:509-514 | the pair of frequency rules makes exactly `annual` required for `ANNUALLY` and exactly `biennial` required for `EVERY_TWO_YEARS` |
| Schema.EncodeConsistent | template.py:148-875 | every well-formed typed schema is emitted as a consistent dictionary: `required` lists and rules name declared properties, `$ref`s name `$defs` entries, enumeration defaults are offered, at every depth |
| Schema.EncodeClosed | template.py:148-875 | every object a well-formed schema emits, at every depth, says `additionalProperties: false` |
| Schema.PropertyEncoded | template.py:148-152 | the emitted dictionary of an object schema holds, under `properties`, exactly the encoding of each typed property |
| Schema.FormatChoiceEncoded | template.py:470-514 | a typed frequency choice survives encoding: the emitted object declares `use_if_psur_frequency` as the two-value enumeration, requires it and neither format, and its `allOf` makes exactly the annual format required for `ANNUALLY` and exactly the biennial one for `EVERY_TWO_YEARS` |
| Schema.FormatSelectedEncoded | template.py:470-514 | a table property whose typed schema selects one format by the frequency does so in the emitted dictionary too |
| Tables.Select | template.py:175 | a `$ref` select on a shared enumeration is sound when its target is a `$defs` entry |
| Tables.DateRanges | template.py:480 | the fixed-length list of date-range strings is sound and its `minItems` is its length |
| Tables.Amounts | template.py:485 | the fixed-length list of optional numbers is sound and its `minItems` is its length |
| Tables.TableArray | template.py:3-14 | `table_array` returns an array whose rows are objects and whose `minItems` is the given bound |
| Tables.TableArrayShape | template.py:3-14 | the dictionary `table_array` returns has exactly `type: array`, `minItems`, `items` and `ui: {widget: table}`, and its `items` is a closed object with exactly the given `required` list and properties |
| Tables.TableRowShape | template.py:7-12 | the row object of a table is closed and has exactly the given `required` list and properties |
| Tables.TableArrayWellFormed | template.py:3-14 | a row table is well formed exactly when each required column is a declared column and each column schema is well formed |
| Tables.TableArrayKeepsUndeclaredColumn | template.py:3-14 | the factory accepts a required column that is not a column, and the table it returns is not sound |
| Template.SharedEnumConsistent | template.py:129-132 | a shared enumeration with default `NOT_SELECTED` is consistent exactly when `NOT_SELECTED` is one of its options |
| Template.SharedEnumsConsistent | template.py:128-133 | `TriState`, `YesNoNA`, `MDRClass` and `USFDAClass` are each consistent |
| Template.SectionsDefConsistent | template.py:134-141 | `$defs.sections` is consistent exactly when every required section name is a populated section and every populated section schema is consistent |
| Template.DefsConsistent | template.py:128-142 | all of `$defs` is consistent exactly when every required section is populated and every populated section is consistent |
| Template.RootShape | template.py:21-125 | the root is an object with `additionalProperties: false` that requires exactly `form`, `psur_cover_page`, `sections`, declares exactly those three, and refers `sections` to `#/$defs/sections` |
| Template.RootWellFormed | template.py:21-125 | the root object is well formed exactly when `form` and `psur_cover_page` are sound |
| Template.AnnotationsKeepConsistency | template.py:17-20 | adding `$schema`, `$id`, `title`, `description` and `$defs` beside the root object's keywords leaves its consistency unchanged |
| Template.AnnotationsKeepRootShape | template.py:17-20 | the same annotation keys leave the root's shape as it is: its type, `additionalProperties`, `required` list and declared properties |
| Template.AnnotationsKeepClosed | template.py:17-20 | the same annotation keys leave the root closed exactly when it was |
| Template.DocumentRootShaped | template.py:16-125 | whatever its header and `$defs`, the document has the root's shape: an object that rejects undeclared properties, requires and declares exactly `form`, `psur_cover_page`, `sections`, and takes `sections` from `#/$defs/sections` |
| Template.DocumentConsistency | template.py:16-143 | with a well-formed root object, the document's `$defs` are the given ones, and the document is consistent exactly when every `$defs` entry is |
| Template.LiteralConsistency | template.py:16-143 | with a well-formed root object, the literal is consistent exactly when every required section is populated and every populated section is consistent |
| Template.EmptyLiteralInconsistent | template.py:136-140 | the literal as written, with `sections.properties` still empty, is not consistent |
| Template.LiteralSections | template.py:128-141 | the literal's `$defs` keys are the five names, its required sections are the header's order, and its populated sections are the keys of the map it holds |
| Template.LiteralSectionOf | template.py:134-145 | every section of the map the literal holds is read back off `$defs.sections.properties` unchanged |
| Template.SharedEnumClosed | template.py:129-132 | a shared enumeration is closed: it is neither an object nor an array schema |
| Template.SectionsDefClosed | template.py:134-141 | `$defs.sections` is closed exactly when every populated section schema is |
| Template.DefsClosed | template.py:128-142 | every `$defs` entry is closed exactly when every populated section schema is |
| Template.LiteralClosed | template.py:16-143 | with a well-formed root object, the literal and every `$defs` entry are closed exactly when every populated section schema is |
| Template.SchemaBuilder.constructor | template.py:16-143 | the builder keeps the given `form` and `psur_cover_page`, takes the header with the thirteen-name required order, and starts with no sections; its root object is well formed exactly when `form` and `psur_cover_page` are sound |
| Template.SchemaBuilder.Insert | template.py:145-148 | an assignment through the alias changes exactly one entry of `sections` and leaves the others as they were |
| Template.SchemaBuilder.Finalize | template.py:16-145 | the document reflects the aliased map. It has the root's shape, the five `$defs` names and the header's order as required sections. Its populated sections are the map's keys, and each reads back as stored. With sound `form` and `psur_cover_page` it is consistent exactly when every required section is populated and all are consistent, and closed exactly when all sections are |
| Template.InsertedAppend | template.py:148-875 | one run of assignments followed by another leaves the map as the single run of both, in order |
| Template.InsertedKeys | template.py:148-875 | after a run of assignments the keys are the old keys plus the assigned names |
| Template.InsertedValues | template.py:148-875 | after a run of assignments to distinct names, each name holds the encoding of the schema assigned to it, and every other old entry is unchanged |
| Template.InsertedKeepsRules | template.py:148-875 | assigning encodings of sound schemas keeps every entry of the map consistent and closed |
| Template.SectionNamesDistinct | template.py:137-139 | the thirteen required section names are pairwise distinct, so no assignment overwrites another |
| Template.ThreeRunsAreOne | template.py:148-875 | the runs for A to C, D to G and H to M, one after another, are the single run of all thirteen in order |
| Template.InsertSectionsAToC | template.py:148-545 | the map afterwards is the old one with A, B and C assigned, in order, the encodings of three sound schemas; and C's `table_1_sales_by_region` requires `use_if_psur_frequency` and makes exactly `annual_format` required for `ANNUALLY` and exactly `every_two_years_format` for `EVERY_TWO_YEARS` |
| Template.InsertSectionsDToG | template.py:548-740 | the map afterwards is the old one with D, E, F and G assigned, in order, the encodings of four sound schemas; and F's `table_7_complaint_rate_and_count` selects its format by the frequency the same way |
| Template.InsertSectionsHToM | template.py:743-875 | the map afterwards is the old one with H to M assigned, in order, the encodings of six sound schemas |
| Template.InsertSections | template.py:148-875 | the keys are the old keys plus the thirteen names. Each name holds the encoding of its sound schema, and every other entry is unchanged. Every entry stays consistent and closed. The schemas of C and F select their table's format by the frequency |
| Template.BuildSchema | template.py:16-875 | the finished schema is consistent and closed, and its root has the root's shape. Its `$defs` are the five names. Its required sections are the thirteen names in order, and its populated sections are exactly those thirteen. Read off the document, the Table 1 of C and the Table 7 of F each require `use_if_psur_frequency` and make exactly one format required for each frequency |
| SourcePrefix.FindFrom | scripts/generate_template_json.py:25 | the result is the first position at or after `from` where the marker occurs, or none when it occurs nowhere from there |
| SourcePrefix.HeadBeforeSpec | scripts/generate_template_json.py:23-25 | the head is a prefix of the source that does not contain the marker. It is the whole source exactly when the marker is absent. Otherwise the marker starts right after it, and at no earlier index of the source |
| Layout.ColumnsRoundTrip | scripts/generate_template_json.py:68-75 | an encoded column list reads back as the same columns |
| Layout.MergedCellsRoundTrip | scripts/generate_template_json.py:77-81 | an encoded merged-cell list reads back as the same cells |
| Layout.TableRoundTrip | scripts/generate_template_json.py:68-83 | every table definition reads back from its dictionary unchanged |
| Layout.AnnualSales | scripts/generate_template_json.py:68-83 | 6 distinct columns, `header_rows` 3, and 3 merged cells, each in a header row, spanning existing columns in order, none overlapping another |
| Layout.IncidentsByProblemCode | scripts/generate_template_json.py:86-94 | 5 columns with distinct keys |
| Layout.IncidentsByCauseCode | scripts/generate_template_json.py:97-105 | 5 columns with distinct keys |
| Layout.HealthImpactByConclusion | scripts/generate_template_json.py:108-118 | 7 columns with distinct keys |
| Layout.FeedbackByTypeAndSource | scripts/generate_template_json.py:121-128 | 4 columns with distinct keys |
| Layout.ComplaintRateAndCount | scripts/generate_template_json.py:131-137 | 3 columns with distinct keys |
| Layout.TrendReports | scripts/generate_template_json.py:140-150 | 7 columns with distinct keys |
| Layout.Fscas | scripts/generate_template_json.py:153-164 | 8 columns with distinct keys |
| Layout.Capas | scripts/generate_template_json.py:167-178 | 8 columns with distinct keys |
| Layout.ExternalDatabaseFindings | scripts/generate_template_json.py:181-190 | 6 columns with distinct keys |
| Layout.PmcfActivities | scripts/generate_template_json.py:193-201 | 5 columns with distinct keys |
| Layout.AssociatedDocuments | scripts/generate_template_json.py:204-211 | 3 columns with distinct keys, and the prefilled rows are exactly `PMS Plan`, `Clinical Evaluation Report`, `PMCF Plan`: the first three values of the schema's `document_type` enumeration, without `Other` |
| Layout.MdrDevices | scripts/generate_template_json.py:214-221 | 4 columns with distinct keys |
| Layout.BuildTables | scripts/generate_template_json.py:65-221 | after the thirteen assignments the map holds exactly the thirteen table ids. Each id holds a definition that keeps the table rules and has that id's number of columns: 6, 5, 5, 7, 4, 3, 7, 8, 8, 6, 5, 3 and 4, in insertion order. `C.table_1_annual_sales` also has three header rows and three merged cells. `B.associated_documents` prefills exactly the first three document types, which are enumeration values |
| Layout.TablesRoundTrip | scripts/generate_template_json.py:231 | the `tables` dictionary has the definitions' ids as keys and each entry reads back as its definition |
| Layout.LayoutJsonShape | scripts/generate_template_json.py:223-232 | `layout` has exactly `pageModel`, `section_order_locked`, `typography_lock` and `tables`, its `tables` entry is the definitions' dictionary, and its `typography_lock` is the locked font |
| Layout.LayoutRoundTrip | scripts/generate_template_json.py:223-232 | `layout` has its four keys, and every table under `tables` reads back as the definition stored |
| Layout.BuildLayout | scripts/generate_template_json.py:65-232 | the built `layout` has its four keys and locks the font. Its tables are exactly the thirteen ids. Each one parses back to a definition that keeps the table rules and what its id promises in `Layout.BuildTables`. `C.table_1_annual_sales` reads back with six columns, three header rows and three merged cells, and the prefilled document types are enumeration values |
| Layout.LayoutKeepsPromises | scripts/generate_template_json.py:65-232 | a `layout` whose tables read back as the definitions of a map keeping every id's promise keeps those promises itself, with the annual-sales shape and the document-type prefill |
| Layout.PrefillInEnum | scripts/generate_template_json.py:204-212 | in a map keeping every id's promise, the rows prefilled by `B.associated_documents` are values of the `document_type` enumeration |
| UiSchema.SectionKeysMatchSchema | scripts/generate_template_json.py:236-250 | `section_keys` is the schema's required section list, in the same order |
| UiSchema.TitlesCoverKeys | scripts/generate_template_json.py:252-266 | `section_titles` has a title for every section key and for nothing else |
| UiSchema.BuildUiSections | scripts/generate_template_json.py:268-272 | the loop succeeds exactly when every key has a title. It then yields one entry per key, titled from the map. Otherwise it raises a `KeyError` on the first key without a title |
| UiSchema.PatchSectionF | scripts/generate_template_json.py:275-283 | F's entry gains exactly the Table 7 hint and keeps its other keys; no other section entry changes |
| UiSchema.UiSections | scripts/generate_template_json.py:268-283 | with titles for exactly the keys, every section has an entry titled from the map; only F's differs from a bare title entry, holding its title and the hint |
| UiSchema.SectionsEntryKeepsOrder | scripts/generate_template_json.py:291-294 | when no section is called `ui:order`, the spread keeps the order list and every section entry |
| UiSchema.SectionsEntryOverwritesOrder | scripts/generate_template_json.py:291-294 | a section called `ui:order` would replace the order list |
| UiSchema.NoSectionIsOrder | scripts/generate_template_json.py:236-250 | no section key is `ui:order` |
| UiSchema.UiSchemaFor | scripts/generate_template_json.py:285-296 | `ui:order` is the key list, the sections hold exactly `ui:order` and one entry per key, each entry carries its title, and F carries the hint |
| UiSchema.BuildUiSchema | scripts/generate_template_json.py:236-296 | the built `uiSchema` orders the thirteen section keys, titles each one from `section_titles`, and carries the Table 7 hint in F |
| TemplateJson.Meta | scripts/generate_template_json.py:32-38 | `meta` has its five keys and names `template.py` as its source file |
| TemplateJson.Theme | scripts/generate_template_json.py:42-61 | `theme` has the one key `word_form_fidelity`, whose font family, size and line height are the layout's locked font |
| TemplateJson.AssembleParts | scripts/generate_template_json.py:299-305 | the document has exactly `meta`, `schema`, `uiSchema`, `layout`, `theme`, each holding its part unchanged |
| TemplateJson.Generate | scripts/generate_template_json.py:23-305 | the whole document has the five keys. Its schema is consistent and closed, has the root's shape, and populates exactly the required sections, which are the `ui:order` list. Sections C and F of the schema select their table's format by the frequency. Every section is titled, and F carries the Table 7 hint. The theme's font is the layout's lock. The layout holds exactly the thirteen table ids. Each parses back keeping the table rules and its id's column count, and `C.table_1_annual_sales` has six columns, three header rows and three merged cells. The prefilled document types are enumeration values |

Definitions without a contract of their own are stated by the rows above:

- `SourcePrefix.HeadBefore` by `SourcePrefix.HeadBeforeSpec`.
- `Template.RootObject` by `Template.RootShape` and `Template.RootWellFormed`.
- `Template.Literal` by `Template.LiteralSections`, `Template.LiteralSectionOf`,
  `Template.LiteralConsistency`, `Template.LiteralClosed` and `Template.EmptyLiteralInconsistent`.
- `Layout.TableJson` by `Layout.TableRoundTrip`.
- `Layout.LayoutJson` by `Layout.LayoutJsonShape` and `Layout.LayoutRoundTrip`.
- `UiSchema.HierarchicalHint` by `UiSchema.PatchSectionF` and `UiSchema.UiSections`.
- `UiSchema.SectionsEntry` by `UiSchema.SectionsEntryKeepsOrder` and `UiSchema.SectionsEntryOverwritesOrder`.
- `UiSchema.UiSchemaJson` by `UiSchema.UiSchemaFor`.
- `TemplateJson.Assemble` by `TemplateJson.AssembleParts`.


## Left out

- File output is not modelled: `open`, `json.dump`, `os.path.getsize`, `print`, the output paths and the bare `out_path` statement. They are side effects with nothing to prove.
- `exec(source)` is not modelled, because dynamic execution of Python text has no model. `SourcePrefix` models the slicing of the source. `TemplateJson.Generate` then calls `Template.BuildSchema` directly, as though the prefix had run.
- JSON serialisation is not modelled: indentation, `ensure_ascii` and the key order of the output. Dictionaries are Dafny maps. Order is kept where the code makes it a list: `required`, `enum`, `section_keys`, `ui:order`, `columns`, `merged_cells`, `prefill_rows`.
- Floating-point values are not modelled. The only one is `lineHeight: 1.15`, a `Num` value holding its decimal text. The bounds `minimum` and `maximum` are integers in the source and `Int` values here.
- The meaning of the JSON Schema keywords is not modelled: `format`, `pattern`, `minLength`, and validating a filled-in form. Nothing in the code validates data. "Consistent" here means only the structural rules stated above.
- No cross-check between layout table ids and schema tables is modelled. The code promises none, and some layout column keys deliberately differ from the schema's columns.
- Template.SchemaBuilder.Finalize: the document is returned as a value, not as the very dictionary the alias mutates. Aliasing is modelled by the builder's single `sections` field standing for both names.
- The section schema methods (`FrontMatter.*`, `SectionA.*` to `SectionM.*`): each promises soundness, plus the two frequency discriminators, the `minItems` bounds and the document-type enumeration. Their other constant contents (titles, patterns, widget names, help texts) are written out in their bodies but promised by no contract.
- TemplateJson.Meta: promises only its key set and `source_file`. The other values are fixed data with no logic.
- TemplateJson.Theme: promises only its key and the font it shares with the layout lock. Table and input styling are fixed data.
- SourcePrefix.HeadBefore: requires a non-empty marker, because Python's `split` raises `ValueError` on an empty separator. The code's marker is the constant `"# Write to file"`.
- UiSchema.PatchSectionF: requires F's entry to exist and be a dictionary. In the code, the loop just before has created it, and a missing entry would raise `KeyError`.
- UiSchema.UiSections: requires titles for exactly the keys, and the key of section F. These are met by `section_titles` (`UiSchema.TitlesCoverKeys`). A missing title would make the loop return `KeyError`, which `UiSchema.BuildUiSections` models.
- UiSchema.UiSchemaFor: requires that no section key is `ui:order`. The script's constant keys meet it (`UiSchema.NoSectionIsOrder`). `UiSchema.SectionsEntryOverwritesOrder` shows that a colliding key would replace the order list in the `{"ui:order": ..., **ui_sections}` spread.
