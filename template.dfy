/** The root `schema` literal of template.py, the builder that fills its `sections` map through the
    alias `sections = schema["$defs"]["sections"]["properties"]`, and the document it yields. */
module Template {
  import opened Json
  import opened Fields
  import opened Schema
  import FrontMatter
  import SectionA
  import SectionB
  import SectionC
  import SectionD
  import SectionE
  import SectionF
  import SectionG
  import SectionH
  import SectionI
  import SectionJ
  import SectionK
  import SectionL
  import SectionM

  /** The `required` list of `$defs.sections` (template.py:136-139). */
  const SectionOrder: seq<string> := [
    "A_executive_summary", "B_scope_and_device_description", "C_volume_of_sales_and_population_exposure",
    "D_information_on_serious_incidents", "E_customer_feedback", "F_product_complaint_types_counts_and_rates",
    "G_information_from_trend_reporting", "H_information_from_fsca", "I_corrective_and_preventive_actions",
    "J_scientific_literature_review", "K_review_of_external_databases_and_registries", "L_pmcf",
    "M_findings_and_conclusions"]

  /** The root object requires exactly these properties (template.py:23). */
  const RootRequired: seq<string> := ["form", "psur_cover_page", "sections"]

  /** A shared enumeration of `$defs`: a string among `options`, `NOT_SELECTED` by default. */
  function SharedEnum(options: seq<string>): Json {
    Obj(map["type" := Str("string"), "enum" := StrArr(options), "default" := Str("NOT_SELECTED")])
  }

  const TriStateOptions: seq<string> := ["YES", "NO", "NOT_SELECTED"]
  const YesNoNAOptions: seq<string> := ["YES", "NO", "N_A", "NOT_SELECTED"]
  const MDRClassOptions: seq<string> := ["CLASS_IIA", "CLASS_IIB", "CLASS_III", "NOT_SELECTED"]
  const USFDAClassOptions: seq<string> := ["CLASS_I", "CLASS_II", "CLASS_III", "NOT_SELECTED"]

  /** `$defs.sections`: a closed object that requires the sections of `order` and declares `props`. */
  function SectionsDef(order: seq<string>, props: map<string, Json>): Json {
    Obj(ObjectDict(Some(order), props, []))
  }

  /** The `$defs` dictionary around the current `sections` properties (template.py:128-142). */
  function Defs(order: seq<string>, props: map<string, Json>): map<string, Json> {
    map[
      "TriState" := SharedEnum(TriStateOptions),
      "YesNoNA" := SharedEnum(YesNoNAOptions),
      "MDRClass" := SharedEnum(MDRClassOptions),
      "USFDAClass" := SharedEnum(USFDAClassOptions),
      "sections" := SectionsDef(order, props)]
  }

  /** The typed root object: `form`, `psur_cover_page` and a reference to `$defs.sections`. */
  function RootObject(form: Schema, cover: Schema): Schema {
    Object(Some(RootRequired), map["form" := form, "psur_cover_page" := cover, "sections" := Ref("sections", None)], [])
  }

  /** The strings of the root literal: its `$schema`, `$id`, `title` and `description`, and the
      `required` list of `$defs.sections`. */
  datatype Header = Header(dialect: string, id: string, title: string, description: string, order: seq<string>)

  /** The strings of the root literal (template.py:17-20, 136-139). */
  const RootHeader: Header := Header(
    "https://json-schema.org/draft/2020-12/schema",
    "urn:coopersurgical:psur:FormQAR-054:ui-schema:revC",
    "FormQAR-054 PSUR UI Schema (Rev C)",
    "UI-oriented JSON Schema for FormQAR-054 (PSUR). Includes field types, required/optional, validation rules, and basic UI hints.",
    SectionOrder)

  /** The keys of the root literal that are not part of its object schema, around its `$defs`
      (template.py:17-20, 128). */
  function Annotations(h: Header, defs: map<string, Json>): map<string, Json> {
    map[
      "$schema" := Str(h.dialect),
      "$id" := Str(h.id),
      "title" := Str(h.title),
      "description" := Str(h.description),
      "$defs" := Obj(defs)]
  }

  /** The `schema` dictionary: the typed root object, its header and its `$defs`. */
  function Document(h: Header, root: Schema, defs: map<string, Json>): Json {
    Obj(Encode(root).fields + Annotations(h, defs))
  }

  /** The `schema` dictionary with `props` as its `$defs.sections.properties`. */
  function Literal(h: Header, root: Schema, props: map<string, Json>): Json {
    Document(h, root, Defs(h.order, props))
  }

  // ---------------------------------------------------------------------------------------------
  // Reading a document

  /** The `$defs` of a document; empty when it has none. */
  function DefsOf(doc: Json): map<string, Json> {
    if doc.Obj? && "$defs" in doc.fields && doc.fields["$defs"].Obj? then doc.fields["$defs"].fields else map[]
  }

  /** The document and each of its `$defs` satisfy the consistency rules, with references resolved
      against the document's own `$defs`. */
  predicate DocumentConsistent(doc: Json) {
    var defs := DefsOf(doc);
    SchemaConsistent(doc, defs.Keys) && forall k | k in defs :: SchemaConsistent(defs[k], defs.Keys)
  }

  /** The fields of `$defs.sections`; empty when it is missing. */
  function SectionsFields(doc: Json): map<string, Json> {
    var defs := DefsOf(doc);
    if "sections" in defs && defs["sections"].Obj? then defs["sections"].fields else map[]
  }

  /** The names `$defs.sections` requires, in order. */
  function RequiredSections(doc: Json): Option<seq<string>> {
    var f := SectionsFields(doc);
    if "required" in f && f["required"].Arr? then Strings(f["required"].items) else None
  }

  /** The names `$defs.sections` declares. */
  function PopulatedSections(doc: Json): set<string> {
    Declared(SectionsFields(doc))
  }

  /** Every entry of a map of schemas is consistent against the document's `$defs`. */
  predicate AllConsistent(props: map<string, Json>) {
    forall k | k in props :: SchemaConsistent(props[k], DefNames)
  }

  // ---------------------------------------------------------------------------------------------
  // Facts about the literal

  lemma DefsKeys(order: seq<string>, props: map<string, Json>)
    ensures Defs(order, props).Keys == DefNames
  {
  }

  /** A shared enumeration is consistent exactly when its default is one of its options. */
  lemma SharedEnumConsistent(options: seq<string>, defs: set<string>)
    ensures SchemaConsistent(SharedEnum(options), defs) <==> "NOT_SELECTED" in options
  {
    var f := SharedEnum(options).fields;
    assert !HasType(f, "object") && !HasType(f, "array");
    if "NOT_SELECTED" in options {
      var i :| 0 <= i < |options| && options[i] == "NOT_SELECTED";
      assert StrArr(options).items[i] == Str("NOT_SELECTED");
    }
    if SchemaConsistent(SharedEnum(options), defs) {
      var i :| 0 <= i < |options| && StrArr(options).items[i] == Str("NOT_SELECTED");
    }
  }

  /** Each shared enumeration offers `NOT_SELECTED` as its default (template.py:129-132). */
  lemma SharedEnumsConsistent(defs: set<string>)
    ensures SchemaConsistent(SharedEnum(TriStateOptions), defs)
    ensures SchemaConsistent(SharedEnum(YesNoNAOptions), defs)
    ensures SchemaConsistent(SharedEnum(MDRClassOptions), defs)
    ensures SchemaConsistent(SharedEnum(USFDAClassOptions), defs)
  {
    SharedEnumConsistent(TriStateOptions, defs);
    SharedEnumConsistent(YesNoNAOptions, defs);
    SharedEnumConsistent(MDRClassOptions, defs);
    SharedEnumConsistent(USFDAClassOptions, defs);
  }

  /** `$defs.sections` is consistent exactly when every required section is declared and every
      declared section is consistent. */
  lemma SectionsDefConsistent(order: seq<string>, props: map<string, Json>, defs: set<string>)
    ensures SchemaConsistent(SectionsDef(order, props), defs) <==>
      (forall i | 0 <= i < |order| :: order[i] in props)
      && (forall k | k in props :: SchemaConsistent(props[k], defs))
  {
    var f := SectionsDef(order, props).fields;
    ObjectDictFields(Some(order), props, []);
    assert Declared(f) == props.Keys;
    if forall i | 0 <= i < |order| :: order[i] in props {
      RequiredConsistent(order, props.Keys);
    }
    if SchemaConsistent(SectionsDef(order, props), defs) {
      forall i | 0 <= i < |order| ensures order[i] in props {
        assert StrArr(order).items[i] in f["required"].items;
      }
    }
  }

  /** The `$defs` are consistent exactly when every required section is declared and every declared
      section is consistent: the shared enumerations always are. */
  lemma DefsConsistent(order: seq<string>, props: map<string, Json>)
    ensures (forall k | k in Defs(order, props) :: SchemaConsistent(Defs(order, props)[k], DefNames)) <==>
      (forall i | 0 <= i < |order| :: order[i] in props) && AllConsistent(props)
  {
    SharedEnumsConsistent(DefNames);
    SectionsDefConsistent(order, props, DefNames);
    var defs := Defs(order, props);
    assert (forall k | k in defs :: SchemaConsistent(defs[k], DefNames)) <==> SchemaConsistent(defs["sections"], DefNames);
  }

  /** An object schema that requires and declares exactly `form`, `psur_cover_page` and `sections`,
      rejects any other property, and takes `sections` from `$defs`. */
  predicate RootShapedFields(f: map<string, Json>) {
    && HasType(f, "object")
    && "additionalProperties" in f && f["additionalProperties"] == Bool(false)
    && "required" in f && f["required"] == StrArr(RootRequired)
    && Declared(f) == {"form", "psur_cover_page", "sections"}
    && f["properties"].fields["sections"] == Obj(map["$ref" := Str(DefsPrefix + "sections")])
  }

  /** The root object requires and declares exactly `form`, `psur_cover_page` and `sections`, and
      rejects any other property (template.py:21-25, 125). */
  lemma RootShape(form: Schema, cover: Schema)
    ensures RootShapedFields(Encode(RootObject(form, cover)).fields)
  {
    var props := map["form" := form, "psur_cover_page" := cover, "sections" := Ref("sections", None)];
    EncodeObject(Some(RootRequired), props, []);
    ObjectDictFields(Some(RootRequired), EncodeProperties(props), []);
    assert RefDict("sections", None) == map["$ref" := Str(DefsPrefix + "sections")];
  }

  /** The root object is well formed exactly when `form` and `psur_cover_page` are. */
  lemma RootWellFormed(form: Schema, cover: Schema)
    ensures WellFormed(RootObject(form, cover), DefNames) <==> Sound(form) && Sound(cover)
  {
    var props := map["form" := form, "psur_cover_page" := cover, "sections" := Ref("sections", None)];
    assert Listed(Some(RootRequired)) == RootRequired;
    assert WellFormed(props["sections"], DefNames);
    assert props["form"] == form && props["psur_cover_page"] == cover;
    assert RootObject(form, cover).properties == props;
  }

  /** The annotation keys are not schema keywords, so they leave the root's consistency as it is. */
  lemma AnnotationsKeepConsistency(h: Header, f: map<string, Json>, d: map<string, Json>, defs: set<string>)
    ensures SchemaConsistent(Obj(f + Annotations(h, d)), defs) <==> SchemaConsistent(Obj(f), defs)
  {
    var g := f + Annotations(h, d);
    var a := Annotations(h, d);
    assert "$ref" !in a && "enum" !in a && "default" !in a && "type" !in a;
    assert "required" !in a && "allOf" !in a && "properties" !in a && "items" !in a;
    assert Declared(g) == Declared(f);
    assert HasType(g, "object") == HasType(f, "object");
    assert HasType(g, "array") == HasType(f, "array");
  }

  /** A document whose root object is well formed against its `$defs` is consistent exactly when
      every entry of its `$defs` is. */
  lemma DocumentConsistency(h: Header, root: Schema, defs: map<string, Json>)
    requires defs.Keys == DefNames && WellFormed(root, DefNames)
    ensures DefsOf(Document(h, root, defs)) == defs
    ensures DocumentConsistent(Document(h, root, defs)) <==>
      forall k | k in defs :: SchemaConsistent(defs[k], DefNames)
  {
    var doc := Document(h, root, defs);
    assert "$defs" in Annotations(h, defs);
    assert DefsOf(doc) == defs;
    EncodeConsistent(root, DefNames);
    AnnotationsKeepConsistency(h, Encode(root).fields, defs, DefNames);
  }

  /** The literal is consistent exactly when the root object is, every inserted section is, and
      every required section has been inserted. */
  lemma LiteralConsistency(h: Header, root: Schema, props: map<string, Json>)
    requires WellFormed(root, DefNames)
    ensures DocumentConsistent(Literal(h, root, props)) <==>
      (forall i | 0 <= i < |h.order| :: h.order[i] in props) && AllConsistent(props)
  {
    DefsKeys(h.order, props);
    DocumentConsistency(h, root, Defs(h.order, props));
    DefsConsistent(h.order, props);
  }

  /** The literal as written, before any section is inserted, is not yet consistent: its
      `$defs.sections` requires sections and declares none. */
  lemma EmptyLiteralInconsistent(h: Header, root: Schema)
    requires WellFormed(root, DefNames) && h.order != []
    ensures !DocumentConsistent(Literal(h, root, map[]))
  {
    var none: map<string, Json> := map[];
    LiteralConsistency(h, root, none);
    assert h.order[0] !in none;
  }

  /** The `$defs` of the literal are the five entries around its sections. */
  lemma LiteralDefs(h: Header, root: Schema, props: map<string, Json>)
    ensures DefsOf(Literal(h, root, props)) == Defs(h.order, props)
  {
    assert "$defs" in Annotations(h, Defs(h.order, props));
  }

  /** The section names the literal requires and declares. */
  lemma LiteralSections(h: Header, root: Schema, props: map<string, Json>)
    ensures DefsOf(Literal(h, root, props)).Keys == DefNames
    ensures RequiredSections(Literal(h, root, props)) == Some(h.order)
    ensures PopulatedSections(Literal(h, root, props)) == props.Keys
  {
    LiteralDefs(h, root, props);
    DefsKeys(h.order, props);
    assert SectionsFields(Literal(h, root, props)) == SectionsDef(h.order, props).fields;
    SectionsDefShape(h.order, props);
    StringsOfStrArr(h.order);
  }

  /** `$defs.sections` requires `order` and declares the keys of `props`. */
  lemma SectionsDefShape(order: seq<string>, props: map<string, Json>)
    ensures var f := SectionsDef(order, props).fields;
      "required" in f && f["required"] == StrArr(order) && Declared(f) == props.Keys
  {
    ObjectDictFields(Some(order), props, []);
  }

  /** The root object of a document has the root's shape. */
  predicate RootShaped(doc: Json) {
    doc.Obj? && RootShapedFields(doc.fields)
  }

  /** The annotation keys are not schema keywords, so they leave the root's shape as it is. */
  lemma AnnotationsKeepRootShape(h: Header, f: map<string, Json>, d: map<string, Json>)
    requires RootShapedFields(f)
    ensures RootShapedFields(f + Annotations(h, d))
  {
    var a := Annotations(h, d);
    assert "type" !in a && "additionalProperties" !in a && "required" !in a && "properties" !in a;
  }

  /** A document around the root object has the root's shape, whatever its header and `$defs`. */
  lemma DocumentRootShaped(h: Header, form: Schema, cover: Schema, defs: map<string, Json>)
    ensures RootShaped(Document(h, RootObject(form, cover), defs))
  {
    RootShape(form, cover);
    AnnotationsKeepRootShape(h, Encode(RootObject(form, cover)).fields, defs);
  }

  /** Every entry of a map of schemas is closed. */
  predicate AllClosed(props: map<string, Json>) {
    forall k | k in props :: Closed(props[k])
  }

  /** The document and every entry of its `$defs` reject undeclared properties at every level. */
  predicate DocumentClosed(doc: Json) {
    Closed(doc) && AllClosed(DefsOf(doc))
  }

  /** The annotation keys are not schema keywords, so they leave the root's closedness as it is. */
  lemma AnnotationsKeepClosed(h: Header, f: map<string, Json>, d: map<string, Json>)
    ensures Closed(Obj(f + Annotations(h, d))) <==> Closed(Obj(f))
  {
    var g := f + Annotations(h, d);
    var a := Annotations(h, d);
    assert "type" !in a && "additionalProperties" !in a && "properties" !in a && "items" !in a;
    assert HasType(g, "object") == HasType(f, "object");
    assert HasType(g, "array") == HasType(f, "array");
  }

  /** The `$defs` are closed exactly when every inserted section is: the shared enumerations are
      string schemas. */
  lemma DefsClosed(order: seq<string>, props: map<string, Json>)
    ensures AllClosed(Defs(order, props)) <==> AllClosed(props)
  {
    SectionsDefClosed(order, props);
    SharedEnumClosed(TriStateOptions);
    SharedEnumClosed(YesNoNAOptions);
    SharedEnumClosed(MDRClassOptions);
    SharedEnumClosed(USFDAClassOptions);
    DefsEntriesClosed(SharedEnum(TriStateOptions), SharedEnum(YesNoNAOptions), SharedEnum(MDRClassOptions),
      SharedEnum(USFDAClassOptions), SectionsDef(order, props));
  }

  /** The five `$defs` entries are all closed exactly when each one is. */
  lemma DefsEntriesClosed(tri: Json, yesNo: Json, mdr: Json, fda: Json, sections: Json)
    ensures AllClosed(map["TriState" := tri, "YesNoNA" := yesNo, "MDRClass" := mdr, "USFDAClass" := fda, "sections" := sections])
        <==> Closed(tri) && Closed(yesNo) && Closed(mdr) && Closed(fda) && Closed(sections)
  {
    var defs := map["TriState" := tri, "YesNoNA" := yesNo, "MDRClass" := mdr, "USFDAClass" := fda, "sections" := sections];
    assert defs["TriState"] == tri && defs["YesNoNA"] == yesNo && defs["MDRClass"] == mdr;
    assert defs["USFDAClass"] == fda && defs["sections"] == sections;
  }

  lemma SharedEnumClosed(options: seq<string>)
    ensures Closed(SharedEnum(options))
  {
    assert !HasType(SharedEnum(options).fields, "object") && !HasType(SharedEnum(options).fields, "array");
  }

  lemma SectionsDefClosed(order: seq<string>, props: map<string, Json>)
    ensures Closed(SectionsDef(order, props)) <==> AllClosed(props)
  {
    ObjectDictFields(Some(order), props, []);
  }

  /** The literal around a well-formed root is closed exactly when every inserted section is. */
  lemma LiteralClosed(h: Header, root: Schema, props: map<string, Json>)
    requires WellFormed(root, DefNames)
    ensures DocumentClosed(Literal(h, root, props)) <==> AllClosed(props)
  {
    var defs := Defs(h.order, props);
    assert "$defs" in Annotations(h, defs);
    assert DefsOf(Literal(h, root, props)) == defs;
    EncodeClosed(root, DefNames);
    AnnotationsKeepClosed(h, Encode(root).fields, defs);
    DefsClosed(h.order, props);
  }

  /** The schema of section `name` in a document's `$defs.sections`. */
  function SectionOf(doc: Json, name: string): Json {
    Property(Obj(SectionsFields(doc)), name)
  }

  /** Every section of `props` is the literal's schema of that section. */
  lemma LiteralSectionOf(h: Header, root: Schema, props: map<string, Json>)
    ensures forall k | k in props :: SectionOf(Literal(h, root, props), k) == props[k]
  {
    LiteralDefs(h, root, props);
    ObjectDictFields(Some(h.order), props, []);
  }

  // ---------------------------------------------------------------------------------------------
  // The builder

  /** The `schema` dictionary while template.py runs: the root literal around `form` and
      `psur_cover_page`, whose `$defs.sections.properties` the thirteen assignments through the
      alias `sections` fill in place. */
  class SchemaBuilder {
    const header: Header
    const form: Schema
    const cover: Schema
    var sections: map<string, Json>

    /** `schema = {...}`: the root literal around `form` and `psur_cover_page`, whose
        `$defs.sections.properties` starts empty (template.py:16-143). */
    constructor(form: Schema, cover: Schema)
      ensures this.form == form && this.cover == cover && header == RootHeader
      ensures sections == map[]
      ensures WellFormed(RootObject(form, cover), DefNames) <==> Sound(form) && Sound(cover)
    {
      header := RootHeader;
      this.form := form;
      this.cover := cover;
      sections := map[];
      RootWellFormed(form, cover);
    }

    /** `sections[key] = value`: the assignment through the alias changes only that entry. */
    method Insert(key: string, value: Json)
      modifies this
      ensures sections == old(sections)[key := value]
    {
      sections := sections[key := value];
    }

    /** The `schema` dictionary as it now stands: the alias and the nested map are the same object, so
        every insertion shows up in `$defs.sections.properties`. */
    function Finalize(): (r: Json)
      reads this
      ensures RootShaped(r)
      ensures DefsOf(r).Keys == DefNames
      ensures RequiredSections(r) == Some(header.order)
      ensures PopulatedSections(r) == sections.Keys
      ensures forall k | k in sections :: SectionOf(r, k) == sections[k]
      ensures Sound(form) && Sound(cover) ==>
        (DocumentConsistent(r) <==> (forall i | 0 <= i < |header.order| :: header.order[i] in sections) && AllConsistent(sections))
      ensures Sound(form) && Sound(cover) ==> (DocumentClosed(r) <==> AllClosed(sections))
    {
      var root := RootObject(form, cover);
      LiteralSections(header, root, sections);
      LiteralSectionOf(header, root, sections);
      DocumentRootShaped(header, form, cover, Defs(header.order, sections));
      RootWellFormed(form, cover);
      if Sound(form) && Sound(cover) then
        LiteralConsistency(header, root, sections);
        LiteralClosed(header, root, sections);
        Literal(header, root, sections)
      else
        Literal(header, root, sections)
    }
  }

  // ---------------------------------------------------------------------------------------------
  // A run of assignments

  /** `m` after `m[keys[0]] = secs[0]`, ..., `m[keys[n-1]] = secs[n-1]`, in that order. */
  function Inserted(m: map<string, Json>, keys: seq<string>, secs: seq<Schema>): map<string, Json>
    requires |keys| == |secs|
    decreases |keys|
  {
    if keys == [] then m
    else Inserted(m, keys[..|keys| - 1], secs[..|secs| - 1])[keys[|keys| - 1] := Encode(secs[|secs| - 1])]
  }

  /** One more assignment at the end of a run. */
  lemma InsertedSnoc(m: map<string, Json>, keys: seq<string>, secs: seq<Schema>, k: string, s: Schema)
    requires |keys| == |secs|
    ensures Inserted(m, keys + [k], secs + [s]) == Inserted(m, keys, secs)[k := Encode(s)]
  {
    assert (keys + [k])[..|keys|] == keys;
    assert (secs + [s])[..|secs|] == secs;
  }

  /** Two runs one after the other are one run. */
  lemma {:induction false} InsertedAppend(m: map<string, Json>, k1: seq<string>, s1: seq<Schema>, k2: seq<string>, s2: seq<Schema>)
    requires |k1| == |s1| && |k2| == |s2|
    ensures Inserted(Inserted(m, k1, s1), k2, s2) == Inserted(m, k1 + k2, s1 + s2)
    decreases |k2|
  {
    if k2 == [] {
      assert k1 + k2 == k1 && s1 + s2 == s1;
    } else {
      var n := |k2| - 1;
      InsertedAppend(m, k1, s1, k2[..n], s2[..n]);
      assert k1 + k2 == (k1 + k2[..n]) + [k2[n]];
      assert s1 + s2 == (s1 + s2[..n]) + [s2[n]];
      InsertedSnoc(m, k1 + k2[..n], s1 + s2[..n], k2[n], s2[n]);
    }
  }

  /** The names of a sequence are pairwise distinct. */
  predicate Distinct(keys: seq<string>) {
    forall i, j | 0 <= i < j < |keys| :: keys[i] != keys[j]
  }

  /** A run of assignments adds exactly the names it assigns. */
  lemma {:induction false} InsertedKeys(m: map<string, Json>, keys: seq<string>, secs: seq<Schema>)
    requires |keys| == |secs|
    ensures Inserted(m, keys, secs).Keys == m.Keys + set k | k in keys
    decreases |keys|
  {
    if keys != [] {
      var n := |keys| - 1;
      InsertedKeys(m, keys[..n], secs[..n]);
      assert keys == keys[..n] + [keys[n]];
      assert (set k | k in keys) == (set k | k in keys[..n]) + {keys[n]};
    }
  }

  /** A run of assignments to distinct names stores each section's encoding under its name, and
      leaves every other entry as it was. */
  lemma {:induction false} InsertedValues(m: map<string, Json>, keys: seq<string>, secs: seq<Schema>)
    requires |keys| == |secs| && Distinct(keys)
    ensures forall i | 0 <= i < |keys| :: keys[i] in Inserted(m, keys, secs) && Inserted(m, keys, secs)[keys[i]] == Encode(secs[i])
    ensures forall k | k in m && k !in keys :: k in Inserted(m, keys, secs) && Inserted(m, keys, secs)[k] == m[k]
    decreases |keys|
  {
    if keys != [] {
      var n := |keys| - 1;
      var ks, ss := keys[..n], secs[..n];
      assert Distinct(ks) by {
        forall i, j | 0 <= i < j < |ks| ensures ks[i] != ks[j] {
          assert ks[i] == keys[i] && ks[j] == keys[j];
        }
      }
      InsertedValues(m, ks, ss);
      var before := Inserted(m, ks, ss);
      assert Inserted(m, keys, secs) == before[keys[n] := Encode(secs[n])];
      forall i | 0 <= i < n
        ensures keys[i] in Inserted(m, keys, secs) && Inserted(m, keys, secs)[keys[i]] == Encode(secs[i])
      {
        assert ks[i] == keys[i] && ss[i] == secs[i] && keys[i] != keys[n];
      }
      assert forall i | 0 <= i < n :: ks[i] == keys[i];
      assert forall x | x in ks :: x in keys;
    }
  }

  /** Strings told apart by their first letters, except one that is longer than all the others,
      are pairwise distinct. */
  lemma DistinctByInitials(keys: seq<string>, initials: string, longest: nat)
    requires |keys| == |initials| && longest < |keys|
    requires forall i | 0 <= i < |keys| && i != longest :: |keys[i]| < |keys[longest]|
    requires forall i | 0 <= i < |keys| && i != longest :: |keys[i]| > 0 && keys[i][0] == initials[i]
    requires forall i, j | 0 <= i < j < |initials| :: initials[i] != initials[j]
    ensures Distinct(keys)
  {
    forall i, j | 0 <= i < j < |keys| ensures keys[i] != keys[j] {
      if i != longest && j != longest {
        assert keys[i][0] != keys[j][0];
      }
    }
  }

  /** The thirteen section names begin with the letters `A` to `M`, so no two are equal (the
      longest, `K_...`, is told apart by its length). */
  lemma SectionNamesDistinct()
    ensures Distinct(SectionOrder)
  {
    var initials := "ABCDEFGHIJKLM";
    assert SectionOrder[0][0] == initials[0];
    assert SectionOrder[1][0] == initials[1];
    assert SectionOrder[2][0] == initials[2];
    assert SectionOrder[3][0] == initials[3];
    assert SectionOrder[4][0] == initials[4];
    assert SectionOrder[5][0] == initials[5];
    assert SectionOrder[6][0] == initials[6];
    assert SectionOrder[7][0] == initials[7];
    assert SectionOrder[8][0] == initials[8];
    assert SectionOrder[9][0] == initials[9];
    assert SectionOrder[11][0] == initials[11];
    assert SectionOrder[12][0] == initials[12];
    assert forall i | 0 <= i < 13 && i != 10 :: |SectionOrder[i]| < |SectionOrder[10]|;
    DistinctByInitials(SectionOrder, initials, 10);
  }

  lemma SliceSnoc(names: seq<string>, lo: nat, hi: nat)
    requires lo <= hi < |names|
    ensures names[lo..hi] + [names[hi]] == names[lo..hi + 1]
  {
  }

  /** Every schema of a sequence is sound. */
  predicate AllSound(secs: seq<Schema>) {
    forall i | 0 <= i < |secs| :: Sound(secs[i])
  }

  lemma AllSoundSnoc(secs: seq<Schema>, s: Schema)
    requires AllSound(secs) && Sound(s)
    ensures AllSound(secs + [s])
  {
    assert forall i | 0 <= i < |secs| :: (secs + [s])[i] == secs[i];
  }

  /** A run of assignments of sound sections keeps every entry consistent and closed. */
  lemma {:induction false} InsertedKeepsRules(m: map<string, Json>, keys: seq<string>, secs: seq<Schema>)
    requires |keys| == |secs| && AllSound(secs) && AllConsistent(m) && AllClosed(m)
    ensures AllConsistent(Inserted(m, keys, secs)) && AllClosed(Inserted(m, keys, secs))
    decreases |keys|
  {
    if keys != [] {
      var n := |keys| - 1;
      assert AllSound(secs[..n]) by {
        forall i | 0 <= i < n ensures Sound(secs[..n][i]) {
          assert secs[..n][i] == secs[i];
        }
      }
      InsertedKeepsRules(m, keys[..n], secs[..n]);
      EncodeConsistent(secs[n], DefNames);
      EncodeClosed(secs[n], DefNames);
    }
  }

  /** The assignments `sections[...] = {...}` of sections A to C (template.py:148-545): `secs`
      are the section schemas in the order they are assigned. */
  method InsertSectionsAToC(b: SchemaBuilder) returns (secs: seq<Schema>)
    modifies b
    ensures |secs| == 3 && AllSound(secs)
    ensures SelectsFormatAt(secs[2], "table_1_sales_by_region")
    ensures b.sections == Inserted(old(b.sections), SectionOrder[0..3], secs)
  {
    ghost var m := b.sections;
    secs := [];
    var s := SectionA.ExecutiveSummary();
    b.Insert(SectionOrder[0], Encode(s));  // "A_executive_summary"
    InsertedSnoc(m, SectionOrder[0..0], secs, SectionOrder[0], s);
    SliceSnoc(SectionOrder, 0, 0);
    AllSoundSnoc(secs, s);
    secs := secs + [s];
    s := SectionB.ScopeAndDeviceDescription();
    b.Insert(SectionOrder[1], Encode(s));  // "B_scope_and_device_description"
    InsertedSnoc(m, SectionOrder[0..1], secs, SectionOrder[1], s);
    SliceSnoc(SectionOrder, 0, 1);
    AllSoundSnoc(secs, s);
    secs := secs + [s];
    s := SectionC.VolumeOfSalesAndPopulationExposure();
    ghost var c := s;
    b.Insert(SectionOrder[2], Encode(s));  // "C_volume_of_sales_and_population_exposure"
    InsertedSnoc(m, SectionOrder[0..2], secs, SectionOrder[2], s);
    SliceSnoc(SectionOrder, 0, 2);
    AllSoundSnoc(secs, s);
    secs := secs + [s];
    assert secs[2] == c;
  }

  /** The assignments `sections[...] = {...}` of sections D to G (template.py:548-740): `secs`
      are the section schemas in the order they are assigned. */
  method InsertSectionsDToG(b: SchemaBuilder) returns (secs: seq<Schema>)
    modifies b
    ensures |secs| == 4 && AllSound(secs)
    ensures SelectsFormatAt(secs[2], "table_7_complaint_rate_and_count")
    ensures b.sections == Inserted(old(b.sections), SectionOrder[3..7], secs)
  {
    ghost var m := b.sections;
    secs := [];
    var s := SectionD.InformationOnSeriousIncidents();
    b.Insert(SectionOrder[3], Encode(s));  // "D_information_on_serious_incidents"
    InsertedSnoc(m, SectionOrder[3..3], secs, SectionOrder[3], s);
    SliceSnoc(SectionOrder, 3, 3);
    AllSoundSnoc(secs, s);
    secs := secs + [s];
    s := SectionE.CustomerFeedback();
    b.Insert(SectionOrder[4], Encode(s));  // "E_customer_feedback"
    InsertedSnoc(m, SectionOrder[3..4], secs, SectionOrder[4], s);
    SliceSnoc(SectionOrder, 3, 4);
    AllSoundSnoc(secs, s);
    secs := secs + [s];
    s := SectionF.ProductComplaintTypesCountsAndRates();
    ghost var f := s;
    b.Insert(SectionOrder[5], Encode(s));  // "F_product_complaint_types_counts_and_rates"
    InsertedSnoc(m, SectionOrder[3..5], secs, SectionOrder[5], s);
    SliceSnoc(SectionOrder, 3, 5);
    AllSoundSnoc(secs, s);
    secs := secs + [s];
    s := SectionG.InformationFromTrendReporting();
    b.Insert(SectionOrder[6], Encode(s));  // "G_information_from_trend_reporting"
    InsertedSnoc(m, SectionOrder[3..6], secs, SectionOrder[6], s);
    SliceSnoc(SectionOrder, 3, 6);
    AllSoundSnoc(secs, s);
    secs := secs + [s];
    assert secs[2] == f;
  }

  /** The assignments `sections[...] = {...}` of sections H to M (template.py:743-875): `secs`
      are the section schemas in the order they are assigned. */
  method InsertSectionsHToM(b: SchemaBuilder) returns (secs: seq<Schema>)
    modifies b
    ensures |secs| == 6 && AllSound(secs)
    ensures b.sections == Inserted(old(b.sections), SectionOrder[7..13], secs)
  {
    ghost var m := b.sections;
    secs := [];
    var s := SectionH.InformationFromFsca();
    b.Insert(SectionOrder[7], Encode(s));  // "H_information_from_fsca"
    InsertedSnoc(m, SectionOrder[7..7], secs, SectionOrder[7], s);
    SliceSnoc(SectionOrder, 7, 7);
    AllSoundSnoc(secs, s);
    secs := secs + [s];
    s := SectionI.CorrectiveAndPreventiveActions();
    b.Insert(SectionOrder[8], Encode(s));  // "I_corrective_and_preventive_actions"
    InsertedSnoc(m, SectionOrder[7..8], secs, SectionOrder[8], s);
    SliceSnoc(SectionOrder, 7, 8);
    AllSoundSnoc(secs, s);
    secs := secs + [s];
    s := SectionJ.ScientificLiteratureReview();
    b.Insert(SectionOrder[9], Encode(s));  // "J_scientific_literature_review"
    InsertedSnoc(m, SectionOrder[7..9], secs, SectionOrder[9], s);
    SliceSnoc(SectionOrder, 7, 9);
    AllSoundSnoc(secs, s);
    secs := secs + [s];
    s := SectionK.ReviewOfExternalDatabasesAndRegistries();
    b.Insert(SectionOrder[10], Encode(s));  // "K_review_of_external_databases_and_registries"
    InsertedSnoc(m, SectionOrder[7..10], secs, SectionOrder[10], s);
    SliceSnoc(SectionOrder, 7, 10);
    AllSoundSnoc(secs, s);
    secs := secs + [s];
    s := SectionL.Pmcf();
    b.Insert(SectionOrder[11], Encode(s));  // "L_pmcf"
    InsertedSnoc(m, SectionOrder[7..11], secs, SectionOrder[11], s);
    SliceSnoc(SectionOrder, 7, 11);
    AllSoundSnoc(secs, s);
    secs := secs + [s];
    s := SectionM.FindingsAndConclusions();
    b.Insert(SectionOrder[12], Encode(s));  // "M_findings_and_conclusions"
    InsertedSnoc(m, SectionOrder[7..12], secs, SectionOrder[12], s);
    SliceSnoc(SectionOrder, 7, 12);
    AllSoundSnoc(secs, s);
    secs := secs + [s];
  }

  /** The thirteen assignments `sections[...] = {...}` of template.py, sections A to M in order
      (template.py:148-875): `secs` are the thirteen section schemas; each is stored under its
      name, every other entry is left as it was, and the entries stay consistent and closed. */
  method InsertSections(b: SchemaBuilder) returns (secs: seq<Schema>)
    requires AllConsistent(b.sections) && AllClosed(b.sections)
    modifies b
    ensures |secs| == 13 && AllSound(secs)
    ensures SelectsFormatAt(secs[2], "table_1_sales_by_region")
    ensures SelectsFormatAt(secs[5], "table_7_complaint_rate_and_count")
    ensures b.sections.Keys == old(b.sections).Keys + set k | k in SectionOrder
    ensures forall i | 0 <= i < 13 :: b.sections[SectionOrder[i]] == Encode(secs[i])
    ensures forall k | k in old(b.sections) && k !in SectionOrder :: b.sections[k] == old(b.sections)[k]
    ensures AllConsistent(b.sections) && AllClosed(b.sections)
  {
    ghost var m := b.sections;
    var first := InsertSectionsAToC(b);
    var second := InsertSectionsDToG(b);
    var third := InsertSectionsHToM(b);
    secs := first + second + third;
    assert secs[2] == first[2] && secs[5] == second[2];
    ThreeRunsAreOne(m, SectionOrder, first, second, third);
    AllSoundConcat(first, second, third);
    SectionNamesDistinct();
    InsertedKeys(m, SectionOrder, secs);
    InsertedValues(m, SectionOrder, secs);
    InsertedKeepsRules(m, SectionOrder, secs);
  }

  /** Runs of three, four and six assignments, one after the other, are one run of thirteen. */
  lemma ThreeRunsAreOne(m: map<string, Json>, names: seq<string>, first: seq<Schema>, second: seq<Schema>, third: seq<Schema>)
    requires |names| == 13 && |first| == 3 && |second| == 4 && |third| == 6
    ensures Inserted(Inserted(Inserted(m, names[0..3], first), names[3..7], second), names[7..13], third)
         == Inserted(m, names, first + second + third)
  {
    InsertedAppend(m, names[0..3], first, names[3..7], second);
    SlicesJoin(names, 0, 3, 7);
    InsertedAppend(m, names[0..7], first + second, names[7..13], third);
    SlicesJoin(names, 0, 7, 13);
    assert names[0..13] == names;
  }

  lemma SlicesJoin(names: seq<string>, lo: nat, mid: nat, hi: nat)
    requires lo <= mid <= hi <= |names|
    ensures names[lo..mid] + names[mid..hi] == names[lo..hi]
  {
  }

  lemma AllSoundConcat(first: seq<Schema>, second: seq<Schema>, third: seq<Schema>)
    requires AllSound(first) && AllSound(second) && AllSound(third)
    ensures AllSound(first + second + third)
  {
    var secs := first + second + third;
    forall i | 0 <= i < |secs| ensures Sound(secs[i]) {
      if i < |first| { assert secs[i] == first[i]; }
      else if i < |first| + |second| { assert secs[i] == second[i - |first|]; }
      else { assert secs[i] == third[i - |first| - |second|]; }
    }
  }

  /** Sections filled in from none: exactly the assigned names are present. */
  lemma FilledFromEmpty(before: map<string, Json>, props: map<string, Json>, names: seq<string>)
    requires before == map[] && props.Keys == before.Keys + set k | k in names
    ensures props.Keys == set k | k in names
    ensures forall i | 0 <= i < |names| :: names[i] in props
  {
  }

  /** The schemas of sections C and F, read off the document, each select their table's format by
      the reporting frequency. */
  predicate FormatsSelected(doc: Json) {
    && FormatSelectedAt(SectionOf(doc, SectionOrder[2]), "table_1_sales_by_region")
    && FormatSelectedAt(SectionOf(doc, SectionOrder[5]), "table_7_complaint_rate_and_count")
  }

  /** Runs template.py up to its write block: the root literal, then sections A to M in order. The
      result is consistent and closed, its root requires exactly `form`, `psur_cover_page` and
      `sections`, its `$defs.sections` requires and declares the thirteen sections, and the
      frequency discriminators of sections C and F are in place. */
  method BuildSchema() returns (schema: Json)
    ensures DocumentConsistent(schema) && DocumentClosed(schema)
    ensures RootShaped(schema)
    ensures DefsOf(schema).Keys == DefNames
    ensures RequiredSections(schema) == Some(SectionOrder)
    ensures PopulatedSections(schema) == set k | k in SectionOrder
    ensures FormatsSelected(schema)
  {
    var form := FrontMatter.Form();
    var cover := FrontMatter.PsurCoverPage();
    var b := new SchemaBuilder(form, cover);
    ghost var before := b.sections;
    var secs := InsertSections(b);
    schema := b.Finalize();
    FilledFromEmpty(before, b.sections, SectionOrder);
    FormatSelectedEncoded(secs[2], "table_1_sales_by_region");
    FormatSelectedEncoded(secs[5], "table_7_complaint_rate_and_count");
  }
}
