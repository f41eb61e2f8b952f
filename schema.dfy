/** The builder's sub-schemas as typed values, the rules they must satisfy, and their encoding
    as the JSON Schema dictionaries that template.py writes out. */
module Schema {
  import opened Json
  import opened Fields

  /** One entry of an object's `allOf` list. */
  datatype Rule =
      /** `{"if": {"properties": {prop: {"const": value}}}, "then": {"required": thenRequired}}` */
    | WhenEquals(prop: string, value: Json, thenRequired: seq<string>)
      /** `{"if": {"required": present}, "then": {"properties": refine}}` */
    | WhenAllPresent(present: seq<string>, refine: map<string, Json>)

  datatype Schema =
      /** A closed object: `"type": "object"` and `"additionalProperties": false` are implied. */
    | Object(required: Option<seq<string>>, properties: map<string, Schema>, rules: seq<Rule>)
      /** `"type": "array"` with an `items` schema; `attrs` holds minItems, maxItems, default, ui. */
    | Array(items: Schema, attrs: map<string, Json>)
      /** `{"$ref": "#/$defs/" + target}`, with `{"ui": {"widget": w}}` when a widget is named. */
    | Ref(target: string, widget: Option<string>)
      /** A leaf field. */
    | Leaf(field: Field)

  const DefsPrefix: string := "#/$defs/"

  /** The names a `required` key lists; none when the key is absent. */
  function Listed(req: Option<seq<string>>): seq<string> {
    if req.Some? then req.value else []
  }

  /** A conditional rule names only properties declared in its own object. */
  predicate RuleNamesIn(rule: Rule, declared: set<string>) {
    match rule
    case WhenEquals(p, _, req) => p in declared && forall i | 0 <= i < |req| :: req[i] in declared
    case WhenAllPresent(present, refine) =>
      (forall i | 0 <= i < |present| :: present[i] in declared) && refine.Keys <= declared
  }

  /** Every `required` list and every rule names declared properties only, every reference
      targets one of `defs`, and every offered default belongs to its enumeration. */
  predicate WellFormed(s: Schema, defs: set<string>) {
    match s
    case Object(req, props, rules) =>
      && (forall i | 0 <= i < |Listed(req)| :: Listed(req)[i] in props)
      && (forall i | 0 <= i < |rules| :: RuleNamesIn(rules[i], props.Keys))
      && (forall k | k in props :: WellFormed(props[k], defs))
    case Array(items, attrs) => "$ref" !in attrs && DefaultInEnum(attrs) && WellFormed(items, defs)
    case Ref(t, _) => t in defs
    case Leaf(f) => FieldOK(f)
  }

  /** The names of template.py's `$defs` (template.py:128-141). */
  const DefNames: set<string> := {"TriState", "YesNoNA", "MDRClass", "USFDAClass", "sections"}

  predicate Sound(s: Schema) {
    WellFormed(s, DefNames)
  }

  // ---------------------------------------------------------------------------------------------
  // Encoding as the dictionaries template.py builds

  function EncodeRule(rule: Rule): Json {
    match rule
    case WhenEquals(p, v, req) =>
      Obj(map["if" := Obj(map["properties" := Obj(map[p := Obj(map["const" := v])])]),
              "then" := Obj(map["required" := StrArr(req)])])
    case WhenAllPresent(present, refine) =>
      Obj(map["if" := Obj(map["required" := StrArr(present)]),
              "then" := Obj(map["properties" := Obj(refine)])])
  }

  function EncodeRules(rules: seq<Rule>): (r: seq<Json>)
    ensures |r| == |rules| && forall i | 0 <= i < |rules| :: r[i] == EncodeRule(rules[i])
  {
    seq(|rules|, i requires 0 <= i < |rules| => EncodeRule(rules[i]))
  }

  /** The dictionary of a closed object schema whose properties are already encoded. An empty
      `allOf` list is not written (the source never writes one). */
  function ObjectDict(req: Option<seq<string>>, props: map<string, Json>, rules: seq<Rule>): map<string, Json> {
    map["type" := Str("object"), "additionalProperties" := Bool(false), "properties" := Obj(props)]
    + (if req.None? then map[] else map["required" := StrArr(req.value)])
    + (if rules == [] then map[] else map["allOf" := Arr(EncodeRules(rules))])
  }

  function RefDict(target: string, widget: Option<string>): map<string, Json> {
    map["$ref" := Str(DefsPrefix + target)] + (if widget.Some? then map["ui" := Widget(widget.value)] else map[])
  }

  function Encode(s: Schema): Json
    decreases s
  {
    match s
    case Object(req, props, rules) => Obj(ObjectDict(req, map k | k in props :: Encode(props[k]), rules))
    case Array(items, attrs) => Obj(attrs + map["type" := Str("array"), "items" := Encode(items)])
    case Ref(t, widget) => Obj(RefDict(t, widget))
    case Leaf(f) => Obj(Attrs(f))
  }

  /** The `properties` map an object schema is written with. */
  function EncodeProperties(props: map<string, Schema>): (r: map<string, Json>)
    ensures r.Keys == props.Keys
    ensures forall k | k in props :: r[k] == Encode(props[k])
  {
    map k | k in props :: Encode(props[k])
  }

  // ---------------------------------------------------------------------------------------------
  // Conditional requirements

  /** The names an object's rules make required when property `prop` holds `value`. */
  function RequiredWhen(rules: seq<Rule>, prop: string, value: Json): set<string>
    decreases |rules|
  {
    if rules == [] then {}
    else
      (match rules[0]
       case WhenEquals(p, v, req) => if p == prop && v == value then set i | 0 <= i < |req| :: req[i] else {}
       case WhenAllPresent(_, _) => {})
      + RequiredWhen(rules[1..], prop, value)
  }

  /** The names one emitted `allOf` entry makes required when `prop` holds `value`: its `then.required`
      list if its `if` is exactly `{"properties": {prop: {"const": value}}}`. */
  function RuleRequires(rule: Json, prop: string, value: Json): set<string> {
    if rule.Obj? && "if" in rule.fields && "then" in rule.fields
       && rule.fields["if"] == Obj(map["properties" := Obj(map[prop := Obj(map["const" := value])])])
       && rule.fields["then"].Obj? && "required" in rule.fields["then"].fields
       && rule.fields["then"].fields["required"].Arr?
    then Names(rule.fields["then"].fields["required"].items)
    else {}
  }

  /** `RequiredWhen`, read off an emitted `allOf` list. */
  function AllOfRequiresWhen(items: seq<Json>, prop: string, value: Json): set<string>
    decreases |items|
  {
    if items == [] then {} else RuleRequires(items[0], prop, value) + AllOfRequiresWhen(items[1..], prop, value)
  }

  /** The `if` clause of an equality rule determines the property and the value it tests. */
  lemma IfClauseInjective(p: string, v: Json, prop: string, value: Json)
    ensures (Obj(map["properties" := Obj(map[p := Obj(map["const" := v])])])
             == Obj(map["properties" := Obj(map[prop := Obj(map["const" := value])])]))
            ==> p == prop && v == value
  {
    var ours := map["properties" := Obj(map[p := Obj(map["const" := v])])];
    var theirs := map["properties" := Obj(map[prop := Obj(map["const" := value])])];
    if ours == theirs {
      assert ours["properties"] == theirs["properties"];
      assert p in map[prop := Obj(map["const" := value])];
      assert map["const" := v]["const"] == map["const" := value]["const"];
    }
  }

  /** Reading the emitted rules gives the same conditional requirements as the typed rules. */
  lemma {:induction false} RequiredWhenEncoded(rules: seq<Rule>, prop: string, value: Json)
    ensures AllOfRequiresWhen(EncodeRules(rules), prop, value) == RequiredWhen(rules, prop, value)
    decreases |rules|
  {
    if rules != [] {
      assert EncodeRules(rules)[1..] == EncodeRules(rules[1..]);
      RequiredWhenEncoded(rules[1..], prop, value);
      var e := EncodeRule(rules[0]);
      match rules[0]
      case WhenEquals(p, v, req) =>
        NamesOfStrArr(req);
        if p == prop && v == value {
          assert RuleRequires(e, prop, value) == set i | 0 <= i < |req| :: req[i];
        } else {
          IfClauseInjective(p, v, prop, value);
        }
      case WhenAllPresent(present, refine) =>
        assert "properties" !in e.fields["if"].fields;
    }
  }

  /** A frequency choice `prop` that the object requires, and whose two values each make exactly
      one of two declared, otherwise optional, format blocks required. */
  predicate SelectsOneFormat(s: Schema, prop: string, annual: string, biennial: string) {
    && s.Object? && prop in s.properties && s.properties[prop] == Leaf(Frequency) && prop in Listed(s.required)
    && annual in s.properties && biennial in s.properties
    && annual !in Listed(s.required) && biennial !in Listed(s.required)
    && RequiredWhen(s.rules, prop, Str("ANNUALLY")) == {annual}
    && RequiredWhen(s.rules, prop, Str("EVERY_TWO_YEARS")) == {biennial}
  }

  /** The two rules of a discriminator: `ANNUALLY` requires `annual`, `EVERY_TWO_YEARS` requires `biennial`. */
  lemma FormatRules(prop: string, annual: string, biennial: string)
    ensures var rules := [WhenEquals(prop, Str("ANNUALLY"), [annual]), WhenEquals(prop, Str("EVERY_TWO_YEARS"), [biennial])];
      && RequiredWhen(rules, prop, Str("ANNUALLY")) == {annual}
      && RequiredWhen(rules, prop, Str("EVERY_TWO_YEARS")) == {biennial}
  {
    var rules := [WhenEquals(prop, Str("ANNUALLY"), [annual]), WhenEquals(prop, Str("EVERY_TWO_YEARS"), [biennial])];
    assert rules[1..][1..] == [];
    assert Str("ANNUALLY") != Str("EVERY_TWO_YEARS") by {
      assert |"ANNUALLY"| != |"EVERY_TWO_YEARS"|;
    }
    SingletonNames(annual);
    SingletonNames(biennial);
    assert RequiredWhen(rules[1..], prop, Str("ANNUALLY")) == {};
    assert RequiredWhen(rules[1..], prop, Str("EVERY_TWO_YEARS")) == {biennial};
  }

  lemma SingletonNames(a: string)
    ensures (set i | 0 <= i < |[a]| :: [a][i]) == {a}
  {
    assert [a][0] == a;
  }

  /** The values a leaf enumerates, when it enumerates strings. */
  function Enumerated(s: Schema): Option<seq<string>> {
    if s.Leaf? && "enum" in Attrs(s.field) && Attrs(s.field)["enum"].Arr?
    then Strings(Attrs(s.field)["enum"].items)
    else None
  }

  // ---------------------------------------------------------------------------------------------
  // The same rules, read off the emitted JSON

  /** The property names an object schema declares. */
  function Declared(f: map<string, Json>): set<string> {
    if "properties" in f && f["properties"].Obj? then f["properties"].fields.Keys else {}
  }

  /** The names a `{"required": [...], "properties": {...}}` clause of an `if` or `then` mentions. */
  function Mentioned(clause: Json): set<string> {
    if !clause.Obj? then {}
    else
      (if "required" in clause.fields && clause.fields["required"].Arr?
       then Names(clause.fields["required"].items) else {})
      + Declared(clause.fields)
  }

  predicate RuleConsistent(rule: Json, declared: set<string>) {
    && rule.Obj? && "if" in rule.fields && "then" in rule.fields
    && Mentioned(rule.fields["if"]) <= declared
    && Mentioned(rule.fields["then"]) <= declared
  }

  predicate Resolves(ref: string, defs: set<string>) {
    |DefsPrefix| <= |ref| && ref[..|DefsPrefix|] == DefsPrefix && ref[|DefsPrefix|..] in defs
  }

  predicate HasType(f: map<string, Json>, t: string) {
    "type" in f && f["type"] == Str(t)
  }

  /** The consistency rules on a JSON Schema dictionary, for it and every sub-schema reached
      through the `properties` of an object schema and the `items` of an array schema. */
  predicate SchemaConsistent(j: Json, defs: set<string>)
    decreases j
  {
    j.Obj? ==>
      var f := j.fields;
      && ("$ref" in f ==> f["$ref"].Str? && Resolves(f["$ref"].s, defs))
      && ("enum" in f && "default" in f ==> f["enum"].Arr? && f["default"] in f["enum"].items)
      && (HasType(f, "object") ==>
            && ("required" in f ==>
                  f["required"].Arr? && forall x | x in f["required"].items :: x.Str? && x.s in Declared(f))
            && ("allOf" in f ==>
                  f["allOf"].Arr? && forall r | r in f["allOf"].items :: RuleConsistent(r, Declared(f)))
            && ("properties" in f && f["properties"].Obj? ==>
                  forall k | k in f["properties"].fields :: SchemaConsistent(f["properties"].fields[k], defs)))
      && (HasType(f, "array") && "items" in f ==> SchemaConsistent(f["items"], defs))
  }

  /** Closed-world shape: every object schema rejects undeclared properties. */
  predicate Closed(j: Json)
    decreases j
  {
    j.Obj? ==>
      var f := j.fields;
      && (HasType(f, "object") ==>
            && "additionalProperties" in f && f["additionalProperties"] == Bool(false)
            && ("properties" in f && f["properties"].Obj? ==>
                  forall k | k in f["properties"].fields :: Closed(f["properties"].fields[k])))
      && (HasType(f, "array") && "items" in f ==> Closed(f["items"]))
  }

  lemma RuleEncodingConsistent(rule: Rule, declared: set<string>)
    requires RuleNamesIn(rule, declared)
    ensures RuleConsistent(EncodeRule(rule), declared)
  {
    match rule
    case WhenEquals(p, v, req) =>
      NamesOfStrArr(req);
      var e := EncodeRule(rule).fields;
      assert Mentioned(e["if"]) == {p};
      assert Mentioned(e["then"]) == set i | 0 <= i < |req| :: req[i];
    case WhenAllPresent(present, refine) =>
      NamesOfStrArr(present);
      var e := EncodeRule(rule).fields;
      assert Mentioned(e["if"]) == set i | 0 <= i < |present| :: present[i];
      assert Mentioned(e["then"]) == refine.Keys;
  }

  lemma ObjectDictFields(req: Option<seq<string>>, props: map<string, Json>, rules: seq<Rule>)
    ensures var f := ObjectDict(req, props, rules);
      && f["type"] == Str("object") && f["additionalProperties"] == Bool(false)
      && f["properties"] == Obj(props)
      && ("required" in f <==> req.Some?) && (req.Some? ==> f["required"] == StrArr(req.value))
      && ("allOf" in f <==> rules != []) && (rules != [] ==> f["allOf"] == Arr(EncodeRules(rules)))
      && "$ref" !in f && "enum" !in f && "items" !in f
  {
    var base := map["type" := Str("object"), "additionalProperties" := Bool(false), "properties" := Obj(props)];
    var withReq := base + (if req.None? then map[] else map["required" := StrArr(req.value)]);
    assert "required" !in base && "allOf" !in base;
    assert withReq.Keys == base.Keys + (if req.None? then {} else {"required"});
  }

  lemma EncodeObject(req: Option<seq<string>>, props: map<string, Schema>, rules: seq<Rule>)
    ensures Encode(Object(req, props, rules)) == Obj(ObjectDict(req, EncodeProperties(props), rules))
  {
  }

  lemma RequiredConsistent(names: seq<string>, declared: set<string>)
    requires forall i | 0 <= i < |names| :: names[i] in declared
    ensures forall x | x in StrArr(names).items :: x.Str? && x.s in declared
  {
    forall x | x in StrArr(names).items ensures x.Str? && x.s in declared {
      var i :| 0 <= i < |names| && StrArr(names).items[i] == x;
    }
  }

  lemma RulesConsistent(rules: seq<Rule>, declared: set<string>)
    requires forall i | 0 <= i < |rules| :: RuleNamesIn(rules[i], declared)
    ensures forall r | r in EncodeRules(rules) :: RuleConsistent(r, declared)
  {
    forall r | r in EncodeRules(rules) ensures RuleConsistent(r, declared) {
      var i :| 0 <= i < |rules| && EncodeRules(rules)[i] == r;
      RuleEncodingConsistent(rules[i], declared);
    }
  }

  lemma ObjectConsistent(req: Option<seq<string>>, props: map<string, Schema>, rules: seq<Rule>, defs: set<string>)
    requires forall i | 0 <= i < |Listed(req)| :: Listed(req)[i] in props
    requires forall i | 0 <= i < |rules| :: RuleNamesIn(rules[i], props.Keys)
    requires forall k | k in props :: SchemaConsistent(Encode(props[k]), defs)
    ensures SchemaConsistent(Encode(Object(req, props, rules)), defs)
  {
    var f := Encode(Object(req, props, rules)).fields;
    EncodeObject(req, props, rules);
    ObjectDictFields(req, EncodeProperties(props), rules);
    assert Declared(f) == props.Keys;
    if req.Some? {
      assert Listed(req) == req.value;
      RequiredConsistent(req.value, props.Keys);
    }
    if rules != [] {
      RulesConsistent(rules, props.Keys);
    }
  }

  /** The typed rules carry over to the emitted JSON. */
  lemma {:induction false} EncodeConsistent(s: Schema, defs: set<string>)
    requires WellFormed(s, defs)
    ensures SchemaConsistent(Encode(s), defs)
    decreases s
  {
    match s
    case Object(req, props, rules) =>
      forall k | k in props ensures SchemaConsistent(Encode(props[k]), defs) {
        EncodeConsistent(props[k], defs);
      }
      ObjectConsistent(req, props, rules, defs);
    case Array(items, attrs) =>
      EncodeConsistent(items, defs);
    case Ref(t, widget) =>
      assert "enum" !in RefDict(t, widget) && "type" !in RefDict(t, widget);
      assert (DefsPrefix + t)[..|DefsPrefix|] == DefsPrefix;
      assert (DefsPrefix + t)[|DefsPrefix|..] == t;
    case Leaf(f) =>
      AttrsPlain(f);
  }

  lemma {:induction false} EncodeClosed(s: Schema, defs: set<string>)
    requires WellFormed(s, defs)
    ensures Closed(Encode(s))
    decreases s
  {
    match s
    case Object(req, props, rules) =>
      EncodeObject(req, props, rules);
      ObjectDictFields(req, EncodeProperties(props), rules);
      forall k | k in props ensures Closed(Encode(props[k])) {
        EncodeClosed(props[k], defs);
      }
    case Array(items, attrs) =>
      EncodeClosed(items, defs);
    case Ref(t, widget) =>
      assert "type" !in RefDict(t, widget);
    case Leaf(f) =>
      AttrsPlain(f);
  }

  // ---------------------------------------------------------------------------------------------
  // The frequency discriminators, read off the emitted JSON

  /** The sub-schema an object schema declares under `key`; `{}` when it declares none. */
  function Property(j: Json, key: string): Json {
    if j.Obj? && "properties" in j.fields && j.fields["properties"].Obj? && key in j.fields["properties"].fields
    then j.fields["properties"].fields[key]
    else Obj(map[])
  }

  /** `SelectsOneFormat`, read off an emitted object schema: `prop` is a required frequency choice,
      the two format blocks are declared and optional, and the `allOf` list makes `annual` required
      for `ANNUALLY` and `biennial` for `EVERY_TWO_YEARS`, and nothing else. */
  predicate SelectsOneFormatJson(j: Json, prop: string, annual: string, biennial: string) {
    && j.Obj? && HasType(j.fields, "object")
    && Property(j, prop) == Encode(Leaf(Frequency))
    && "required" in j.fields && j.fields["required"].Arr?
    && prop in Names(j.fields["required"].items)
    && annual in Declared(j.fields) && biennial in Declared(j.fields)
    && annual !in Names(j.fields["required"].items) && biennial !in Names(j.fields["required"].items)
    && "allOf" in j.fields && j.fields["allOf"].Arr?
    && AllOfRequiresWhen(j.fields["allOf"].items, prop, Str("ANNUALLY")) == {annual}
    && AllOfRequiresWhen(j.fields["allOf"].items, prop, Str("EVERY_TWO_YEARS")) == {biennial}
  }

  /** An encoded object declares each of its properties as the encoding of its typed schema. */
  lemma PropertyEncoded(s: Schema, key: string)
    requires s.Object? && key in s.properties
    ensures Property(Encode(s), key) == Encode(s.properties[key])
  {
    EncodeObject(s.required, s.properties, s.rules);
    ObjectDictFields(s.required, EncodeProperties(s.properties), s.rules);
  }

  /** A typed discriminator is still one in the emitted JSON. */
  lemma FormatChoiceEncoded(s: Schema, prop: string, annual: string, biennial: string)
    requires SelectsOneFormat(s, prop, annual, biennial)
    ensures SelectsOneFormatJson(Encode(s), prop, annual, biennial)
  {
    var f := Encode(s).fields;
    EncodeObject(s.required, s.properties, s.rules);
    ObjectDictFields(s.required, EncodeProperties(s.properties), s.rules);
    PropertyEncoded(s, prop);
    assert s.required.Some?;
    NamesOfStrArr(s.required.value);
    assert s.rules != [];
    RequiredWhenEncoded(s.rules, prop, Str("ANNUALLY"));
    RequiredWhenEncoded(s.rules, prop, Str("EVERY_TWO_YEARS"));
  }

  /** The table `table` of an object schema selects its format by `use_if_psur_frequency`, as the
      tables of sections C and F do. */
  predicate SelectsFormatAt(s: Schema, table: string) {
    s.Object? && table in s.properties
    && SelectsOneFormat(s.properties[table], "use_if_psur_frequency", "annual_format", "every_two_years_format")
  }

  /** `SelectsFormatAt`, read off an emitted object schema. */
  predicate FormatSelectedAt(j: Json, table: string) {
    SelectsOneFormatJson(Property(j, table), "use_if_psur_frequency", "annual_format", "every_two_years_format")
  }

  /** A section schema whose table selects its format does so in its encoding too. */
  lemma FormatSelectedEncoded(s: Schema, table: string)
    requires SelectsFormatAt(s, table)
    ensures FormatSelectedAt(Encode(s), table)
  {
    PropertyEncoded(s, table);
    FormatChoiceEncoded(s.properties[table], "use_if_psur_frequency", "annual_format", "every_two_years_format");
  }
}
