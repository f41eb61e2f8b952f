/** The leaf field shapes template.py repeats, as kinds, and the dictionary each kind is written as. */
module Fields {
  import opened Json

  /** A leaf property of the schema: a string, number, boolean or choice field. */
  datatype Field =
      /** `{"type": "string"}` */
    | Text
      /** `{"type": "string", "minLength": 1}` */
    | NonEmptyText
      /** `{"type": "string", "ui": {"widget": "textarea"}}` */
    | TextArea
      /** `{"type": "string", "minLength": 1, "ui": {"widget": "textarea"}}` */
    | NonEmptyTextArea
      /** `{"type": "string", "format": "date"}` */
    | Date
      /** `{"type": "string", "format": "date", "ui": {"widget": "date"}}` */
    | DatePicker
      /** `{"type": "boolean", "default": false}` */
    | Flag
      /** `{"type": ["integer", "null"], "minimum": 0}` */
    | Count
      /** `{"type": ["number", "null"]}` */
    | Amount
      /** `{"type": ["number", "null"], "minimum": 0}` */
    | Rate
      /** `{"type": ["number", "null"], "minimum": 0, "maximum": 100}` */
    | Percent
      /** The PSUR frequency: `{"type": "string", "enum": ["ANNUALLY", "EVERY_TWO_YEARS"], "ui": {"widget": "select"}}` */
    | Frequency
      /** `{"type": "string", "enum": options, "default": default, "ui": {"widget": "select"}}` */
    | Choice(options: seq<string>, default: string)
      /** A text input: `{"type": "string"}`, with `"minLength": 1` when `nonEmpty`, and the `pattern`,
          `default` (`initial`) and `ui` (`display`) entries that are given. */
    | TextInput(nonEmpty: bool, pattern: Option<string>, initial: Option<string>, display: Option<Json>)
      /** `{"type": "string", "const": value}` */
    | Fixed(value: string)
      /** A checkbox ticked by default: `{"type": "boolean", "default": true, "ui": widget}` */
    | Checkbox(widget: Json)
      /** `{"type": ["integer", "null"], "minimum": 1, "ui": {"widget": "number"}}` */
    | PageNumber
      /** Any other leaf, written key by key. */
    | Custom(attrs: map<string, Json>)

  function Widget(kind: string): Json {
    Obj(map["widget" := Str(kind)])
  }

  /** `[kind, "null"]`: a JSON Schema type that also admits null. */
  function Nullable(kind: string): Json {
    Arr([Str(kind), Str("null")])
  }

  /** `attrs` with `key` set to `value` when a value is given. */
  function With(attrs: map<string, Json>, key: string, value: Option<Json>): map<string, Json> {
    if value.Some? then attrs[key := value.value] else attrs
  }

  function StrOf(s: Option<string>): Option<Json> {
    if s.Some? then Some(Str(s.value)) else None
  }

  /** The dictionary a leaf field is written as. */
  function Attrs(f: Field): map<string, Json> {
    match f
    case Text => map["type" := Str("string")]
    case NonEmptyText => map["type" := Str("string"), "minLength" := Int(1)]
    case TextArea => map["type" := Str("string"), "ui" := Widget("textarea")]
    case NonEmptyTextArea => map["type" := Str("string"), "minLength" := Int(1), "ui" := Widget("textarea")]
    case Date => map["type" := Str("string"), "format" := Str("date")]
    case DatePicker => map["type" := Str("string"), "format" := Str("date"), "ui" := Widget("date")]
    case Flag => map["type" := Str("boolean"), "default" := Bool(false)]
    case Count => map["type" := Nullable("integer"), "minimum" := Int(0)]
    case Amount => map["type" := Nullable("number")]
    case Rate => map["type" := Nullable("number"), "minimum" := Int(0)]
    case Percent => map["type" := Nullable("number"), "minimum" := Int(0), "maximum" := Int(100)]
    case Frequency =>
      map["type" := Str("string"), "enum" := StrArr(["ANNUALLY", "EVERY_TWO_YEARS"]), "ui" := Widget("select")]
    case Choice(options, default) =>
      map["type" := Str("string"), "enum" := StrArr(options), "default" := Str(default), "ui" := Widget("select")]
    case TextInput(nonEmpty, pattern, initial, display) =>
      var t := map["type" := Str("string")];
      With(With(With(With(t, "minLength", if nonEmpty then Some(Int(1)) else None),
        "pattern", StrOf(pattern)), "default", StrOf(initial)), "ui", display)
    case Fixed(value) => map["type" := Str("string"), "const" := Str(value)]
    case Checkbox(widget) => map["type" := Str("boolean"), "default" := Bool(true), "ui" := widget]
    case PageNumber => map["type" := Nullable("integer"), "minimum" := Int(1), "ui" := Widget("number")]
    case Custom(attrs) => attrs
  }

  /** A leaf's keys never make it an object or an array schema, and never a reference. */
  predicate Plain(attrs: map<string, Json>) {
    && "$ref" !in attrs
    && ("type" in attrs ==> attrs["type"] != Str("object") && attrs["type"] != Str("array"))
  }

  /** A default that is offered must be one of the enumerated values. */
  predicate DefaultInEnum(attrs: map<string, Json>) {
    "enum" in attrs && "default" in attrs ==> attrs["enum"].Arr? && attrs["default"] in attrs["enum"].items
  }

  /** The conditions on a leaf: a choice's default is one of its options, and a custom leaf is plain
      and offers no default outside its enumeration. The fixed kinds meet them by construction. */
  predicate FieldOK(f: Field) {
    match f
    case Choice(options, default) => default in options
    case Custom(attrs) => Plain(attrs) && DefaultInEnum(attrs)
    case _ => true
  }

  /** Every leaf that meets its conditions is written as a plain dictionary whose default, if it
      enumerates its values, is one of them. */
  lemma AttrsPlain(f: Field)
    requires FieldOK(f)
    ensures Plain(Attrs(f)) && DefaultInEnum(Attrs(f))
  {
    match f
    case Choice(options, default) =>
      var i :| 0 <= i < |options| && options[i] == default;
      assert StrArr(options).items[i] == Str(default);
    case TextInput(_, _, _, _) =>
      TextInputKeys(f);
    case _ =>
  }

  /** A text input is written with `"type": "string"` and only the keys it may carry. */
  lemma TextInputKeys(f: Field)
    requires f.TextInput?
    ensures Attrs(f).Keys <= {"type", "minLength", "pattern", "default", "ui"}
    ensures Attrs(f)["type"] == Str("string")
  {
  }

  /** A choice field is well formed exactly when its default is one of its options. */
  lemma ChoiceDefaultOffered(options: seq<string>, default: string)
    ensures FieldOK(Choice(options, default)) <==> DefaultInEnum(Attrs(Choice(options, default)))
  {
    if FieldOK(Choice(options, default)) {
      AttrsPlain(Choice(options, default));
    }
    if DefaultInEnum(Attrs(Choice(options, default))) {
      var i :| 0 <= i < |options| && StrArr(options).items[i] == Str(default);
    }
  }
}
