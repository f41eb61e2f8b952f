/** The row-table factory `table_array` of template.py and the other composite field shapes the
    sections repeat. */
module Tables {
  import opened Json
  import opened Fields
  import opened Schema

  /** `{"$ref": "#/$defs/" + target, "ui": {"widget": "select"}}`: a choice among a shared enumeration. */
  function Select(target: string): (r: Schema)
    requires target in DefNames
    ensures Sound(r)
  {
    Ref(target, Some("select"))
  }

  /** A fixed-length list of strings: `{"type": "array", "minItems": n, "maxItems": n, "items": {"type": "string"}}`. */
  function DateRanges(n: int): (r: Schema)
    ensures Sound(r) && MinItems(r) == Some(Int(n))
  {
    assert WellFormed(Leaf(Text), DefNames);
    Array(Leaf(Text), map["minItems" := Int(n), "maxItems" := Int(n)])
  }

  /** A fixed-length list of optional numbers. */
  function Amounts(n: int): (r: Schema)
    ensures Sound(r) && MinItems(r) == Some(Int(n))
  {
    assert WellFormed(Leaf(Amount), DefNames);
    Array(Leaf(Amount), map["minItems" := Int(n), "maxItems" := Int(n)])
  }

  /** `{"type": "object", "additionalProperties": false, "required": required, "properties": props}` */
  predicate ClosedObjectOf(j: Json, required: seq<string>, props: map<string, Json>) {
    && j.Obj? && j.fields.Keys == {"type", "additionalProperties", "required", "properties"}
    && j.fields["type"] == Str("object") && j.fields["additionalProperties"] == Bool(false)
    && j.fields["required"] == StrArr(required) && j.fields["properties"] == Obj(props)
  }

  /** `table_array(required_fields, props, min_items)`: an array of closed row objects shown as a table. */
  function TableArray(required: seq<string>, columns: map<string, Schema>, minItems: int): (r: Schema)
    ensures r.Array? && r.items.Object? && MinItems(r) == Some(Int(minItems))
  {
    Array(Object(Some(required), columns, []), map["minItems" := Int(minItems), "ui" := Widget("table")])
  }

  /** The row objects of a table: closed, with exactly the given required columns and columns. */
  lemma TableRowShape(required: seq<string>, columns: map<string, Schema>, minItems: int)
    ensures ClosedObjectOf(Encode(TableArray(required, columns, minItems)).fields["items"], required, EncodeProperties(columns))
  {
    var rows := Object(Some(required), columns, []);
    EncodeObject(Some(required), columns, []);
    ObjectDictFields(Some(required), EncodeProperties(columns), []);
    var f := Encode(rows).fields;
    assert f.Keys == {"type", "additionalProperties", "required", "properties"} by {
      assert forall k | k in f :: k in {"type", "additionalProperties", "required", "properties"};
    }
  }

  /** The dictionary `table_array` returns. */
  lemma TableArrayShape(required: seq<string>, columns: map<string, Schema>, minItems: int)
    ensures var j := Encode(TableArray(required, columns, minItems)).fields;
      && j.Keys == {"type", "minItems", "items", "ui"}
      && j["type"] == Str("array") && j["minItems"] == Int(minItems) && j["ui"] == Widget("table")
      && ClosedObjectOf(j["items"], required, EncodeProperties(columns))
  {
    TableRowShape(required, columns, minItems);
  }

  /** A row table is well formed exactly when its required columns are declared columns and every
      column schema is well formed: `table_array` does not check this itself. */
  lemma TableArrayWellFormed(required: seq<string>, columns: map<string, Schema>, minItems: int, defs: set<string>)
    ensures WellFormed(TableArray(required, columns, minItems), defs) <==>
      (forall i | 0 <= i < |required| :: required[i] in columns) && (forall k | k in columns :: WellFormed(columns[k], defs))
  {
    var r := TableArray(required, columns, minItems);
    assert r.items.required == Some(required);
    assert Listed(r.items.required) == required;
  }

  /** The factory returns a table whose required column is missing from its columns, instead of failing. */
  lemma TableArrayKeepsUndeclaredColumn()
    ensures !Sound(TableArray(["a", "b"], map["a" := Leaf(Text)], 0))
  {
    var r := TableArray(["a", "b"], map["a" := Leaf(Text)], 0);
    assert r.items.required == Some(["a", "b"]);
    assert Listed(r.items.required)[1] == "b";
  }

  /** The `minItems` bound of an array schema, if it has one. */
  function MinItems(s: Schema): Option<Json> {
    if s.Array? && "minItems" in s.attrs then Some(s.attrs["minItems"]) else None
  }
}
