/** The JSON-like value the Python dictionaries and lists stand for. Numbers with a fraction
    (the theme's line height) are kept as their decimal text; the model never computes with them. */
module Json {

  datatype Json =
    | Bool(b: bool)
    | Int(i: int)
    | Num(text: string)
    | Str(s: string)
    | Arr(items: seq<Json>)
    | Obj(fields: map<string, Json>)

  /** A Python list of strings, such as a `required` list or `section_keys`. */
  function StrArr(names: seq<string>): (r: Json)
    ensures r.Arr? && |r.items| == |names|
    ensures forall i | 0 <= i < |names| :: r.items[i] == Str(names[i])
  {
    Arr(seq(|names|, i requires 0 <= i < |names| => Str(names[i])))
  }

  /** Reads a list of strings back; `None` when some element is not a string. */
  function Strings(items: seq<Json>): (r: Option<seq<string>>)
    ensures r.Some? ==> |r.value| == |items| && forall i | 0 <= i < |items| :: items[i] == Str(r.value[i])
    ensures r.None? ==> exists i | 0 <= i < |items| :: !items[i].Str?
  {
    if items == [] then Some([])
    else if !items[0].Str? then None
    else
      match Strings(items[1..])
      case None => None
      case Some(rest) => Some([items[0].s] + rest)
  }

  lemma {:induction false} StringsOfStrArr(names: seq<string>)
    ensures Strings(StrArr(names).items) == Some(names)
    decreases |names|
  {
    if names != [] {
      assert StrArr(names).items[1..] == StrArr(names[1..]).items;
      StringsOfStrArr(names[1..]);
      assert [names[0]] + names[1..] == names;
    }
  }

  /** The set of string members of a JSON list: the declared names of a `required` list. */
  function Names(items: seq<Json>): (r: set<string>)
    ensures forall x | x in r :: Str(x) in items
    ensures forall j | j in items && j.Str? :: j.s in r
  {
    set j | j in items && j.Str? :: j.s
  }

  lemma NamesOfStrArr(names: seq<string>)
    ensures Names(StrArr(names).items) == set i | 0 <= i < |names| :: names[i]
  {
    var r := StrArr(names);
    forall x | x in Names(r.items) ensures x in set i | 0 <= i < |names| :: names[i] {
      var i :| 0 <= i < |r.items| && r.items[i] == Str(x);
    }
  }

  datatype Option<T> = None | Some(value: T)
}
