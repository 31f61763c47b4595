/** The values that pass between the graph client, the tools and the JSON encoder: Python's
    None, bool, int, str, list and dict. A dict keeps its insertion order, so it is a sequence
    of key/value pairs. */
module Json {
  import opened Wrappers
  import opened Decimal

  datatype Json =
    | JNull
    | JBool(b: bool)
    | JInt(i: int)
    | JStr(s: string)
    | JList(items: seq<Json>)
    | JObject(fields: Fields)

  /** A Python dict, in insertion order. */
  type Fields = seq<(string, Json)>

  /** `key in d` */
  predicate HasKey(fields: Fields, key: string) {
    exists p :: p in fields && p.0 == key
  }

  /** `d[key]` when the key is present; a dict holds one entry per key, and the first one is read. */
  function Lookup(fields: Fields, key: string): (r: Option<Json>)
    ensures r.Some? <==> HasKey(fields, key)
    ensures r.Some? ==> (key, r.value) in fields
  {
    if fields == [] then None
    else if fields[0].0 == key then Some(fields[0].1)
    else
      assert forall p :: p in fields[1..] ==> p in fields;
      assert forall p :: p in fields && p != fields[0] ==> p in fields[1..];
      Lookup(fields[1..], key)
  }

  /** `d.get(key, default)` */
  function Get(fields: Fields, key: string, default: Json): (r: Json)
    ensures HasKey(fields, key) ==> (key, r) in fields
    ensures !HasKey(fields, key) ==> r == default
  {
    Lookup(fields, key).GetOr(default)
  }

  /** The name Python reports for the type of a value, as in `type(v).__name__`. */
  function TypeName(v: Json): string {
    match v
    case JNull => "NoneType"
    case JBool(_) => "bool"
    case JInt(_) => "int"
    case JStr(_) => "str"
    case JList(_) => "list"
    case JObject(_) => "dict"
  }

  /** `repr(v)`; a string is shown between single quotes, without escaping. */
  function Repr(v: Json): string
    decreases v
  {
    match v
    case JNull => "None"
    case JBool(b) => if b then "True" else "False"
    case JInt(i) => IntToString(i)
    case JStr(s) => "'" + s + "'"
    case JList(items) => "[" + ReprItems(items) + "]"
    case JObject(fields) => "{" + ReprFields(fields) + "}"
  }

  /** The reprs of the items, separated by ", ". */
  function ReprItems(items: seq<Json>): string
    decreases items
  {
    if items == [] then ""
    else if |items| == 1 then Repr(items[0])
    else Repr(items[0]) + ", " + ReprItems(items[1..])
  }

  /** The `'key': value` entries of a dict, separated by ", ". */
  function ReprFields(fields: Fields): string
    decreases fields
  {
    if fields == [] then ""
    else
      assert fields[0].1 < fields[0];
      var entry := "'" + fields[0].0 + "': " + Repr(fields[0].1);
      if |fields| == 1 then entry else entry + ", " + ReprFields(fields[1..])
  }

  /** `str(v)`, which is what an f-string interpolates: a string stands for itself,
      everything else for its repr. */
  function PyStr(v: Json): (r: string)
    ensures v.JStr? ==> r == v.s
    ensures v.JInt? ==> r == IntToString(v.i)
  {
    if v.JStr? then v.s else Repr(v)
  }
}
