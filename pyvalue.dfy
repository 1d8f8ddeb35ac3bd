/** The Python values the library handles: what json.loads returns for a reply,
    the dictionaries it builds for outgoing commands, and the values it stores in
    player fields. JNull stands for Python's None. Floats are not modelled. */
module PyValue {
  import opened Wrappers
  import opened Dicts
  import Text

  datatype Json =
    | JNull
    | JBool(b: bool)
    | JInt(i: int)
    | JStr(s: string)
    | JArr(items: seq<Json>)
    | JObj(fields: seq<(string, Json)>)

  /** bool(v). */
  predicate Truthy(v: Json) {
    match v
    case JNull => false
    case JBool(b) => b
    case JInt(i) => i != 0
    case JStr(s) => s != ""
    case JArr(xs) => xs != []
    case JObj(fs) => fs != []
  }

  /** Placeholder text for str() of a list or a dict, whose repr is not modelled. */
  const ContainerText := "<container>"

  /** str(v) for None, booleans, integers and strings. */
  function Str(v: Json): string {
    match v
    case JNull => "None"
    case JBool(b) => if b then "True" else "False"
    case JInt(i) => Text.IntToDecimal(i)
    case JStr(s) => s
    case _ => ContainerText
  }

  /** v[key] with a text key: the value of a dict entry; None where Python raises
      (KeyError for a missing key, TypeError for anything but a dict). */
  function Subscript(v: Json, key: string): Option<Json> {
    match v
    case JObj(fs) => Lookup(fs, key)
    case _ => None
  }

  /** v.get(key): None (JNull) for a missing key; None (raise) when v is not a dict. */
  function DictGet(v: Json, key: string): Option<Json> {
    match v
    case JObj(fs) => Some(Lookup(fs, key).GetOr(JNull))
    case _ => None
  }

  /** `key in v` for a dict. */
  predicate HasKey(v: Json, key: string) {
    v.JObj? && Lookup(v.fields, key).Some?
  }

  /** The values `for x in v` visits: a list's items, a dict's keys, a string's
      characters; None where iteration raises TypeError. */
  function Iterate(v: Json): Option<seq<Json>> {
    match v
    case JArr(xs) => Some(xs)
    case JObj(fs) => Some(seq(|fs|, i requires 0 <= i < |fs| => JStr(fs[i].0)))
    case JStr(s) => Some(seq(|s|, i requires 0 <= i < |s| => JStr([s[i]])))
    case _ => None
  }

  /** int(v); None where Python raises ValueError or TypeError. */
  function ToInt(v: Json): Option<int> {
    match v
    case JBool(b) => Some(if b then 1 else 0)
    case JInt(i) => Some(i)
    case JStr(s) => Text.ParseInt(s)
    case _ => None
  }

  /** Values that may be dictionary keys. */
  predicate Hashable(v: Json) {
    !v.JArr? && !v.JObj?
  }

  /** int() reads back the text str() writes for an integer. */
  lemma ToIntOfStr(i: int)
    ensures ToInt(JStr(Str(JInt(i)))) == Some(i)
  {
    Text.IntRoundTrip(i);
  }
}
