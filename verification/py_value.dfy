/** The Python values a decoded JSON reply can hold, with the two things the
    backend asks of them: truthiness (`if not x`) and conversion to text
    (`str(x)`, f-strings). */
module PyValue {
  import opened Wrappers
  import opened Text

  datatype Value =
    | Null                              // None
    | Str(s: string)
    | List(items: seq<Value>)
    | Other(truthy: bool, repr: string) // a number, boolean or dict: its truthiness and str()

  /** A decoded JSON object. */
  type Dict = map<string, Value>

  /** Python truthiness: None, "" and [] are false. */
  predicate Truthy(v: Value) {
    match v
    case Null => false
    case Str(s) => s != ""
    case List(items) => |items| > 0
    case Other(t, _) => t
  }

  /** A Python `Optional[str]` that is truthy: neither `None` nor empty. */
  predicate Present(o: Option<string>) {
    o.Some? && o.value != ""
  }

  /** `repr(v)`: strings are quoted, lists are bracketed. Escaping of quote
      characters inside strings is not modelled. */
  function Repr(v: Value): string
    decreases v
  {
    match v
    case Null => "None"
    case Str(s) => "'" + s + "'"
    case List(items) =>
      "[" + Join(seq(|items|, i requires 0 <= i < |items| => Repr(items[i])), ", ") + "]"
    case Other(_, r) => r
  }

  /** `str(v)`: a string is itself, anything else is its repr. */
  function ToStr(v: Value): (r: string)
    ensures v.Str? ==> r == v.s
    ensures !v.Str? ==> r == Repr(v)
  {
    if v.Str? then v.s else Repr(v)
  }

  /** `d.get(key, default)`. */
  function Get(d: Dict, key: string, default: Value): (r: Value)
    ensures key in d ==> r == d[key]
    ensures key !in d ==> r == default
  {
    if key in d then d[key] else default
  }

  /** The elements of a list when all are strings (what `str.join` accepts);
      `None` when one is not, where `str.join` raises `TypeError`. */
  function AllStrings(items: seq<Value>): (r: Option<seq<string>>)
    ensures r.Some? <==> forall i :: 0 <= i < |items| ==> items[i].Str?
    ensures r.Some? ==> |r.value| == |items|
                        && forall i :: 0 <= i < |items| ==> r.value[i] == items[i].s
  {
    if |items| == 0 then Some([])
    else if !items[0].Str? then None
    else match AllStrings(items[1..])
      case None => None
      case Some(rest) => Some([items[0].s] + rest)
  }
}
