/**
 * The Python values that the loader stores in dicts (metadata, payloads, error
 * details), and their `repr`, which error messages embed.
 */
module Values {
  import opened Wrappers
  import opened Dicts
  import opened Text

  /** Seconds on a fixed clock; only the order of timestamps matters to the loader. */
  type Timestamp = int

  /**
   * `VTime(t)` stands for the ISO-8601 text `t.isoformat()` that the serialisers
   * store; `VDict` is a nested dict.
   */
  datatype Value =
    | VNone
    | VBool(b: bool)
    | VInt(i: int)
    | VStr(s: string)
    | VTime(t: Timestamp)
    | VList(items: seq<Value>)
    | VDict(entries: seq<(string, Value)>)

  /** An `Optional[str]` that is truthy: present and non-empty. */
  predicate Truthy(o: Option<string>)
  {
    o.Some? && o.value != ""
  }

  /** An `Optional[str]` field as stored in a dict. */
  function OptStr(o: Option<string>): (v: Value)
    ensures o.None? <==> v == VNone
  {
    if o.Some? then VStr(o.value) else VNone
  }

  /** An `Optional[int]` field as stored in a dict. */
  function OptInt(o: Option<int>): (v: Value)
    ensures o.None? <==> v == VNone
  {
    if o.Some? then VInt(o.value) else VNone
  }

  /** `ts.isoformat() if ts else None`. */
  function OptTime(o: Option<Timestamp>): (v: Value)
    ensures o.None? <==> v == VNone
  {
    if o.Some? then VTime(o.value) else VNone
  }

  /** A `List[str]` as stored in a dict. */
  function StrList(xs: seq<string>): (v: Value)
    ensures v.VList? && |v.items| == |xs|
    ensures forall i :: 0 <= i < |xs| ==> v.items[i] == VStr(xs[i])
  {
    VList(seq(|xs|, i requires 0 <= i < |xs| => VStr(xs[i])))
  }

  /** One character inside a quoted string literal. */
  function EscapeChar(c: char, quote: char): string
  {
    if c == '\\' then "\\\\"
    else if c == quote then ['\\', quote]
    else if c == '\n' then "\\n"
    else if c == '\r' then "\\r"
    else if c == '\t' then "\\t"
    else [c]
  }

  function EscapeBody(s: string, quote: char): string
  {
    if s == [] then [] else EscapeChar(s[0], quote) + EscapeBody(s[1..], quote)
  }

  /**
   * `repr(s)`: single quotes unless the text holds a single quote and no double
   * quote; the backslash, the chosen quote and \n, \r, \t are escaped.
   */
  function ReprStr(s: string): (r: string)
    ensures |r| >= 2
  {
    var quote := if '\'' in s && '"' !in s then '"' else '\'';
    [quote] + EscapeBody(s, quote) + [quote]
  }

  /** `repr(v)` of a value, as str.format shows it inside a message. */
  function Repr(v: Value): (r: string)
    ensures |r| >= 1
    decreases v, 1
  {
    match v
    case VNone => "None"
    case VBool(b) => if b then "True" else "False"
    case VInt(i) => IntToString(i)
    case VStr(s) => ReprStr(s)
    case VTime(t) => "datetime(" + IntToString(t) + ")"
    case VList(items) => "[" + ReprItems(items, v) + "]"
    case VDict(entries) => "{" + ReprEntries(entries, v) + "}"
  }

  function ReprItems(items: seq<Value>, ghost parent: Value): string
    requires forall i :: 0 <= i < |items| ==> items[i] < parent
    decreases parent, 0, |items|
  {
    if items == [] then ""
    else if |items| == 1 then Repr(items[0])
    else Repr(items[0]) + ", " + ReprItems(items[1..], parent)
  }

  function ReprEntries(entries: seq<(string, Value)>, ghost parent: Value): string
    requires forall i :: 0 <= i < |entries| ==> entries[i].1 < parent
    decreases parent, 0, |entries|
  {
    if entries == [] then ""
    else
      var head := ReprStr(entries[0].0) + ": " + Repr(entries[0].1);
      if |entries| == 1 then head else head + ", " + ReprEntries(entries[1..], parent)
  }

  /** `repr(d)` of a dict. */
  function ReprDict(d: Dict<Value>): (r: string)
    ensures |r| >= 2 && r[0] == '{'
  {
    Repr(VDict(d))
  }
}
