/**
 * The Python values that flow through the backend: what `eval` makes of a
 * model response, what the tools return, and the dictionaries the agent
 * answers with; together with the exceptions it can raise, Python's
 * truthiness, and the `str()`/`repr()` text of a value that f-strings embed
 * in prompts and in the transcript.
 */
module PyValues {
  import opened Text

  /** A Python value. A dictionary keeps its entries in insertion order and
      has string keys. A Python dictionary never holds two entries with the
      same key; the type does not enforce that, and `Get` answers the first
      entry with the key. */
  datatype Value =
    | PyNone
    | PyBool(b: bool)
    | PyInt(i: int)
    | PyStr(s: string)
    | PyList(items: seq<Value>)
    | PyTuple(items: seq<Value>)
    | PyDict(entries: seq<(string, Value)>)

  /** A Python exception: its class and `str(e)`. */
  datatype PyError =
    | ValueError(message: string)
    | TypeError(message: string)
    | AttributeError(message: string)
    | SyntaxError(message: string)
    | NameError(message: string)
    | Exception(message: string)

  /** `bool(v)`. */
  predicate Truthy(v: Value) {
    match v
    case PyNone => false
    case PyBool(b) => b
    case PyInt(i) => i != 0
    case PyStr(s) => s != []
    case PyList(items) => items != []
    case PyTuple(items) => items != []
    case PyDict(entries) => entries != []
  }

  /** `type(v).__name__`. */
  function TypeName(v: Value): string {
    match v
    case PyNone => "NoneType"
    case PyBool(_) => "bool"
    case PyInt(_) => "int"
    case PyStr(_) => "str"
    case PyList(_) => "list"
    case PyTuple(_) => "tuple"
    case PyDict(_) => "dict"
  }

  /** `d.get(key, default)` on a dictionary's entries. */
  function Get(entries: seq<(string, Value)>, key: string, default: Value): (r: Value)
    ensures (forall k :: 0 <= k < |entries| ==> entries[k].0 != key) ==> r == default
    ensures r != default ==> exists k :: 0 <= k < |entries| && entries[k] == (key, r)
    ensures forall k :: 0 <= k < |entries| && entries[k].0 == key && (forall j :: 0 <= j < k ==> entries[j].0 != key) ==>
              r == entries[k].1
  {
    if entries == [] then default
    else if entries[0].0 == key then entries[0].1
    else
      var r := Get(entries[1..], key, default);
      assert r != default ==> exists k :: 0 <= k < |entries[1..]| && entries[1..][k] == (key, r);
      assert forall k :: 1 <= k < |entries| ==> entries[k] == entries[1..][k - 1];
      r
  }

  /** `d.get(key)` passes over an entry with another key. A single unfolding,
      stated on its own to keep the queries that use it small. */
  lemma GetSkip(entries: seq<(string, Value)>, key: string)
    requires entries != [] && entries[0].0 != key
    ensures Get(entries, key, PyNone) == Get(entries[1..], key, PyNone)
  {
  }

  /** The exception raised by `v.get(...)` when `v` is not a dictionary. */
  function NoGetAttribute(v: Value): PyError {
    AttributeError("'" + TypeName(v) + "' object has no attribute 'get'")
  }

  // ---------------------------------------------------------------------------
  // repr() and str()
  // ---------------------------------------------------------------------------

  function HexDigit(d: nat): char
    requires d < 16
  {
    if d < 10 then DigitChar(d) else (('a' as int) + d - 10) as char
  }

  /** The quote `repr` puts around a string: double quotes only when the
      string holds a single quote and no double quote. */
  function QuoteFor(s: string): char {
    if '\'' in s && '"' !in s then '"' else '\''
  }

  /** How `repr` writes one ASCII character inside quotes `q`. */
  function EscapeChar(c: char, q: char): string {
    if c == q || c == '\\' then ['\\', c]
    else if c == '\t' then "\\t"
    else if c == '\n' then "\\n"
    else if c == '\r' then "\\r"
    else if c < ' ' || c == '\U{7F}' then
      "\\x" + [HexDigit((c as int) / 16), HexDigit((c as int) % 16)]
    else [c]
  }

  function EscapeAll(s: string, q: char): string {
    if s == [] then [] else EscapeChar(s[0], q) + EscapeAll(s[1..], q)
  }

  /** `repr(s)` for a string. */
  function ReprString(s: string): string {
    var q := QuoteFor(s);
    [q] + EscapeAll(s, q) + [q]
  }

  /** `repr(v)`. */
  function Repr(v: Value): string
    decreases v, 1
  {
    match v
    case PyNone => "None"
    case PyBool(b) => if b then "True" else "False"
    case PyInt(i) => IntToDecimal(i)
    case PyStr(s) => ReprString(s)
    case PyList(items) => "[" + ReprItems(items) + "]"
    case PyTuple(items) =>
      if |items| == 1 then "(" + Repr(items[0]) + ",)" else "(" + ReprItems(items) + ")"
    case PyDict(entries) => "{" + ReprEntries(entries) + "}"
  }

  function ReprItems(items: seq<Value>): string
    decreases items, 0
  {
    if items == [] then []
    else if |items| == 1 then Repr(items[0])
    else Repr(items[0]) + ", " + ReprItems(items[1..])
  }

  function ReprEntries(entries: seq<(string, Value)>): string
    decreases entries, 0
  {
    if entries == [] then []
    else
      var (key, value) := entries[0];
      assert value < entries[0];
      var item := ReprString(key) + ": " + Repr(value);
      if |entries| == 1 then item else item + ", " + ReprEntries(entries[1..])
  }

  /** `str(v)`, which is what an f-string embeds: a string as it is, any
      other value as its `repr`. */
  function Str(v: Value): string {
    if v.PyStr? then v.s else Repr(v)
  }
}
