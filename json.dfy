/** The JSON values exchanged with the sidecar (serde_json's `Value`), the
    field lookup the dispatcher uses and the compact serialisation that
    `serde_json::to_string` produces. Parsing is not modelled: the model takes
    the outcome of `serde_json::from_str` as an `Option<Value>`. */
module Json {
  import opened Wrappers

  /** A JSON value. Numbers are integers (floating-point numbers are not
      modelled); an object is its members in order, keys distinct when the
      value comes from the parser. */
  datatype Value =
    | Null
    | Bool(b: bool)
    | Int(i: int)
    | Str(s: string)
    | Array(items: seq<Value>)
    | Object(members: seq<(string, Value)>)
  {
    /** `Value::get(key)`: the member `key` of an object; `None` for any
        other kind of value or a missing key. */
    function Get(key: string): (r: Option<Value>)
      ensures r.Some? ==> Object? && exists k | 0 <= k < |members| :: members[k] == (key, r.value)
      ensures !Object? ==> r.None?
      ensures Object? && r.None? ==> forall k | 0 <= k < |members| :: members[k].0 != key
    {
      if Object? then Lookup(members, key) else None
    }

    /** `Value::as_u64`: an integer that fits in 64 unsigned bits. */
    function AsU64(): (r: Option<nat>)
      ensures r.Some? <==> Int? && 0 <= i < U64_LIMIT
      ensures r.Some? ==> r.value == i
    {
      if Int? && 0 <= i < U64_LIMIT then Some(i) else None
    }
  }

  const U64_LIMIT: nat := 0x1_0000_0000_0000_0000

  /** The value of the LAST member named `key`: the parser inserts members
      into a map one by one, so a repeated key keeps its last value. */
  function Lookup(members: seq<(string, Value)>, key: string): (r: Option<Value>)
    ensures r.Some? ==> exists k | 0 <= k < |members| :: members[k] == (key, r.value)
    ensures r.None? <==> forall k | 0 <= k < |members| :: members[k].0 != key
    ensures r.Some? ==> forall k | 0 <= k < |members| && members[k].0 == key :: members[k].1 == r.value || exists j | k < j < |members| :: members[j].0 == key
  {
    if members == [] then None
    else
      var last := members[|members| - 1];
      if last.0 == key then Some(last.1)
      else Lookup(members[..|members| - 1], key)
  }

  /** Lookup in a two-member object, read from the back. */
  lemma Lookup2(a: (string, Value), b: (string, Value), key: string)
    ensures Lookup([a, b], key) ==
              if b.0 == key then Some(b.1) else if a.0 == key then Some(a.1) else None
  {
    assert [a, b][..1] == [a];
    assert [a][..0] == [];
  }

  /** Lookup in a three-member object, read from the back. */
  lemma Lookup3(a: (string, Value), b: (string, Value), c: (string, Value), key: string)
    ensures Lookup([a, b, c], key) ==
              if c.0 == key then Some(c.1) else if b.0 == key then Some(b.1)
              else if a.0 == key then Some(a.1) else None
  {
    assert [a, b, c][..2] == [a, b];
    Lookup2(a, b, key);
  }

  /** A character the serialiser never writes raw: a control character. */
  predicate IsControl(c: char) {
    c < ' '
  }

  /** No control character (in particular no `'\n'` and no `'\r'`) occurs in `t`. */
  predicate Printable(t: string) {
    forall k | 0 <= k < |t| :: !IsControl(t[k])
  }

  // ---------------------------------------------------------------------
  // Compact serialisation (`serde_json::to_string`)
  // ---------------------------------------------------------------------

  /** The compact text of `v`: no whitespace, members in order, strings
      escaped as serde_json escapes them. The text is never empty and holds
      no control character, so it fits on one line of the protocol. */
  function Serialize(v: Value): (t: string)
    ensures |t| > 0 && Printable(t)
    decreases v, 1
  {
    match v
    case Null => "null"
    case Bool(b) => if b then "true" else "false"
    case Int(i) => IntText(i)
    case Str(s) => Quote(s)
    case Array(items) => "[" + SerializeItems(v, items) + "]"
    case Object(members) => "{" + SerializeMembers(v, members) + "}"
  }

  /** The items of an array, separated by commas. `parent` is the array the
      items belong to; it only bounds the recursion. */
  function SerializeItems(ghost parent: Value, items: seq<Value>): (t: string)
    requires forall k | 0 <= k < |items| :: items[k] < parent
    ensures Printable(t)
    decreases parent, 0, |items|
  {
    if items == [] then ""
    else if |items| == 1 then Serialize(items[0])
    else Serialize(items[0]) + "," + SerializeItems(parent, items[1..])
  }

  /** The members of an object as `"key":value`, separated by commas. */
  function SerializeMembers(ghost parent: Value, members: seq<(string, Value)>): (t: string)
    requires forall k | 0 <= k < |members| :: members[k].1 < parent
    ensures Printable(t)
    decreases parent, 0, |members|
  {
    if members == [] then ""
    else
      var m := Quote(members[0].0) + ":" + Serialize(members[0].1);
      if |members| == 1 then m else m + "," + SerializeMembers(parent, members[1..])
  }

  /** A JSON string literal: the escaped text between double quotes. */
  function Quote(s: string): (t: string)
    ensures |t| >= 2 && t[0] == '"' && t[|t| - 1] == '"' && Printable(t)
  {
    "\"" + Escape(s) + "\""
  }

  /** `s` with every character replaced by its escape sequence. */
  function Escape(s: string): (t: string)
    ensures Printable(t)
  {
    if s == [] then "" else EscapeChar(s[0]) + Escape(s[1..])
  }

  /** serde_json's escape table: quote and backslash, the five short escapes
      `\b \t \n \f \r`, `\u00xx` (lower-case hex) for the other control
      characters, every other character unchanged. */
  function EscapeChar(c: char): (t: string)
    ensures Printable(t)
    ensures !IsControl(c) && c != '"' && c != '\\' ==> t == [c]
  {
    if c == '"' then "\\\""
    else if c == '\\' then "\\\\"
    else if c == '\U{8}' then "\\b"
    else if c == '\U{C}' then "\\f"
    else if c == '\n' then "\\n"
    else if c == '\r' then "\\r"
    else if c == '\t' then "\\t"
    else if IsControl(c) then "\\u00" + [HexDigit(c as int / 16), HexDigit(c as int % 16)]
    else [c]
  }

  function HexDigit(d: nat): (c: char)
    requires d < 16
    ensures !IsControl(c)
  {
    "0123456789abcdef"[d]
  }

  /** Decimal text of an integer, with a leading `-` when it is negative. */
  function IntText(i: int): (t: string)
    ensures |t| > 0 && Printable(t)
  {
    if i < 0 then "-" + NatText(-i) else NatText(i)
  }

  /** Decimal digits of `n`, most significant first, no leading zero. */
  function NatText(n: nat): (t: string)
    ensures |t| > 0 && Printable(t)
    ensures forall k | 0 <= k < |t| :: '0' <= t[k] <= '9'
  {
    if n < 10 then [DigitChar(n)] else NatText(n / 10) + [DigitChar(n % 10)]
  }

  function DigitChar(d: nat): (c: char)
    requires d < 10
    ensures '0' <= c <= '9'
  {
    "0123456789"[d]
  }
}
