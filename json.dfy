/**
 * The JSON values the application passes around (nlohmann::json, `njson`),
 * the accessors whose edge cases decide the configuration checks, and the
 * compact text `dump()` writes.
 *
 * An object is its members in iteration order; nlohmann keeps object members
 * in a `std::map`, so the records built in this model list their keys sorted.
 */
module Json {
  import opened Wrappers
  import opened Strings

  datatype Json =
    | Null
    | Bool(b: bool)
    | Int(n: int)
    | Str(s: string)
    | Arr(items: seq<Json>)
    | Obj(members: seq<(string, Json)>)

  /** The first member named `key`. */
  function Lookup(ms: seq<(string, Json)>, key: string): Option<Json>
  {
    if ms == [] then None
    else if ms[0].0 == key then Some(ms[0].1)
    else Lookup(ms[1..], key)
  }

  /** `Lookup` finds a key exactly when a member has it, and then gives the first such member's value. */
  lemma {:induction false} LookupFindsFirst(ms: seq<(string, Json)>, key: string)
    ensures Lookup(ms, key).None? <==> forall i :: 0 <= i < |ms| ==> ms[i].0 != key
    ensures Lookup(ms, key).Some? ==>
      exists i :: 0 <= i < |ms| && ms[i] == (key, Lookup(ms, key).value) && forall k :: 0 <= k < i ==> ms[k].0 != key
  {
    if ms != [] && ms[0].0 != key {
      LookupFindsFirst(ms[1..], key);
      assert forall i :: 1 <= i < |ms| ==> ms[i] == ms[1..][i - 1];
      if Lookup(ms, key).Some? {
        var j :| 0 <= j < |ms[1..]| && ms[1..][j] == (key, Lookup(ms, key).value) && forall k :: 0 <= k < j ==> ms[1..][k].0 != key;
        assert ms[j + 1] == (key, Lookup(ms, key).value);
      }
    }
  }

  /** The member at `i` is the one `Lookup` finds when no earlier member has its key. */
  lemma {:induction false} LookupAt(ms: seq<(string, Json)>, key: string, i: nat)
    requires i < |ms| && ms[i].0 == key
    requires forall k :: 0 <= k < i ==> ms[k].0 != key
    ensures Lookup(ms, key) == Some(ms[i].1)
  {
    if i > 0 {
      assert ms[0].0 != key;
      assert forall k :: 0 <= k < i - 1 ==> ms[1..][k] == ms[k + 1];
      LookupAt(ms[1..], key, i - 1);
    }
  }

  /** `j.contains(key)`: false for anything but an object. */
  predicate Contains(j: Json, key: string)
  {
    j.Obj? && Lookup(j.members, key).Some?
  }

  /**
   * `j[key]` read as a value: the member, or null when the key is missing. On a
   * value that is not an object nlohmann throws; every caller in this model runs
   * inside a handler that turns that into a failed check, and every check fails
   * on null just as well, so null stands for it.
   */
  function Get(j: Json, key: string): (r: Json)
    ensures !Contains(j, key) ==> r == Null
    ensures Contains(j, key) ==> Some(r) == Lookup(j.members, key)
  {
    if j.Obj? then (match Lookup(j.members, key) case None => Null case Some(v) => v) else Null
  }

  /** `j.empty()`: null and empty containers are empty, scalars never are. */
  predicate IsEmpty(j: Json)
  {
    match j
    case Null => true
    case Arr(items) => items == []
    case Obj(ms) => ms == []
    case _ => false
  }

  /** `j.size()`: 0 for null, the element count of a container, 1 for a scalar. */
  function Size(j: Json): nat
  {
    match j
    case Null => 0
    case Arr(items) => |items|
    case Obj(ms) => |ms|
    case _ => 1
  }

  /** A key present in a value means the value is a non-empty object. */
  lemma ContainsMeansNonEmpty(j: Json, key: string)
    requires Contains(j, key)
    ensures !IsEmpty(j) && Size(j) > 0
  {
  }

  predicate AllStrings(items: seq<Json>) { forall i :: 0 <= i < |items| ==> items[i].Str? }

  // ---------------------------------------------------------------------
  // Serialisation
  // ---------------------------------------------------------------------

  function HexDigit(d: nat): char
    requires d < 16
  {
    "0123456789abcdef"[d]
  }

  function HexDigitValue(c: char): nat
  {
    if '0' <= c <= '9' then c as int - '0' as int
    else if 'a' <= c <= 'f' then c as int - 'a' as int + 10
    else 0
  }

  /** The escape nlohmann writes for one character of a string (no ASCII-only mode). */
  function EscapeChar(c: char): string
  {
    if c == '"' then "\\\""
    else if c == '\\' then "\\\\"
    else if c as int == 0x08 then "\\b"
    else if c as int == 0x0c then "\\f"
    else if c == '\n' then "\\n"
    else if c == '\r' then "\\r"
    else if c == '\t' then "\\t"
    else if c as int < 0x20 then "\\u00" + [HexDigit(c as int / 16), HexDigit(c as int % 16)]
    else [c]
  }

  function Escape(s: string): string
  {
    if s == [] then "" else EscapeChar(s[0]) + Escape(s[1..])
  }

  /** Reads back the escapes `Escape` writes; any other character stands for itself. */
  function Unescape(t: string): string
    decreases |t|
  {
    if t == [] then ""
    else if t[0] == '\\' && |t| >= 6 && t[1] == 'u' && t[2] == '0' && t[3] == '0' then
      [(HexDigitValue(t[4]) * 16 + HexDigitValue(t[5])) as char] + Unescape(t[6..])
    else if t[0] == '\\' && |t| >= 2 && t[1] in "\"\\bfnrt" then
      [SimpleEscaped(t[1])] + Unescape(t[2..])
    else [t[0]] + Unescape(t[1..])
  }

  function SimpleEscaped(e: char): char
  {
    match e
    case 'b' => 0x08 as char
    case 'f' => 0x0c as char
    case 'n' => '\n'
    case 'r' => '\r'
    case 't' => '\t'
    case _ => e
  }

  lemma UnescapeHex(c: char, rest: string)
    requires c as int < 0x20
    ensures Unescape("\\u00" + [HexDigit(c as int / 16), HexDigit(c as int % 16)] + rest) == [c] + Unescape(rest)
  {
    var t := "\\u00" + [HexDigit(c as int / 16), HexDigit(c as int % 16)] + rest;
    assert t[6..] == rest;
    assert HexDigitValue(t[4]) == c as int / 16 && HexDigitValue(t[5]) == c as int % 16;
  }

  lemma UnescapeSimple(e: char, rest: string)
    requires e in "\"\\bfnrt"
    ensures Unescape(['\\', e] + rest) == [SimpleEscaped(e)] + Unescape(rest)
  {
    var t := ['\\', e] + rest;
    assert t[2..] == rest;
    assert !(t[1] == 'u');
  }

  lemma UnescapePlain(c: char, rest: string)
    requires c != '\\'
    ensures Unescape([c] + rest) == [c] + Unescape(rest)
  {
    assert ([c] + rest)[1..] == rest;
  }

  lemma UnescapeEscapeChar(c: char, rest: string)
    ensures Unescape(EscapeChar(c) + rest) == [c] + Unescape(rest)
  {
    if c == '"' {
      UnescapeSimple('"', rest);
    } else if c == '\\' {
      UnescapeSimple('\\', rest);
    } else if c as int == 0x08 {
      UnescapeSimple('b', rest);
    } else if c as int == 0x0c {
      UnescapeSimple('f', rest);
    } else if c == '\n' {
      UnescapeSimple('n', rest);
    } else if c == '\r' {
      UnescapeSimple('r', rest);
    } else if c == '\t' {
      UnescapeSimple('t', rest);
    } else if c as int < 0x20 {
      UnescapeHex(c, rest);
    } else {
      UnescapePlain(c, rest);
    }
  }

  /** Escaping loses nothing: the original string can be read back from its escaped form. */
  lemma {:induction false} EscapeRoundTrip(s: string)
    ensures Unescape(Escape(s)) == s
  {
    if s != [] {
      UnescapeEscapeChar(s[0], Escape(s[1..]));
      EscapeRoundTrip(s[1..]);
    }
  }

  function Quote(s: string): string { "\"" + Escape(s) + "\"" }

  /**
   * `j.dump()`: compact JSON text, no spaces. A string is written between
   * quotes with escapes that read back as the original text; arrays and
   * objects are bracketed.
   */
  function Dump(j: Json): (r: string)
    ensures |r| > 0
    ensures j.Str? ==> |r| >= 2 && r[0] == '"' && r[|r| - 1] == '"' && Unescape(r[1..|r| - 1]) == j.s
    ensures j.Arr? ==> r[0] == '[' && r[|r| - 1] == ']'
    ensures j.Obj? ==> r[0] == '{' && r[|r| - 1] == '}'
  {
    match j
    case Null => "null"
    case Bool(b) => if b then "true" else "false"
    case Int(n) => IntToString(n)
    case Str(s) =>
      EscapeRoundTrip(s);
      assert Quote(s)[1..|Quote(s)| - 1] == Escape(s);
      Quote(s)
    case Arr(items) => "[" + JoinWith(",", seq(|items|, i requires 0 <= i < |items| => Dump(items[i]))) + "]"
    case Obj(ms) => "{" + JoinWith(",", seq(|ms|, i requires 0 <= i < |ms| => Quote(ms[i].0) + ":" + Dump(ms[i].1))) + "}"
  }
}
