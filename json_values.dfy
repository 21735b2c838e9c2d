/**
 * JSON documents as the modelled code sees them after `response.json()`: Python
 * values whose objects are dicts. A dict is an ordered list of fields, as Python
 * dicts keep insertion order, and a key that is absent differs from a key that
 * is present with the value null (None).
 */
module JsonValues {
  import opened Wrappers
  import opened Errors
  import opened PyStrings

  datatype Value =
    | Null
    | Bool(b: bool)
    | Int(i: int)
    | Str(s: string)
    | Arr(items: seq<Value>)
    | Obj(fields: seq<Field>)

  datatype Field = Field(key: string, value: Value)

  /** The value stored under `k`, if the key is present. */
  function Lookup(fields: seq<Field>, k: string): (r: Option<Value>)
    ensures r.None? <==> forall i :: 0 <= i < |fields| ==> fields[i].key != k
    ensures r.Some? ==> exists i :: 0 <= i < |fields| && fields[i] == Field(k, r.value)
  {
    if fields == [] then None
    else if fields[0].key == k then Some(fields[0].value)
    else
      var r := Lookup(fields[1..], k);
      assert r.Some? ==> exists i :: 0 <= i < |fields[1..]| && fields[1..][i] == Field(k, r.value);
      r
  }

  function Keys(fields: seq<Field>): seq<string> {
    seq(|fields|, i requires 0 <= i < |fields| => fields[i].key)
  }

  /** `d[k] = v`: overwrite the value of an existing key in place, else append the key. */
  function SetKey(fields: seq<Field>, k: string, v: Value): seq<Field>
  {
    if fields == [] then [Field(k, v)]
    else if fields[0].key == k then [Field(k, v)] + fields[1..]
    else [fields[0]] + SetKey(fields[1..], k, v)
  }

  /** Assigning a key that is absent appends it at the end. */
  lemma {:induction false} SetKeyFresh(fields: seq<Field>, k: string, v: Value)
    requires k !in Keys(fields)
    ensures SetKey(fields, k, v) == fields + [Field(k, v)]
    decreases |fields|
  {
    if fields != [] {
      assert Keys(fields)[0] == fields[0].key;
      assert Keys(fields[1..]) == Keys(fields)[1..];
      SetKeyFresh(fields[1..], k, v);
      assert fields == [fields[0]] + fields[1..];
      assert [fields[0]] + (fields[1..] + [Field(k, v)]) == fields + [Field(k, v)];
    }
  }

  /** `v.get(k)`: None both when the key is absent and when it holds null. */
  function Get(v: Value, k: string): Result<Value, Error> {
    match v
    case Obj(fs) => Ok(Lookup(fs, k).GetOr(Null))
    case _ => Err(AttributeError)
  }

  /** `d.get(k)` on a value already known to be a dict, given by its fields. */
  function Cell(fs: seq<Field>, k: string): Value {
    Lookup(fs, k).GetOr(Null)
  }

  /** `v.get(k, default)`: the default only when the key is absent. */
  function GetOr(v: Value, k: string, default: Value): Result<Value, Error> {
    match v
    case Obj(fs) => Ok(Lookup(fs, k).GetOr(default))
    case _ => Err(AttributeError)
  }

  /** Python truthiness (`if x`, `not x`). */
  predicate Truthy(v: Value) {
    match v
    case Null => false
    case Bool(b) => b
    case Int(i) => i != 0
    case Str(s) => s != []
    case Arr(xs) => xs != []
    case Obj(fs) => fs != []
  }

  /** The items a `for` loop visits: list items, the characters of a string, the keys of a dict. */
  function Iterate(v: Value): Result<seq<Value>, Error> {
    match v
    case Arr(xs) => Ok(xs)
    case Str(s) => Ok(seq(|s|, i requires 0 <= i < |s| => Str([s[i]])))
    case Obj(fs) => Ok(seq(|fs|, i requires 0 <= i < |fs| => Str(fs[i].key)))
    case _ => Err(TypeError)
  }

  /** A Python argument that is a string or None. */
  function OfString(o: Option<string>): Value {
    match o
    case Some(s) => Str(s)
    case None => Null
  }

  /** A Python argument that is an int or None. */
  function OfInt(o: Option<int>): Value {
    match o
    case Some(i) => Int(i)
    case None => Null
  }

  /** `str(v)` */
  function PyStr(v: Value): string
    decreases v, 0
  {
    match v
    case Null => "None"
    case Bool(b) => if b then "True" else "False"
    case Int(i) => IntToString(i)
    case Str(s) => s
    case Arr(xs) => "[" + Join(seq(|xs|, k requires 0 <= k < |xs| => Repr(xs[k])), ", ") + "]"
    case Obj(fs) =>
      "{" + Join(seq(|fs|, k requires 0 <= k < |fs| => ReprString(fs[k].key) + ": " + Repr(fs[k].value)), ", ") + "}"
  }

  /** `repr(v)`: strings quoted and escaped, other values as `str` prints them. */
  function Repr(v: Value): string
    decreases v, 1
  {
    match v
    case Str(s) => ReprString(s)
    case _ => PyStr(v)
  }

  function HexDigit(d: int): char
    requires 0 <= d < 16
  {
    if d < 10 then ('0' as int + d) as char else ('a' as int + d - 10) as char
  }

  /** Two lower-case hexadecimal digits (`'{0:02x}'.format(n)`). */
  function Hex2(n: int): string
    requires 0 <= n < 0x100
  {
    [HexDigit(n / 16), HexDigit(n % 16)]
  }

  /** The quote `repr` puts around a string: double only when it holds a single quote and no double quote. */
  function ReprQuote(s: string): char {
    if '\'' in s && '"' !in s then '"' else '\''
  }

  /** How `repr` writes one character of a string it quotes with `q`. */
  function ReprChar(c: char, q: char): string {
    if c == '\\' then "\\\\"
    else if c == q then ['\\', q]
    else if c == '\n' then "\\n"
    else if c == '\r' then "\\r"
    else if c == '\t' then "\\t"
    else if c as int < 0x20 || c as int == 0x7f then "\\x" + Hex2(c as int)
    else [c]
  }

  function ReprBody(s: string, q: char): string
    decreases |s|
  {
    if s == [] then [] else ReprBody(s[..|s| - 1], q) + ReprChar(s[|s| - 1], q)
  }

  /** `repr(s)` for a string: the chosen quote around the escaped characters. */
  function ReprString(s: string): string {
    var q := ReprQuote(s);
    [q] + ReprBody(s, q) + [q]
  }

  /** A character `repr` writes as itself inside quotes `q`. */
  predicate Verbatim(c: char, q: char) {
    ' ' <= c <= '~' && c != '\\' && c != q
  }

  lemma ReprCharVerbatim(c: char, q: char)
    requires Verbatim(c, q)
    ensures ReprChar(c, q) == [c]
  {
  }

  lemma {:induction false} ReprBodyVerbatim(s: string, q: char)
    requires forall i :: 0 <= i < |s| ==> Verbatim(s[i], q)
    ensures ReprBody(s, q) == s
    decreases |s|
  {
    if s != [] {
      var init, last := s[..|s| - 1], s[|s| - 1];
      assert forall i :: 0 <= i < |init| ==> init[i] == s[i];
      ReprBodyVerbatim(init, q);
      ReprCharVerbatim(last, q);
      assert ReprBody(s, q) == init + [last];
      assert s == init + [last];
    }
  }

  /** Printable text without quotes or backslashes is written between single quotes as it is. */
  lemma ReprStringPlain(s: string)
    requires forall i :: 0 <= i < |s| ==> Verbatim(s[i], '\'') && s[i] != '"'
    ensures ReprString(s) == "'" + s + "'"
  {
    assert '\'' !in s by {
      forall i | 0 <= i < |s| ensures s[i] != '\'' {
        assert Verbatim(s[i], '\'');
      }
    }
    ReprBodyVerbatim(s, '\'');
  }

  /**
   * Printable text with a single quote but no double quote or backslash is
   * written between double quotes as it is, so `repr("it's")` is `"it's"`.
   */
  lemma ReprStringApostrophe(s: string)
    requires '\'' in s
    requires forall i :: 0 <= i < |s| ==> Verbatim(s[i], '"')
    ensures ReprString(s) == "\"" + s + "\""
  {
    assert '"' !in s by {
      forall i | 0 <= i < |s| ensures s[i] != '"' {
        assert Verbatim(s[i], '"');
      }
    }
    ReprBodyVerbatim(s, '"');
  }

  /**
   * A character that is no quote, backslash, digit or lower-case letter and that
   * the string lacks is absent from its `repr` too.
   */
  lemma {:induction false} ReprBodyHasNo(s: string, q: char, c: char)
    requires c !in s && c != q && c != '\\' && !('0' <= c <= '9') && !('a' <= c <= 'z')
    ensures c !in ReprBody(s, q)
    decreases |s|
  {
    if s != [] {
      ReprBodyHasNo(s[..|s| - 1], q, c);
      assert s[|s| - 1] in s;
      var d := s[|s| - 1];
      if !(d == '\\' || d == q || d == '\n' || d == '\r' || d == '\t') && (d as int < 0x20 || d as int == 0x7f) {
        var h := Hex2(d as int);
        assert c !in h;
      }
    }
  }

  lemma ReprStringHasNo(s: string, c: char)
    requires c !in s && c != '\'' && c != '"' && c != '\\' && !('0' <= c <= '9') && !('a' <= c <= 'z')
    ensures c !in ReprString(s)
  {
    ReprBodyHasNo(s, ReprQuote(s), c);
  }

  /** Four lower-case hexadecimal digits (`'{0:04x}'.format(n)`). */
  function Hex4(n: int): string
    requires 0 <= n < 0x10000
  {
    [HexDigit(n / 4096), HexDigit(n / 256 % 16), HexDigit(n / 16 % 16), HexDigit(n % 16)]
  }

  /** How `json.dumps` (ensure_ascii) writes one character of a string. */
  function EscapeChar(c: char): string {
    if c == '"' then "\\\""
    else if c == '\\' then "\\\\"
    else if c == '\n' then "\\n"
    else if c == '\r' then "\\r"
    else if c == '\t' then "\\t"
    else if c as int == 8 then "\\b"
    else if c as int == 12 then "\\f"
    else if ' ' <= c <= '~' then [c]
    else if c as int < 0x10000 then "\\u" + Hex4(c as int)
    else
      var n := c as int - 0x10000;
      "\\u" + Hex4(0xD800 + n / 1024) + "\\u" + Hex4(0xDC00 + n % 1024)
  }

  function EscapeBody(s: string): string
    decreases |s|
  {
    if s == [] then [] else EscapeBody(s[..|s| - 1]) + EscapeChar(s[|s| - 1])
  }

  /** A JSON string literal. */
  function Quote(s: string): string {
    "\"" + EscapeBody(s) + "\""
  }

  /** `json.dumps(v)` with the default separators `", "` and `": "` and ensure_ascii. */
  function Dumps(v: Value): string
    decreases v
  {
    match v
    case Null => "null"
    case Bool(b) => if b then "true" else "false"
    case Int(i) => IntToString(i)
    case Str(s) => Quote(s)
    case Arr(xs) => "[" + Join(seq(|xs|, k requires 0 <= k < |xs| => Dumps(xs[k])), ", ") + "]"
    case Obj(fs) =>
      "{" + Join(seq(|fs|, k requires 0 <= k < |fs| => Quote(fs[k].key) + ": " + Dumps(fs[k].value)), ", ") + "}"
  }

  lemma EscapeCharPrintable(c: char)
    ensures Printable(EscapeChar(c))
  {
  }

  lemma {:induction false} EscapeBodyPrintable(s: string)
    ensures Printable(EscapeBody(s))
    decreases |s|
  {
    if s != [] {
      EscapeBodyPrintable(s[..|s| - 1]);
      EscapeCharPrintable(s[|s| - 1]);
    }
  }

  lemma IntToStringPrintable(i: int)
    ensures Printable(IntToString(i))
  {
    var d := NatToString(if i < 0 then -i else i);
    assert Printable(d);
  }

  lemma BracketedPrintable(open: string, ps: seq<string>, close: string)
    requires Printable(open) && Printable(close)
    requires forall k :: 0 <= k < |ps| ==> Printable(ps[k])
    ensures Printable(open + Join(ps, ", ") + close)
  {
    JoinPrintable(ps, ", ");
  }

  lemma QuotePrintable(s: string)
    ensures Printable(Quote(s))
  {
    EscapeBodyPrintable(s);
  }

  lemma MemberPrintable(key: string, value: string)
    requires Printable(value)
    ensures Printable(Quote(key) + ": " + value)
  {
    QuotePrintable(key);
  }

  /** With ensure_ascii, every character `json.dumps` writes is printable ASCII. */
  lemma {:induction false} DumpsPrintable(v: Value)
    ensures Printable(Dumps(v))
    decreases v
  {
    match v
    case Null =>
    case Bool(b) =>
    case Int(i) => IntToStringPrintable(i);
    case Str(s) => QuotePrintable(s);
    case Arr(xs) =>
      var ps := seq(|xs|, k requires 0 <= k < |xs| => Dumps(xs[k]));
      forall k | 0 <= k < |xs| ensures Printable(ps[k]) {
        assert ps[k] == Dumps(xs[k]);
        DumpsPrintable(xs[k]);
      }
      BracketedPrintable("[", ps, "]");
    case Obj(fs) =>
      var ps := seq(|fs|, k requires 0 <= k < |fs| => Quote(fs[k].key) + ": " + Dumps(fs[k].value));
      forall k | 0 <= k < |fs| ensures Printable(ps[k]) {
        DumpsPrintable(fs[k].value);
        MemberPrintable(fs[k].key, Dumps(fs[k].value));
      }
      BracketedPrintable("{", ps, "}");
  }
}
