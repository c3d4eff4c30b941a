/**
 * `json.dumps` as the agents call it: with the default `", "` and `": "`
 * separators, and with `indent=2`, with the default `ensure_ascii=True`
 * escaping. Values JSON cannot express are written as the string of their
 * `str()`, as `default=str` does.
 */
module JsonText {
  import opened Py
  import Text
  import Wrappers

  function HexDigit(n: nat): char
    requires n < 16
  {
    if n < 10 then ('0' as int + n) as char else ('a' as int + n - 10) as char
  }

  function Hex4(n: nat): string
    requires n < 0x10000
  {
    [HexDigit(n / 0x1000), HexDigit(n / 0x100 % 16), HexDigit(n / 0x10 % 16), HexDigit(n % 16)]
  }

  /** The escape of one character inside a JSON string literal. */
  function EscapeChar(c: char): (r: string)
    ensures |r| >= 1
    ensures '"' in r ==> r[0] == '\\'
  {
    if c == '"' then "\\\""
    else if c == '\\' then "\\\\"
    else if c == '\n' then "\\n"
    else if c == '\r' then "\\r"
    else if c == '\t' then "\\t"
    else if c as int == 8 then "\\b"
    else if c as int == 12 then "\\f"
    else if ' ' <= c <= '~' then [c]
    else if c as int < 0x10000 then "\\u" + Hex4(c as int)
    else
      var v := c as int - 0x10000;
      "\\u" + Hex4(0xD800 + v / 0x400) + "\\u" + Hex4(0xDC00 + v % 0x400)
  }

  function Escape(s: string): string
  {
    if s == [] then "" else EscapeChar(s[0]) + Escape(s[1..])
  }

  /** A JSON string literal. */
  function Quote(s: string): (r: string)
    ensures |r| >= 2 && r[0] == '"' && r[|r| - 1] == '"'
  {
    "\"" + Escape(s) + "\""
  }

  function Join(parts: seq<string>, sep: string): string
  {
    if parts == [] then "" else if |parts| == 1 then parts[0] else parts[0] + sep + Join(parts[1..], sep)
  }

  function Spaces(n: nat): string
  {
    seq(n, _ => ' ')
  }

  function Scalar(v: Value): string
    requires !v.List? && !v.Tuple? && !v.Dict?
  {
    match v
    case Null => "null"
    case Bool(b) => if b then "true" else "false"
    case Int(i) => Text.IntToString(i)
    case Str(s) => Quote(s)
    case Other(_, text) => Quote(text)
  }

  /** `json.dumps(v)`. */
  function Dumps(v: Value): (r: string)
    ensures v.Dict? ==> |r| >= 2 && r[0] == '{' && r[|r| - 1] == '}'
    ensures (v.List? || v.Tuple?) ==> |r| >= 2 && r[0] == '[' && r[|r| - 1] == ']'
  {
    match v
    case List(items) => "[" + Join(seq(|items|, k requires 0 <= k < |items| => Dumps(items[k])), ", ") + "]"
    case Tuple(items) => "[" + Join(seq(|items|, k requires 0 <= k < |items| => Dumps(items[k])), ", ") + "]"
    case Dict(entries) =>
      "{" + Join(seq(|entries|, k requires 0 <= k < |entries| => Quote(entries[k].0) + ": " + Dumps(entries[k].1)), ", ") + "}"
    case _ => Scalar(v)
  }

  /** `json.dumps(v, indent=2)` for a value nested `level` containers deep. */
  function DumpsIndent(v: Value, level: nat): (r: string)
    ensures v.Dict? ==> |r| >= 2 && r[0] == '{' && r[|r| - 1] == '}'
  {
    match v
    case List(items) => IndentedItems(seq(|items|, k requires 0 <= k < |items| => DumpsIndent(items[k], level + 1)), level, '[', ']')
    case Tuple(items) => IndentedItems(seq(|items|, k requires 0 <= k < |items| => DumpsIndent(items[k], level + 1)), level, '[', ']')
    case Dict(entries) =>
      IndentedItems(seq(|entries|, k requires 0 <= k < |entries| => Quote(entries[k].0) + ": " + DumpsIndent(entries[k].1, level + 1)), level, '{', '}')
    case _ => Scalar(v)
  }

  /** A container laid out one member per line, as `indent=2` does; empty containers stay on one line. */
  function IndentedItems(parts: seq<string>, level: nat, open: char, close: char): (r: string)
    ensures |r| >= 2 && r[0] == open && r[|r| - 1] == close
  {
    if parts == [] then [open, close]
    else
      var lines := seq(|parts|, k requires 0 <= k < |parts| => Spaces(2 * (level + 1)) + parts[k]);
      [open] + "\n" + Join(lines, ",\n") + "\n" + Spaces(2 * level) + [close]
  }

  /** A JSON object reply is its own brace span, so brace extraction hands it back unchanged. */
  lemma {:induction false} DictIsOwnBraceSpan(v: Value)
    requires v.Dict?
    ensures Text.BraceSpan(Dumps(v)) == Wrappers.Some(Dumps(v))
  {
    var r := Dumps(v);
    assert Text.FirstIndexOf(r, '{') == Wrappers.Some(0);
    assert Text.LastIndexOf(r, '}') == Wrappers.Some(|r| - 1);
    assert r[0..|r|] == r;
  }
}
