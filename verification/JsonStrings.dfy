/** JSON strings: `JSON.stringify` of a string and `JSON.parse` of a quoted one (RFC 8259, section 7). */
module JsonStrings {
  import opened Outcomes

  function HexDigit(n: nat): char
    requires n < 16
  {
    if n < 10 then ('0' as int + n) as char else ('a' as int + n - 10) as char
  }

  function HexValue(c: char): Option<nat>
  {
    if '0' <= c <= '9' then Some(c as int - '0' as int)
    else if 'a' <= c <= 'f' then Some(c as int - 'a' as int + 10)
    else if 'A' <= c <= 'F' then Some(c as int - 'A' as int + 10)
    else None
  }

  /** The code unit that four hexadecimal digits denote. */
  function HexCode(s: string): Option<nat>
    requires |s| == 4
  {
    match (HexValue(s[0]), HexValue(s[1]), HexValue(s[2]), HexValue(s[3]))
    case (Some(a), Some(b), Some(c), Some(d)) => Some(((a * 16 + b) * 16 + c) * 16 + d)
    case _ => None
  }

  function EscapeChar(c: char): (s: string)
    ensures s != ""
  {
    if c == '"' then "\\\""
    else if c == '\\' then "\\\\"
    else if c as int == 8 then "\\b"
    else if c as int == 12 then "\\f"
    else if c == '\n' then "\\n"
    else if c == '\r' then "\\r"
    else if c == '\t' then "\\t"
    else if c < ' ' then "\\u00" + [HexDigit(c as int / 16), HexDigit(c as int % 16)]
    else [c]
  }

  function EscapeAll(s: string): string
  {
    if s == "" then "" else EscapeChar(s[0]) + EscapeAll(s[1..])
  }

  function Quote(s: string): string
  {
    "\"" + EscapeAll(s) + "\""
  }

  function SimpleEscape(c: char): Option<char>
  {
    match c
    case '"' => Some('"')
    case '\\' => Some('\\')
    case '/' => Some('/')
    case 'b' => Some(8 as char)
    case 'f' => Some(12 as char)
    case 'n' => Some('\n')
    case 'r' => Some('\r')
    case 't' => Some('\t')
    case _ => None
  }

  /** Reads what follows an opening quote; the closing quote must end the text. */
  function ReadString(t: string): Option<string>
  {
    if t == "" then None
    else if t[0] == '"' then (if |t| == 1 then Some("") else None)
    else if t[0] < ' ' then None
    else if t[0] != '\\' then Prepend(t[0], ReadString(t[1..]))
    else if |t| < 2 then None
    else if t[1] == 'u' then
      if |t| < 6 then None
      else
        match HexCode(t[2..6])
        case Some(code) =>
          if code < 0xD800 || 0xE000 <= code < 0x10000
          then Prepend(code as char, ReadString(t[6..]))
          else None
        case None => None
    else
      match SimpleEscape(t[1])
      case Some(c) => Prepend(c, ReadString(t[2..]))
      case None => None
  }

  function Prepend(c: char, rest: Option<string>): Option<string>
  {
    match rest
    case Some(s) => Some([c] + s)
    case None => None
  }

  function Unquote(source: string): Option<string>
  {
    if source == "" || source[0] != '"' then None else ReadString(source[1..])
  }

  /** Reading one escaped character gives that character back. */
  lemma ReadEscaped(c: char, rest: string)
    ensures ReadString(EscapeChar(c) + rest) == Prepend(c, ReadString(rest))
  {
    var e := EscapeChar(c);
    var t := e + rest;
    assert t[|e|..] == rest;
    assert forall i :: 0 <= i < |e| ==> t[i] == e[i];
    if |e| == 6 {
      var high, low := HexDigit(c as int / 16), HexDigit(c as int % 16);
      assert e[2] == '0' && e[3] == '0' && e[4] == high && e[5] == low;
      assert |t[2..6]| == 4 && t[2..6][0] == '0' && t[2..6][1] == '0' && t[2..6][2] == high && t[2..6][3] == low;
    }
  }

  lemma {:induction false} ReadEscapedAll(s: string)
    ensures ReadString(EscapeAll(s) + "\"") == Some(s)
  {
    if s == "" {
      assert EscapeAll(s) + "\"" == "\"";
    } else {
      ReadEscapedAll(s[1..]);
      ReadEscaped(s[0], EscapeAll(s[1..]) + "\"");
      assert EscapeAll(s) + "\"" == EscapeChar(s[0]) + (EscapeAll(s[1..]) + "\"");
      assert [s[0]] + s[1..] == s;
    }
  }

  /** `JSON.parse(JSON.stringify(s))` is `s`, whatever `s` holds. */
  lemma QuoteRoundTrip(s: string)
    ensures Unquote(Quote(s)) == Some(s)
  {
    ReadEscapedAll(s);
    assert Quote(s)[1..] == EscapeAll(s) + "\"";
  }
}
