/**
 * The body of the 502 answer: `JSON.stringify({ error: "Proxy Error: " + message })`.
 * `Quote` is the string quoting of JSON.stringify (section 25.5.2.3 of
 * ECMA-262, QuoteJSONString) without the surrounding quotes; `Unquote` reads
 * such text back as a JSON parser does (section 7 of RFC 8259).
 */
module Json {
  import opened Wrappers
  import opened Text

  function HexDigit(n: nat): (c: char)
    requires n < 16
  {
    if n < 10 then ('0' as int + n) as char else ('a' as int + n - 10) as char
  }

  function HexValue(c: char): (r: Option<nat>)
    ensures r.Some? ==> r.value < 16
  {
    if '0' <= c <= '9' then Some(c as int - '0' as int)
    else if 'a' <= c <= 'f' then Some(c as int - 'a' as int + 10)
    else if 'A' <= c <= 'F' then Some(c as int - 'A' as int + 10)
    else None
  }

  lemma HexValueOfDigit(n: nat)
    requires n < 16
    ensures HexValue(HexDigit(n)) == Some(n)
  {
  }

  /** The value of four hexadecimal digits, as in `\uXXXX`. */
  function Hex4(s: string): (r: Option<nat>)
    requires |s| == 4
    ensures r.Some? ==> r.value < 0x1_0000
  {
    match (HexValue(s[0]), HexValue(s[1]), HexValue(s[2]), HexValue(s[3]))
    case (Some(a), Some(b), Some(c), Some(d)) => Some(((a * 16 + b) * 16 + c) * 16 + d)
    case _ => None
  }

  /** The text JSON.stringify writes for one character of a string. */
  function Escape(c: char): (r: string)
    ensures |r| > 0 && (r[0] == '\\' <==> c == '"' || c == '\\' || c < ' ')
    ensures !(c == '"' || c == '\\' || c < ' ') ==> r == [c]
    ensures forall k :: 0 <= k < |r| ==> ' ' <= r[k]
    ensures forall k :: 0 <= k < |r| && r[k] == '"' ==> r == "\\\""
  {
    if c == '"' then "\\\""
    else if c == '\\' then "\\\\"
    else if c == '\U{8}' then "\\b"
    else if c == '\t' then "\\t"
    else if c == '\n' then "\\n"
    else if c == '\U{C}' then "\\f"
    else if c == '\r' then "\\r"
    else if c < ' ' then "\\u00" + [HexDigit(c as int / 16), HexDigit(c as int % 16)]
    else [c]
  }

  /**
   * A string quoted as JSON.stringify quotes it, without the outer quotes: the
   * result holds no control character and no double quote that is not escaped,
   * so it can stand between two double quotes.
   */
  function Quote(s: string): (r: string)
    ensures forall k :: 0 <= k < |r| ==> ' ' <= r[k]
    ensures forall k :: 0 <= k < |r| && r[k] == '"' ==> k > 0 && r[k - 1] == '\\'
  {
    if s == [] then [] else Escape(s[0]) + Quote(s[1..])
  }

  /** The character that a one-letter escape `\e` stands for. */
  function Unescape(e: char): Option<char>
  {
    if e == '"' then Some('"')
    else if e == '\\' then Some('\\')
    else if e == '/' then Some('/')
    else if e == 'b' then Some('\U{8}')
    else if e == 'f' then Some('\U{C}')
    else if e == 'n' then Some('\n')
    else if e == 'r' then Some('\r')
    else if e == 't' then Some('\t')
    else None
  }

  function Prepend(c: char, rest: Option<string>): Option<string>
  {
    match rest
    case None => None
    case Some(t) => Some([c] + t)
  }

  /**
   * The characters that the inside of a JSON string literal stands for, or
   * None when it is not well formed: a raw double quote or control character,
   * an unknown escape, or a `\u` escape of a surrogate (even one of a
   * valid pair: only the escapes `Quote` writes are read here).
   */
  function Unquote(s: string): Option<string>
    decreases |s|
  {
    if s == [] then Some([])
    else if s[0] == '\\' then
      if |s| < 2 then None
      else if s[1] == 'u' then
        if |s| < 6 then None
        else match Hex4(s[2..6])
          case None => None
          case Some(v) => if 0xD800 <= v < 0xE000 then None else Prepend(v as char, Unquote(s[6..]))
      else match Unescape(s[1])
        case None => None
        case Some(c) => Prepend(c, Unquote(s[2..]))
    else if s[0] == '"' || s[0] < ' ' then None
    else Prepend(s[0], Unquote(s[1..]))
  }

  lemma UnquoteControl(c: char, t: string)
    requires c < ' ' && c != '\U{8}' && c != '\t' && c != '\n' && c != '\U{C}' && c != '\r'
    ensures Unquote(Escape(c) + t) == Prepend(c, Unquote(t))
  {
    var hi, lo := c as int / 16, c as int % 16;
    var s := Escape(c) + t;
    assert Escape(c) == "\\u00" + [HexDigit(hi), HexDigit(lo)];
    assert s[2..6] == ['0', '0', HexDigit(hi), HexDigit(lo)];
    HexValueOfDigit(hi);
    HexValueOfDigit(lo);
    assert Hex4(s[2..6]) == Some(c as int);
    assert s[6..] == t;
  }

  /** Reading back the escape of one character yields that character. */
  lemma UnquoteEscape(c: char, t: string)
    ensures Unquote(Escape(c) + t) == Prepend(c, Unquote(t))
  {
    var s := Escape(c) + t;
    if c < ' ' && c != '\U{8}' && c != '\t' && c != '\n' && c != '\U{C}' && c != '\r' {
      UnquoteControl(c, t);
    } else if |Escape(c)| == 1 {
      assert s[0] == c && s[1..] == t;
    } else {
      assert |Escape(c)| == 2 && s[1] == Escape(c)[1] && s[2..] == t;
    }
  }

  /** JSON.stringify's quoting loses nothing: a JSON parser reads back the original string. */
  lemma {:induction false} UnquoteQuote(s: string)
    ensures Unquote(Quote(s)) == Some(s)
  {
    if s != [] {
      UnquoteEscape(s[0], Quote(s[1..]));
      UnquoteQuote(s[1..]);
      assert [s[0]] + s[1..] == s;
    }
  }

  const ErrorPrefix := "Proxy Error: "

  const PayloadOpen := "{\"error\":\""

  const PayloadClose := "\"}"

  /** `JSON.stringify({ error: `Proxy Error: ${message}` })`. */
  function ErrorPayload(message: string): string
  {
    PayloadOpen + Quote(ErrorPrefix + message) + PayloadClose
  }

  /** The `error` member of a payload shaped as `ErrorPayload` writes it. */
  function ParseErrorPayload(p: string): Option<string>
  {
    if |p| >= |PayloadOpen| + |PayloadClose| && p[..|PayloadOpen|] == PayloadOpen
       && p[|p| - |PayloadClose|..] == PayloadClose
    then Unquote(p[|PayloadOpen|..|p| - |PayloadClose|])
    else None
  }

  /** A client parsing the 502 body finds "Proxy Error: " followed by the error's message. */
  lemma ErrorPayloadRoundTrip(message: string)
    ensures ParseErrorPayload(ErrorPayload(message)) == Some(ErrorPrefix + message)
  {
    var q := Quote(ErrorPrefix + message);
    var p := ErrorPayload(message);
    assert p[..|PayloadOpen|] == PayloadOpen;
    assert p[|p| - |PayloadClose|..] == PayloadClose;
    assert p[|PayloadOpen|..|p| - |PayloadClose|] == q;
    UnquoteQuote(ErrorPrefix + message);
  }
}
