/**
 * The part of `JSON.stringify` the client uses: a string-valued object
 * (`selected_backgrounds`) serialised as `{"key":"value",...}` with each
 * string written as a JSON string literal, as ECMA-262 section 25.5.2.3
 * (QuoteJSONString) writes it, and the JSON string-literal decoding that
 * reads such a literal back.
 */
module Json {
  import opened Wrappers
  import opened Text

  /** Lower-case hexadecimal digit, as `QuoteJSONString` writes `\u00XX`. */
  function HexDigit(n: nat): (c: char)
    requires n < 16
  {
    if n < 10 then DigitChar(n) else ('a' as int + n - 10) as char
  }

  /** The value of a hexadecimal digit of either case. */
  function HexValue(c: char): (r: Option<nat>)
    ensures r.Some? ==> r.value < 16
  {
    if '0' <= c <= '9' then Some(c as int - '0' as int)
    else if 'a' <= c <= 'f' then Some(c as int - 'a' as int + 10)
    else if 'A' <= c <= 'F' then Some(c as int - 'A' as int + 10)
    else None
  }

  lemma HexDigitValue(n: nat)
    requires n < 16
    ensures HexValue(HexDigit(n)) == Some(n)
  {
  }

  /** How `JSON.stringify` writes one character inside a string literal. */
  function EscapeChar(c: char): String
  {
    if c == '"' then ['\\', '"']
    else if c == '\\' then ['\\', '\\']
    else if c == '\U{0008}' then ['\\', 'b']
    else if c == '\t' then ['\\', 't']
    else if c == '\n' then ['\\', 'n']
    else if c == '\U{000C}' then ['\\', 'f']
    else if c == '\r' then ['\\', 'r']
    else if c < ' ' then ['\\', 'u', '0', '0', HexDigit(c as int / 16), HexDigit(c as int % 16)]
    else [c]
  }

  /** The characters between the quotes of a string literal. */
  function EscapeBody(s: String): String
    decreases |s|
  {
    if s == [] then [] else EscapeChar(s[0]) + EscapeBody(s[1..])
  }

  /** `JSON.stringify(s)` for a string `s`. */
  function Quote(s: String): String
  {
    ['"'] + EscapeBody(s) + ['"']
  }

  /** The character a one-letter escape sequence `\x` stands for. */
  function SimpleEscape(c: char): Option<char>
  {
    if c == '"' then Some('"')
    else if c == '\\' then Some('\\')
    else if c == '/' then Some('/')
    else if c == 'b' then Some('\U{0008}')
    else if c == 'f' then Some('\U{000C}')
    else if c == 'n' then Some('\n')
    else if c == 'r' then Some('\r')
    else if c == 't' then Some('\t')
    else None
  }

  /** The value of the four hexadecimal digits `t[0..4]`. */
  function Hex4(t: String): (r: Option<nat>)
    requires |t| >= 4
    ensures r.Some? ==> r.value < 0x10000
  {
    match (HexValue(t[0]), HexValue(t[1]), HexValue(t[2]), HexValue(t[3]))
    case (Some(a), Some(b), Some(c), Some(d)) => Some(((a * 16 + b) * 16 + c) * 16 + d)
    case _ => None
  }

  /** A decoded character in front of a decoded literal, if the rest decoded. */
  function Prepend(c: char, rest: Option<(String, String)>): Option<(String, String)>
  {
    match rest
    case Some((d, after)) => Some(([c] + d, after))
    case None => None
  }

  /**
   * Reads the body of a JSON string literal up to its closing quote: the
   * decoded text and what follows the quote, or `None` when the quote is
   * missing or the body holds a control character or a malformed escape.
   * Escapes of UTF-16 surrogates are refused (they denote no single character).
   */
  function ReadString(t: String): (r: Option<(String, String)>)
    ensures r.Some? ==> |r.value.1| < |t|
    decreases |t|
  {
    if t == [] then None
    else if t[0] == '"' then Some(([], t[1..]))
    else if t[0] == '\\' then
      if |t| >= 2 && SimpleEscape(t[1]).Some? then Prepend(SimpleEscape(t[1]).value, ReadString(t[2..]))
      else if |t| >= 6 && t[1] == 'u' && Hex4(t[2..6]).Some? then
        var v := Hex4(t[2..6]).value;
        if v < 0xD800 || 0xDFFF < v then Prepend(v as char, ReadString(t[6..])) else None
      else None
    else if t[0] < ' ' then None
    else Prepend(t[0], ReadString(t[1..]))
  }

  /** A one-letter escape `\e` reads as the character it stands for. */
  lemma ReadSimpleStep(c: char, e: char, rest: String)
    requires SimpleEscape(e) == Some(c)
    ensures ReadString(['\\', e] + rest) == Prepend(c, ReadString(rest))
  {
    var t := ['\\', e] + rest;
    assert t[0] == '\\' && t[1] == e && t[2..] == rest;
  }

  /** The `\u00XX` escape of a control character reads as that character. */
  lemma ReadControlStep(c: char, rest: String)
    requires c < ' ' && c != '\U{0008}' && c != '\t' && c != '\n' && c != '\U{000C}' && c != '\r'
    ensures ReadString(EscapeChar(c) + rest) == Prepend(c, ReadString(rest))
  {
    var hi, lo := c as int / 16, c as int % 16;
    var t := ['\\', 'u', '0', '0', HexDigit(hi), HexDigit(lo)] + rest;
    assert t[6..] == rest;
    HexDigitValue(hi);
    HexDigitValue(lo);
    assert t[2..6] == ['0', '0', HexDigit(hi), HexDigit(lo)];
    assert Hex4(t[2..6]) == Some(c as int);
    assert EscapeChar(c) + rest == t;
  }

  /** A character written as itself reads as itself. */
  lemma ReadPlainStep(c: char, rest: String)
    requires c >= ' ' && c != '"' && c != '\\'
    ensures ReadString([c] + rest) == Prepend(c, ReadString(rest))
  {
    assert ([c] + rest)[1..] == rest;
  }

  /** Reading the escape of one character, followed by anything, yields that character first. */
  lemma ReadStep(c: char, rest: String)
    ensures ReadString(EscapeChar(c) + rest) == Prepend(c, ReadString(rest))
  {
    if c == '"' {
      ReadSimpleStep(c, '"', rest);
    } else if c == '\\' {
      ReadSimpleStep(c, '\\', rest);
    } else if c == '\U{0008}' {
      ReadSimpleStep(c, 'b', rest);
    } else if c == '\t' {
      ReadSimpleStep(c, 't', rest);
    } else if c == '\n' {
      ReadSimpleStep(c, 'n', rest);
    } else if c == '\U{000C}' {
      ReadSimpleStep(c, 'f', rest);
    } else if c == '\r' {
      ReadSimpleStep(c, 'r', rest);
    } else if c < ' ' {
      ReadControlStep(c, rest);
    } else {
      ReadPlainStep(c, rest);
    }
  }

  /**
   * Escaping a string, closing the literal and reading it back gives the
   * string and exactly the text after the closing quote.
   */
  lemma {:induction false} ReadEscaped(s: String, rest: String)
    ensures ReadString(EscapeBody(s) + ['"'] + rest) == Some((s, rest))
    decreases |s|
  {
    if s == [] {
      assert EscapeBody(s) + ['"'] + rest == ['"'] + rest;
      assert (['"'] + rest)[1..] == rest;
    } else {
      ReadEscaped(s[1..], rest);
      ReadStep(s[0], EscapeBody(s[1..]) + ['"'] + rest);
      assert EscapeBody(s) + ['"'] + rest == EscapeChar(s[0]) + (EscapeBody(s[1..]) + ['"'] + rest);
      assert [s[0]] + s[1..] == s;
    }
  }

  /** The members `"k":"v"` of a string-valued object, separated by commas. */
  function Members(entries: seq<(String, String)>): String
    decreases |entries|
  {
    if |entries| == 0 then []
    else
      var member := Quote(entries[0].0) + [':'] + Quote(entries[0].1);
      if |entries| == 1 then member else member + [','] + Members(entries[1..])
  }

  /**
   * `JSON.stringify(obj)` for an object whose own properties, in order, are
   * the string-valued `entries`: always a braced text, and exactly `{}` for
   * the empty object.
   */
  function StringifyObject(entries: seq<(String, String)>): (r: String)
    ensures |r| >= 2 && r[0] == '{' && r[|r| - 1] == '}'
    ensures r == "{}" <==> entries == []
  {
    ['{'] + Members(entries) + ['}']
  }

  /** Reads one member `"k":"v"` and returns it with the text after it. */
  function ReadMember(t: String): (r: Option<((String, String), String)>)
    ensures r.Some? ==> |r.value.1| < |t|
  {
    if t == [] || t[0] != '"' then None
    else match ReadString(t[1..])
      case None => None
      case Some((k, afterKey)) =>
        if |afterKey| < 2 || afterKey[0] != ':' || afterKey[1] != '"' then None
        else match ReadString(afterKey[2..])
          case None => None
          case Some((v, after)) => Some(((k, v), after))
  }

  /** Reads comma-separated members up to the closing brace, which must end the text. */
  function ReadMembers(t: String): Option<seq<(String, String)>>
    decreases |t|
  {
    match ReadMember(t)
    case None => None
    case Some((m, after)) =>
      if after == ['}'] then Some([m])
      else if after != [] && after[0] == ',' then
        match ReadMembers(after[1..])
        case None => None
        case Some(ms) => Some([m] + ms)
      else None
  }

  /** Reads a JSON object whose values are all strings, as its members in text order. */
  function ParseObject(t: String): Option<seq<(String, String)>>
  {
    if t == ['{', '}'] then Some([])
    else if t != [] && t[0] == '{' then ReadMembers(t[1..])
    else None
  }

  /** A quoted string followed by more text: the opening quote, the body, the closing quote, the rest. */
  lemma QuoteThen(s: String, rest: String)
    ensures Quote(s) + rest == ['"'] + (EscapeBody(s) + ['"'] + rest)
  {
  }

  /** A member is read from its key literal, a colon, and its value literal. */
  lemma ReadMemberOf(t: String, k: String, afterKey: String, v: String, rest: String)
    requires t != [] && t[0] == '"' && ReadString(t[1..]) == Some((k, afterKey))
    requires |afterKey| >= 2 && afterKey[0] == ':' && afterKey[1] == '"'
    requires ReadString(afterKey[2..]) == Some((v, rest))
    ensures ReadMember(t) == Some(((k, v), rest))
  {
  }

  /** A member written by `JSON.stringify` reads back as that member. */
  lemma ReadQuotedMember(k: String, v: String, rest: String)
    ensures ReadMember(Quote(k) + [':'] + Quote(v) + rest) == Some(((k, v), rest))
  {
    var valueText := EscapeBody(v) + ['"'] + rest;
    var afterKey := [':', '"'] + valueText;
    QuoteThen(v, rest);
    assert [':'] + (Quote(v) + rest) == afterKey;
    var t := Quote(k) + afterKey;
    assert Quote(k) + [':'] + Quote(v) + rest == t;
    QuoteThen(k, afterKey);
    assert t[1..] == EscapeBody(k) + ['"'] + afterKey;
    ReadEscaped(k, afterKey);
    assert afterKey[2..] == valueText;
    ReadEscaped(v, rest);
    ReadMemberOf(t, k, afterKey, v, rest);
  }

  /** A member followed by a comma and further members reads as that member in front of them. */
  lemma ReadMembersCons(t: String, m: (String, String), u: String, ms: seq<(String, String)>)
    requires ReadMember(t) == Some((m, [','] + u)) && ReadMembers(u) == Some(ms)
    ensures ReadMembers(t) == Some([m] + ms)
  {
    assert ([','] + u)[1..] == u;
  }

  /** The text of two or more members, closed by a brace, is the first member, a comma and the rest. */
  lemma MembersCons(entries: seq<(String, String)>)
    requires |entries| >= 2
    ensures Members(entries) + ['}']
      == Quote(entries[0].0) + [':'] + Quote(entries[0].1) + ([','] + (Members(entries[1..]) + ['}']))
  {
  }

  /** The members of a non-empty object, closed by a brace, read back as the entries. */
  lemma {:induction false} ReadWrittenMembers(entries: seq<(String, String)>)
    requires entries != []
    ensures ReadMembers(Members(entries) + ['}']) == Some(entries)
    decreases |entries|
  {
    var k, v := entries[0].0, entries[0].1;
    if |entries| == 1 {
      ReadQuotedMember(k, v, ['}']);
      assert Members(entries) + ['}'] == Quote(k) + [':'] + Quote(v) + ['}'];
      assert [(k, v)] == entries;
    } else {
      var u := Members(entries[1..]) + ['}'];
      MembersCons(entries);
      ReadQuotedMember(k, v, [','] + u);
      ReadWrittenMembers(entries[1..]);
      ReadMembersCons(Members(entries) + ['}'], (k, v), u, entries[1..]);
      assert [(k, v)] + entries[1..] == entries;
    }
  }

  /** What `JSON.stringify` writes for a string-valued object parses back to the same members in order. */
  lemma ParseStringified(entries: seq<(String, String)>)
    ensures ParseObject(StringifyObject(entries)) == Some(entries)
  {
    if entries != [] {
      var body := Members(entries) + ['}'];
      var t := StringifyObject(entries);
      assert t == ['{'] + body;
      assert t[1..] == body;
      ReadWrittenMembers(entries);
    }
  }
}
