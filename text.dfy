/**
 * The JavaScript string operations the application relies on, over strings
 * modelled as sequences of Unicode scalar values: `trim`, `toLowerCase` /
 * `toUpperCase` (ASCII and Latin-1 letters), `split` / `join` on one
 * character, `startsWith`, `substr`, and the decimal rendering of a
 * non-negative integer (`String(Date.now())`).
 */
module Text {
  import opened Wrappers

  type String = seq<char>

  /** JavaScript truthiness of an optional string: present and not "". */
  predicate Truthy(o: Option<String>)
  {
    o.Some? && o.value != ""
  }

  /** `o || fallback` for an optional string. */
  function OrElse(o: Option<String>, fallback: String): (r: String)
    ensures Truthy(o) ==> r == o.value
    ensures !Truthy(o) ==> r == fallback
  {
    if Truthy(o) then o.value else fallback
  }

  // ---------------------------------------------------------------------------
  // trim

  /** The WhiteSpace and LineTerminator code points that `String.prototype.trim` removes. */
  predicate IsSpace(c: char)
  {
    || c == '\t' || c == '\n' || c == '\U{000B}' || c == '\U{000C}' || c == '\r' || c == ' '
    || c == '\U{00A0}' || c == '\U{1680}' || ('\U{2000}' <= c <= '\U{200A}')
    || c == '\U{2028}' || c == '\U{2029}' || c == '\U{202F}' || c == '\U{205F}'
    || c == '\U{3000}' || c == '\U{FEFF}'
  }

  predicate AllSpace(s: String)
  {
    forall i :: 0 <= i < |s| ==> IsSpace(s[i])
  }

  /** `s` with its leading white space removed. */
  function TrimStart(s: String): (r: String)
    ensures |r| <= |s|
    decreases |s|
  {
    if s != [] && IsSpace(s[0]) then TrimStart(s[1..]) else s
  }

  /** `s` with its trailing white space removed. */
  function TrimEnd(s: String): (r: String)
    ensures |r| <= |s|
    decreases |s|
  {
    if s != [] && IsSpace(s[|s| - 1]) then TrimEnd(s[..|s| - 1]) else s
  }

  /** `TrimStart` keeps a suffix of `s` that does not start with white space, and cuts off only white space. */
  lemma {:induction false} TrimStartSpec(s: String)
    ensures |TrimStart(s)| <= |s| && TrimStart(s) == s[|s| - |TrimStart(s)|..]
    ensures TrimStart(s) == [] || !IsSpace(TrimStart(s)[0])
    ensures forall i :: 0 <= i < |s| - |TrimStart(s)| ==> IsSpace(s[i])
    decreases |s|
  {
    if s != [] && IsSpace(s[0]) {
      TrimStartSpec(s[1..]);
      assert s[1..][|s| - 1 - |TrimStart(s)|..] == s[|s| - |TrimStart(s)|..];
      forall i | 1 <= i < |s| - |TrimStart(s)| ensures IsSpace(s[i]) {
        assert s[i] == s[1..][i - 1];
      }
    }
  }

  /** `TrimEnd` keeps a prefix of `s` that does not end with white space, and cuts off only white space. */
  lemma {:induction false} TrimEndSpec(s: String)
    ensures |TrimEnd(s)| <= |s| && TrimEnd(s) == s[..|TrimEnd(s)|]
    ensures TrimEnd(s) == [] || !IsSpace(TrimEnd(s)[|TrimEnd(s)| - 1])
    ensures forall i :: |TrimEnd(s)| <= i < |s| ==> IsSpace(s[i])
    decreases |s|
  {
    if s != [] && IsSpace(s[|s| - 1]) {
      TrimEndSpec(s[..|s| - 1]);
      assert s[..|s| - 1][..|TrimEnd(s)|] == s[..|TrimEnd(s)|];
      forall i | |TrimEnd(s)| <= i < |s| - 1 ensures IsSpace(s[i]) {
        assert s[i] == s[..|s| - 1][i];
      }
    }
  }

  /** `s.trim()`. */
  function Trim(s: String): (r: String)
  {
    TrimEnd(TrimStart(s))
  }

  /** Trimming leaves an infix of `s`, and only white space is cut off on either side. */
  lemma TrimInfix(s: String)
    ensures var a := |s| - |TrimStart(s)|;
      && a + |Trim(s)| <= |s| && Trim(s) == s[a..a + |Trim(s)|]
      && (forall i :: 0 <= i < a ==> IsSpace(s[i]))
      && (forall i :: a + |Trim(s)| <= i < |s| ==> IsSpace(s[i]))
  {
    var t := TrimStart(s);
    var r := TrimEnd(t);
    var a := |s| - |t|;
    TrimStartSpec(s);
    TrimEndSpec(t);
    PrefixOfSuffix(s, a, |r|);
    forall i | a + |r| <= i < |s| ensures IsSpace(s[i]) {
      assert s[i] == t[i - a];
    }
  }

  lemma PrefixOfSuffix(s: String, a: nat, n: nat)
    requires a + n <= |s|
    ensures s[a..][..n] == s[a..a + n]
  {
  }

  /** A trimmed string neither starts nor ends with white space. */
  lemma TrimEnds(s: String)
    ensures Trim(s) == [] || (!IsSpace(Trim(s)[0]) && !IsSpace(Trim(s)[|Trim(s)| - 1]))
  {
    var t := TrimStart(s);
    var r := TrimEnd(t);
    TrimStartSpec(s);
    TrimEndSpec(t);
    if r != [] {
      assert r[0] == t[0];
    }
  }

  /** A string trims to "" exactly when it is empty or white space only. */
  lemma TrimEmptyIff(s: String)
    ensures Trim(s) == [] <==> AllSpace(s)
  {
    var t := TrimStart(s);
    TrimStartSpec(s);
    TrimEndSpec(t);
  }

  /** `trim` is idempotent. */
  lemma TrimIdempotent(s: String)
    ensures Trim(Trim(s)) == Trim(s)
  {
    TrimEnds(s);
  }

  // ---------------------------------------------------------------------------
  // Case mapping (ASCII and the Latin-1 letters)

  predicate IsUpperLetter(c: char)
  {
    ('A' <= c <= 'Z') || ('\U{00C0}' <= c <= '\U{00DE}' && c != '\U{00D7}')
  }

  predicate IsLowerLetter(c: char)
  {
    ('a' <= c <= 'z') || ('\U{00E0}' <= c <= '\U{00FE}' && c != '\U{00F7}')
  }

  /** One character of `toLowerCase`: upper-case letters move to their lower-case partner, the rest stay. */
  function LowerChar(c: char): (r: char)
    ensures !IsUpperLetter(r)
    ensures IsUpperLetter(c) ==> IsLowerLetter(r)
    ensures !IsUpperLetter(c) ==> r == c
  {
    if IsUpperLetter(c) then (c as int + 32) as char else c
  }

  /** One character of `toUpperCase`: lower-case letters move to their upper-case partner, the rest stay. */
  function UpperChar(c: char): (r: char)
    ensures !IsLowerLetter(r)
    ensures IsLowerLetter(c) ==> IsUpperLetter(r) && LowerChar(r) == c
    ensures !IsLowerLetter(c) ==> r == c
  {
    if IsLowerLetter(c) then (c as int - 32) as char else c
  }

  /** `s.toLowerCase()`. */
  function Lower(s: String): (r: String)
    ensures |r| == |s|
    ensures forall i :: 0 <= i < |s| ==> r[i] == LowerChar(s[i])
  {
    seq(|s|, i requires 0 <= i < |s| => LowerChar(s[i]))
  }

  /** `s.toUpperCase()`. */
  function Upper(s: String): (r: String)
    ensures |r| == |s|
    ensures forall i :: 0 <= i < |s| ==> r[i] == UpperChar(s[i])
  {
    seq(|s|, i requires 0 <= i < |s| => UpperChar(s[i]))
  }

  lemma LowerIdempotent(s: String)
    ensures Lower(Lower(s)) == Lower(s)
  {
  }

  lemma LowerAppend(a: String, b: String)
    ensures Lower(a + b) == Lower(a) + Lower(b)
  {
  }

  // ---------------------------------------------------------------------------
  // split / join on one separator character

  /**
   * `s.split(d)` for a one-character separator: the pieces between the
   * occurrences of `d`, so there is always at least one piece and no piece
   * contains `d`. The first piece is the longest prefix of `s` without `d`.
   */
  function Split(s: String, d: char): (r: seq<String>)
    ensures |r| >= 1
    ensures forall k :: 0 <= k < |r| ==> d !in r[k]
    ensures |r[0]| <= |s| && r[0] == s[..|r[0]|]
    ensures |r[0]| < |s| ==> s[|r[0]|] == d
    decreases |s|
  {
    if s == [] then [[]]
    else
      var rest := Split(s[1..], d);
      if s[0] == d then [[]] + rest else [[s[0]] + rest[0]] + rest[1..]
  }

  /** `ws.join(d)`. */
  function Join(ws: seq<String>, d: char): String
    decreases |ws|
  {
    if |ws| == 0 then [] else if |ws| == 1 then ws[0] else ws[0] + [d] + Join(ws[1..], d)
  }

  /** Joining the pieces of a split gives back the string. */
  lemma {:induction false} JoinSplit(s: String, d: char)
    ensures Join(Split(s, d), d) == s
    decreases |s|
  {
    if s != [] {
      var rest := Split(s[1..], d);
      JoinSplit(s[1..], d);
      if s[0] == d {
        assert ([[]] + rest)[1..] == rest;
      } else if |rest| > 1 {
        var ws := [[s[0]] + rest[0]] + rest[1..];
        assert ws[1..] == rest[1..];
        assert Join(rest, d) == rest[0] + [d] + Join(rest[1..], d);
      }
    }
  }

  /** A piece without `d` is one whole piece of the split. */
  lemma {:induction false} SplitSingle(w: String, d: char)
    requires d !in w
    ensures Split(w, d) == [w]
    decreases |w|
  {
    if w != [] {
      SplitSingle(w[1..], d);
      assert [w[0]] + w[1..] == w;
    }
  }

  /** Splitting `w + [d] + t` with `d` not in `w` yields `w` and then the pieces of `t`. */
  lemma {:induction false} SplitCons(w: String, t: String, d: char)
    requires d !in w
    ensures Split(w + [d] + t, d) == [w] + Split(t, d)
    decreases |w|
  {
    var s := w + [d] + t;
    if w == [] {
      assert s[1..] == t;
    } else {
      assert s[1..] == w[1..] + [d] + t;
      SplitCons(w[1..], t, d);
      assert [w[0]] + w[1..] == w;
    }
  }

  /** Splitting a join of pieces that do not contain `d` gives the pieces back. */
  lemma {:induction false} SplitJoin(ws: seq<String>, d: char)
    requires |ws| >= 1
    requires forall k :: 0 <= k < |ws| ==> d !in ws[k]
    ensures Split(Join(ws, d), d) == ws
    decreases |ws|
  {
    if |ws| == 1 {
      SplitSingle(ws[0], d);
    } else {
      SplitJoin(ws[1..], d);
      SplitCons(ws[0], Join(ws[1..], d), d);
      assert [ws[0]] + ws[1..] == ws;
    }
  }

  /** `s.split(d)[0]`: the text before the first `d`, or all of `s` when it has none. */
  function FirstPart(s: String, d: char): (r: String)
  {
    Split(s, d)[0]
  }

  /** The first piece of `w + [d] + t` is `w` whenever `w` has no `d`. */
  lemma FirstPartOf(w: String, t: String, d: char)
    requires d !in w
    ensures FirstPart(w + [d] + t, d) == w
  {
    SplitCons(w, t, d);
  }

  /** `FirstPart` is the longest prefix of `s` that does not contain `d`. */
  lemma FirstPartSpec(s: String, d: char)
    ensures var r := FirstPart(s, d);
      && s[..|r|] == r && d !in r
      && (|r| == |s| || s[|r|] == d)
  {
  }

  // ---------------------------------------------------------------------------
  // Prefixes, substrings and numbers

  predicate StartsWith(s: String, p: String)
  {
    |p| <= |s| && s[..|p|] == p
  }

  /** `s.substr(start, len)` for non-negative arguments. */
  function Substr(s: String, start: nat, len: nat): (r: String)
    ensures |r| <= len
    ensures start <= |s| ==> start + |r| <= |s| && r == s[start..start + |r|]
    ensures start + len <= |s| ==> |r| == len
    ensures start <= |s| ==> r == s[start..if start + len <= |s| then start + len else |s|]
    ensures start >= |s| ==> r == []
  {
    var a := if start < |s| then start else |s|;
    var b := if start + len < |s| then start + len else |s|;
    s[a..b]
  }

  predicate IsDigit(c: char)
  {
    '0' <= c <= '9'
  }

  function DigitChar(n: nat): (c: char)
    requires n < 10
    ensures IsDigit(c)
  {
    ('0' as int + n) as char
  }

  /** `String(n)` for a non-negative integer: its decimal digits, with no leading zero. */
  function Decimal(n: nat): (r: String)
    ensures |r| >= 1
    ensures forall i :: 0 <= i < |r| ==> IsDigit(r[i])
    ensures r[0] == '0' ==> n == 0
    decreases n
  {
    if n < 10 then [DigitChar(n)] else Decimal(n / 10) + [DigitChar(n % 10)]
  }

  /** The number a string of decimal digits denotes. */
  function DecimalValue(s: String): nat
    requires forall i :: 0 <= i < |s| ==> IsDigit(s[i])
    decreases |s|
  {
    if s == [] then 0
    else
      var last := s[|s| - 1];
      assert IsDigit(last);
      DecimalValue(s[..|s| - 1]) * 10 + (last as int - '0' as int)
  }

  /** Rendering a number in decimal and reading it back gives the number. */
  lemma {:induction false} DecimalRoundTrip(n: nat)
    ensures DecimalValue(Decimal(n)) == n
    decreases n
  {
    if n >= 10 {
      DecimalRoundTrip(n / 10);
      var s := Decimal(n);
      assert s[..|s| - 1] == Decimal(n / 10);
    }
  }
}
