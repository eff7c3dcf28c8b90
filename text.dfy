/** The JavaScript string operations the components rely on (`startsWith`,
    `includes`, `trim`, `toLowerCase`, number-to-decimal conversion, `join`
    and `split`), restated over `seq<char>`. */
module Text {

  /** `s.startsWith(p)` */
  predicate StartsWith(s: string, p: string) {
    |p| <= |s| && s[..|p|] == p
  }

  /** `s.includes(sub)`, computed by trying every start position in turn. */
  predicate Contains(s: string, sub: string)
    decreases |s|
  {
    StartsWith(s, sub) || (|s| > 0 && Contains(s[1..], sub))
  }

  /** The declarative reading of `includes`: `sub` is a slice of `s`. */
  ghost predicate Occurs(s: string, sub: string) {
    exists i :: OccursAt(s, sub, i)
  }

  ghost predicate OccursAt(s: string, sub: string, i: int) {
    0 <= i <= |s| - |sub| && s[i..i + |sub|] == sub
  }

  lemma {:induction false} ContainsIsOccurs(s: string, sub: string)
    ensures Contains(s, sub) <==> Occurs(s, sub)
    decreases |s|
  {
    if StartsWith(s, sub) {
      assert OccursAt(s, sub, 0);
    } else if |s| > 0 {
      ContainsIsOccurs(s[1..], sub);
      if Occurs(s[1..], sub) {
        var i :| OccursAt(s[1..], sub, i);
        assert s[i + 1..i + 1 + |sub|] == s[1..][i..i + |sub|];
        assert OccursAt(s, sub, i + 1);
      }
      if Occurs(s, sub) {
        var i :| OccursAt(s, sub, i);
        assert i != 0;
        assert s[1..][i - 1..i - 1 + |sub|] == s[i..i + |sub|];
        assert OccursAt(s[1..], sub, i - 1);
      }
    }
  }

  /** A string lacking one of `sub`'s characters does not include `sub`. */
  lemma ContainsNeedsChar(s: string, sub: string, c: char)
    requires c in sub && c !in s
    ensures !Contains(s, sub)
  {
    ContainsIsOccurs(s, sub);
  }

  /** The empty string is included in every string. */
  lemma {:induction false} ContainsEmpty(s: string)
    ensures Contains(s, "")
  {
    assert StartsWith(s, "");
  }

  /** Every string includes itself. */
  lemma {:induction false} ContainsSelf(s: string)
    ensures Contains(s, s)
  {
    assert StartsWith(s, s);
  }

  /** The characters `String.prototype.trim` removes: the ECMAScript
      WhiteSpace and LineTerminator code points. */
  predicate IsWhitespace(c: char) {
    c in {'\t', '\n', '\U{000B}', '\U{000C}', '\r', ' ', '\U{00A0}', '\U{1680}',
          '\U{2000}', '\U{2001}', '\U{2002}', '\U{2003}', '\U{2004}', '\U{2005}',
          '\U{2006}', '\U{2007}', '\U{2008}', '\U{2009}', '\U{200A}', '\U{2028}',
          '\U{2029}', '\U{202F}', '\U{205F}', '\U{3000}', '\U{FEFF}'}
  }

  /** Drops leading whitespace: the result is a suffix of `s`, everything
      dropped is whitespace, and the result does not start with whitespace. */
  function TrimStart(s: string): (r: string)
    ensures |r| <= |s| && r == s[|s| - |r|..]
    ensures forall k :: 0 <= k < |s| - |r| ==> IsWhitespace(s[k])
    ensures r == "" || !IsWhitespace(r[0])
    decreases |s|
  {
    if s != "" && IsWhitespace(s[0]) then TrimStart(s[1..]) else s
  }

  /** Drops trailing whitespace: the result is a prefix of `s`, everything
      dropped is whitespace, and the result does not end with whitespace. */
  function TrimEnd(s: string): (r: string)
    ensures |r| <= |s| && r == s[..|r|]
    ensures forall k :: |r| <= k < |s| ==> IsWhitespace(s[k])
    ensures r == "" || !IsWhitespace(r[|r| - 1])
    decreases |s|
  {
    if s != "" && IsWhitespace(s[|s| - 1]) then TrimEnd(s[..|s| - 1]) else s
  }

  /** `s.trim()`: whitespace dropped at both ends. */
  function Trim(s: string): string
  {
    TrimEnd(TrimStart(s))
  }

  /** Text made of whitespace only (the empty text included). */
  predicate Blank(s: string) {
    forall k :: 0 <= k < |s| ==> IsWhitespace(s[k])
  }

  /** Trimming gives the empty string exactly for blank text, and otherwise
      text that neither starts nor ends with whitespace. */
  lemma TrimBlank(s: string)
    ensures Trim(s) == "" <==> Blank(s)
    ensures Trim(s) != "" ==> !IsWhitespace(Trim(s)[0]) && !IsWhitespace(Trim(s)[|Trim(s)| - 1])
  {
  }

  /** A string that neither starts nor ends with whitespace is its own trim. */
  lemma TrimKeepsTrimmed(s: string)
    requires s != "" && !IsWhitespace(s[0]) && !IsWhitespace(s[|s| - 1])
    ensures Trim(s) == s
  {
  }

  /** Trimming twice is trimming once. */
  lemma TrimIdempotent(s: string)
    ensures Trim(Trim(s)) == Trim(s)
  {
    if Trim(s) != "" {
      TrimKeepsTrimmed(Trim(s));
    }
  }

  /** `toLowerCase` on one character. The model maps the upper-case letters of
      ASCII, of Latin-1, the even/odd pairs of Latin Extended-A, O and U with
      horn, and the Vietnamese block U+1EA0..U+1EFF; every other character is
      left unchanged. */
  function LowerChar(c: char): (l: char)
    ensures l != c ==> l as int == c as int + 32 || l as int == c as int + 1
  {
    if 'A' <= c <= 'Z' then (c as int + 32) as char
    else if '\U{00C0}' <= c <= '\U{00DE}' && c != '\U{00D7}' then (c as int + 32) as char
    else if ('\U{0100}' <= c <= '\U{012F}' || '\U{014A}' <= c <= '\U{0177}' || '\U{1EA0}' <= c <= '\U{1EFF}')
            && c as int % 2 == 0 then (c as int + 1) as char
    else if c == '\U{01A0}' || c == '\U{01AF}' then (c as int + 1) as char
    else c
  }

  /** `s.toLowerCase()`, character by character. */
  function Lower(s: string): (r: string)
    ensures |r| == |s| && forall i :: 0 <= i < |s| ==> r[i] == LowerChar(s[i])
  {
    seq(|s|, i requires 0 <= i < |s| => LowerChar(s[i]))
  }

  /** Lower-casing twice is lower-casing once. */
  lemma LowerIdempotent(s: string)
    ensures Lower(Lower(s)) == Lower(s)
  {
  }

  /** The capital D with stroke (the first letter of the Vietnamese menu
      categories) is never the result of lower-casing. */
  lemma LowerNeverCapitalDStroke(s: string)
    ensures forall i :: 0 <= i < |s| ==> Lower(s)[i] != '\U{0110}'
  {
  }

  predicate IsDigit(c: char) {
    '0' <= c <= '9'
  }

  function DigitChar(d: nat): (c: char)
    requires d < 10
    ensures IsDigit(c) && c as int - '0' as int == d
  {
    ('0' as int + d) as char
  }

  predicate AllDigits(s: string) {
    forall i :: 0 <= i < |s| ==> IsDigit(s[i])
  }

  /** The value of a string of decimal digits, read most significant first. */
  function DecimalValue(s: string): nat
    requires AllDigits(s)
  {
    if s == "" then 0
    else DecimalValue(s[..|s| - 1]) * 10 + (s[|s| - 1] as int - '0' as int)
  }

  /** The decimal rendering of a natural number (what `${n}` produces). */
  function NatToString(n: nat): string
  {
    if n < 10 then [DigitChar(n)] else NatToString(n / 10) + [DigitChar(n % 10)]
  }

  /** The decimal rendering of an integer, with a leading '-' when negative. */
  function IntToString(n: int): (s: string)
    ensures s != "" && ',' !in s
  {
    NatToStringProperties(if n < 0 then -n else n);
    if n < 0 then "-" + NatToString(-n) else NatToString(n)
  }

  /** The decimal rendering is a non-empty digit string without a superfluous
      leading zero, and it reads back as the number it renders. */
  lemma {:induction false} NatToStringProperties(n: nat)
    ensures NatToString(n) != "" && AllDigits(NatToString(n))
    ensures DecimalValue(NatToString(n)) == n
    ensures NatToString(n)[0] == '0' ==> n == 0
  {
    if n >= 10 {
      NatToStringProperties(n / 10);
      var s := NatToString(n);
      assert s[..|s| - 1] == NatToString(n / 10);
    }
  }

  /** Distinct natural numbers have distinct renderings. */
  lemma NatToStringInjective(m: nat, n: nat)
    requires NatToString(m) == NatToString(n)
    ensures m == n
  {
    NatToStringProperties(m);
    NatToStringProperties(n);
  }

  /** Distinct integers have distinct renderings. */
  lemma IntToStringInjective(m: int, n: int)
    requires IntToString(m) == IntToString(n)
    ensures m == n
  {
    NatToStringProperties(if m < 0 then -m else m);
    NatToStringProperties(if n < 0 then -n else n);
    if m < 0 && n < 0 {
      assert NatToString(-m) == IntToString(m)[1..];
      assert NatToString(-n) == IntToString(n)[1..];
      NatToStringInjective(-m, -n);
    } else if m >= 0 && n >= 0 {
      NatToStringInjective(m, n);
    }
  }

  /** A leading zero does not change a digit string's value. */
  lemma {:induction false} DecimalLeadingZero(t: string)
    requires AllDigits(t)
    ensures AllDigits("0" + t) && DecimalValue("0" + t) == DecimalValue(t)
    decreases |t|
  {
    var z := "0" + t;
    if t == "" {
      assert z[..0] == "";
    } else {
      assert z[..|z| - 1] == "0" + t[..|t| - 1];
      DecimalLeadingZero(t[..|t| - 1]);
    }
  }

  /** `s.padStart(width, fill)` for a one-character fill: `fill` is put in
      front until the text is `width` long; longer text is left alone. */
  function PadStart(s: string, width: nat, fill: char): (r: string)
    ensures |r| == if |s| >= width then |s| else width
    ensures r[|r| - |s|..] == s
    ensures forall k :: 0 <= k < |r| - |s| ==> r[k] == fill
  {
    if |s| >= width then s
    else
      var pad := seq(width - |s|, _ => fill);
      assert (pad + s)[|pad|..] == s;
      pad + s
  }

  /** `parts.join(sep)` */
  function Join(parts: seq<string>, sep: char): string
  {
    if |parts| == 0 then ""
    else if |parts| == 1 then parts[0]
    else parts[0] + [sep] + Join(parts[1..], sep)
  }

  /** `s.split(sep)` for a one-character separator; like JavaScript it yields
      at least one piece. */
  function Split(s: string, sep: char): (r: seq<string>)
    ensures |r| >= 1
  {
    if s == "" then [""]
    else
      var rest := Split(s[1..], sep);
      if s[0] == sep then [""] + rest else [[s[0]] + rest[0]] + rest[1..]
  }

  lemma {:induction false} SplitWordPrefix(w: string, sep: char, tail: string)
    requires sep !in w
    ensures Split(w + tail, sep) == [w + Split(tail, sep)[0]] + Split(tail, sep)[1..]
    decreases |w|
  {
    if w != "" {
      SplitWordPrefix(w[1..], sep, tail);
      assert (w + tail)[1..] == w[1..] + tail;
      assert [w[0]] + (w[1..] + Split(tail, sep)[0]) == w + Split(tail, sep)[0];
    } else {
      var r := Split(tail, sep);
      assert w + tail == tail;
      assert w + r[0] == r[0];
      assert r == [r[0]] + r[1..];
    }
  }

  /** Joining pieces that do not contain the separator, then splitting, gives
      the pieces back: the joined text is unambiguous. */
  lemma {:induction false} SplitJoin(parts: seq<string>, sep: char)
    requires |parts| >= 1
    requires forall i :: 0 <= i < |parts| ==> sep !in parts[i]
    ensures Split(Join(parts, sep), sep) == parts
  {
    if |parts| == 1 {
      SplitWordPrefix(parts[0], sep, "");
      assert parts[0] + "" == parts[0];
    } else {
      SplitJoin(parts[1..], sep);
      SplitAtSeparator(parts[0], sep, Join(parts[1..], sep));
      assert parts == [parts[0]] + parts[1..];
    }
  }

  /** A piece without the separator, then the separator: the piece comes
      off as the first part. */
  lemma SplitAtSeparator(w: string, sep: char, rest: string)
    requires sep !in w
    ensures Split(w + [sep] + rest, sep) == [w] + Split(rest, sep)
  {
    var t := [sep] + rest;
    SplitWordPrefix(w, sep, t);
    assert t[1..] == rest;
    assert Split(t, sep) == [""] + Split(rest, sep);
    assert w + [sep] + rest == w + t;
    assert w + "" == w;
  }

  // ---- Sequences --------------------------------------------------------

  /** `a` is `b` with some elements deleted and the rest in their order. */
  predicate IsSubsequence<T(==)>(a: seq<T>, b: seq<T>)
    decreases |b|
  {
    a == [] || (b != [] && if a[0] == b[0] then IsSubsequence(a[1..], b[1..]) else IsSubsequence(a, b[1..]))
  }
}
