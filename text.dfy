/** Character and string operations of Python's `str` that the services rely on:
    `lower()`, `strip()`, `split()`, `in` (substring test), `replace()` and
    `str(int)`.  Characters are Unicode code points; case mapping and the
    character classes are those of Python for code points up to U+00FF. */
module Text {
  import opened Wrappers

  // ---------------------------------------------------------------------------
  // Character classes

  /** Whitespace as `str.split()`, `str.strip()` and the regex class `\s` see it, up to
      U+00FF: tab to carriage return, the four separators U+001C to U+001F, space, next
      line (U+0085) and no-break space (U+00A0). */
  predicate IsSpace(c: char) {
    ('\t' <= c <= '\r') || ('\U{001C}' <= c <= ' ') || c == '\U{0085}' || c == '\U{00A0}'
  }

  predicate IsDigit(c: char) {
    '0' <= c <= '9'
  }

  predicate IsAsciiLetter(c: char) {
    ('a' <= c <= 'z') || ('A' <= c <= 'Z')
  }

  /** The regex class `[A-Za-z0-9_-]` of customer numbers. */
  predicate IdChar(c: char) {
    IsAsciiLetter(c) || IsDigit(c) || c == '_' || c == '-'
  }

  /** The regex class `\w` up to U+00FF: underscore and what `str.isalnum()` accepts, that
      is ASCII letters and digits, the Latin-1 letters, the ordinal indicators, the micro
      sign, and the superscript digits and vulgar fractions. */
  predicate IsWordChar(c: char) {
    IsAsciiLetter(c) || IsDigit(c) || c == '_' ||
    c == '\U{00AA}' || c == '\U{00B2}' || c == '\U{00B3}' || c == '\U{00B5}' || c == '\U{00B9}' ||
    c == '\U{00BA}' || ('\U{00BC}' <= c <= '\U{00BE}') ||
    ('\U{00C0}' <= c <= '\U{00FF}' && c != '\U{00D7}' && c != '\U{00F7}')
  }

  /** `str.lower()` on one character: ASCII and Latin-1 capitals map to their small letters. */
  function Lower(c: char): (r: char)
    ensures IsSpace(r) <==> IsSpace(c)
    ensures 'a' <= c <= 'z' ==> r == c
    ensures 'A' <= c <= 'Z' ==> 'a' <= r <= 'z'
  {
    if 'A' <= c <= 'Z' || ('\U{00C0}' <= c <= '\U{00DE}' && c != '\U{00D7}') then
      (c as int + 32) as char
    else
      c
  }

  function LowerStr(s: string): (r: string)
    ensures |r| == |s|
    ensures forall i :: 0 <= i < |s| ==> r[i] == Lower(s[i])
  {
    seq(|s|, i requires 0 <= i < |s| => Lower(s[i]))
  }

  /** Lowering is idempotent, so matching a lowered query against lowered text is stable. */
  lemma LowerStrIdempotent(s: string)
    ensures LowerStr(LowerStr(s)) == LowerStr(s)
  {
  }

  // ---------------------------------------------------------------------------
  // Substring search

  ghost predicate OccursAt(s: string, sub: string, i: int) {
    0 <= i && i + |sub| <= |s| && s[i..i + |sub|] == sub
  }

  /** Leftmost occurrence of `sub` in `s` at or after `k`. */
  function IndexFrom(s: string, sub: string, k: nat): (r: Option<nat>)
    requires k <= |s|
    decreases |s| - k
    ensures r.Some? ==> k <= r.value && OccursAt(s, sub, r.value)
    ensures r.Some? ==> forall j :: k <= j < r.value ==> !OccursAt(s, sub, j)
    ensures r.None? ==> forall j :: k <= j ==> !OccursAt(s, sub, j)
  {
    if k + |sub| > |s| then None
    else if s[k..k + |sub|] == sub then Some(k)
    else IndexFrom(s, sub, k + 1)
  }

  /** `sub in s`: the leftmost index where `sub` occurs, if any. */
  function IndexOf(s: string, sub: string): (r: Option<nat>)
    ensures r.Some? ==> OccursAt(s, sub, r.value) && forall j :: 0 <= j < r.value ==> !OccursAt(s, sub, j)
    ensures r.None? <==> forall j :: !OccursAt(s, sub, j)
  {
    IndexFrom(s, sub, 0)
  }

  /** Python's `sub in s`. */
  predicate Contains(s: string, sub: string)
    ensures Contains(s, sub) <==> exists i :: OccursAt(s, sub, i)
  {
    IndexOf(s, sub).Some?
  }

  /** A string occurs in every string that has it as a slice. */
  lemma ContainsSlice(s: string, i: nat, j: nat)
    requires i <= j <= |s|
    ensures Contains(s, s[i..j])
  {
    assert OccursAt(s, s[i..j], i);
  }

  /** The empty string is a substring of every string, as in Python. */
  lemma ContainsEmpty(s: string)
    ensures Contains(s, "")
  {
    assert OccursAt(s, "", 0);
  }

  /** `any(w in s for w in words)`. */
  predicate ContainsAny(s: string, words: seq<string>) {
    exists k :: 0 <= k < |words| && Contains(s, words[k])
  }

  predicate StartsWith(s: string, prefix: string) {
    |prefix| <= |s| && s[..|prefix|] == prefix
  }

  predicate EndsWith(s: string, suffix: string) {
    |suffix| <= |s| && s[|s| - |suffix|..] == suffix
  }

  /** `s.split(c)[0]`: the text before the first `c`. */
  function BeforeFirst(s: string, c: char): (r: string)
    ensures StartsWith(s, r)
    ensures forall i :: 0 <= i < |r| ==> r[i] != c
    ensures |r| < |s| ==> s[|r|] == c
  {
    if s == [] || s[0] == c then [] else [s[0]] + BeforeFirst(s[1..], c)
  }

  // ---------------------------------------------------------------------------
  // strip() and split()

  function TrimStart(s: string): (r: string)
    ensures |r| <= |s| && r == s[|s| - |r|..]
    ensures r == [] || !IsSpace(r[0])
    ensures forall i :: 0 <= i < |s| - |r| ==> IsSpace(s[i])
  {
    if s != [] && IsSpace(s[0]) then TrimStart(s[1..]) else s
  }

  function TrimEnd(s: string): (r: string)
    ensures |r| <= |s| && r == s[..|r|]
    ensures r == [] || !IsSpace(r[|r| - 1])
    ensures forall i :: |r| <= i < |s| ==> IsSpace(s[i])
  {
    if s != [] && IsSpace(s[|s| - 1]) then TrimEnd(s[..|s| - 1]) else s
  }

  /** `str.strip()`: the slice of `s` left after removing whitespace at both ends. */
  function Strip(s: string): (r: string)
    ensures exists i, j :: 0 <= i <= j <= |s| && r == s[i..j] &&
                           (forall k :: 0 <= k < i ==> IsSpace(s[k])) &&
                           (forall k :: j <= k < |s| ==> IsSpace(s[k]))
    ensures r == [] || (!IsSpace(r[0]) && !IsSpace(r[|r| - 1]))
  {
    var t := TrimStart(s);
    var r := TrimEnd(t);
    StripSlice(s, t, r);
    assert forall k :: |s| - |t| + |r| <= k < |s| ==> s[k] == t[k - (|s| - |t|)];
    r
  }

  lemma StripSlice(s: string, t: string, r: string)
    requires |t| <= |s| && t == s[|s| - |t|..] && |r| <= |t| && r == t[..|r|]
    ensures r == s[|s| - |t|..|s| - |t| + |r|]
  {
    var i := |s| - |t|;
    forall k | 0 <= k < |r|
      ensures r[k] == s[i + k]
    {
      assert r[k] == t[k];
    }
  }

  /** Leading whitespace in front of a word is exactly what `lstrip` removes. */
  lemma {:induction false} TrimStartSpaces(w: string, u: string)
    requires forall i :: 0 <= i < |w| ==> IsSpace(w[i])
    requires u == [] || !IsSpace(u[0])
    ensures TrimStart(w + u) == u
    decreases |w|
  {
    if w != [] {
      assert (w + u)[1..] == w[1..] + u;
      TrimStartSpaces(w[1..], u);
    } else {
      assert w + u == u;
    }
  }

  /** A string with no whitespace at either end is its own `strip()`. */
  lemma StripUnchanged(s: string)
    requires s != [] && !IsSpace(s[0]) && !IsSpace(s[|s| - 1])
    ensures Strip(s) == s
  {
    assert TrimStart(s) == s;
  }

  /** `sub in s` needs `s` to be at least as long as `sub`. */
  lemma ContainsLonger(s: string, sub: string)
    requires |sub| > |s|
    ensures !Contains(s, sub)
  {
  }

  /** `sep.join(parts)`. */
  function Join(parts: seq<string>, sep: string): string {
    if parts == [] then ""
    else if |parts| == 1 then parts[0]
    else parts[0] + sep + Join(parts[1..], sep)
  }

  /** A concatenation starts with its first part and ends with its second. */
  lemma Concatenated(a: string, b: string)
    ensures StartsWith(a + b, a) && EndsWith(a + b, b)
  {
    assert (a + b)[..|a|] == a;
    assert (a + b)[|a + b| - |b|..] == b;
  }

  /** A substring of a part is a substring of the whole. */
  lemma ContainsWithin(a: string, x: string, b: string, sub: string)
    requires Contains(x, sub)
    ensures Contains(a + x + b, sub)
  {
    var i :| OccursAt(x, sub, i);
    assert (a + x + b)[|a| + i..|a| + i + |sub|] == x[i..i + |sub|];
    assert OccursAt(a + x + b, sub, |a| + i);
  }

  /** Every part occurs in the joined text. */
  lemma {:induction false} JoinContains(parts: seq<string>, sep: string, k: nat)
    requires k < |parts|
    ensures Contains(Join(parts, sep), parts[k])
  {
    if |parts| == 1 {
      ContainsSlice(parts[0], 0, |parts[0]|);
      assert parts[0][0..|parts[0]|] == parts[0];
    } else if k == 0 {
      ContainsSlice(parts[0], 0, |parts[0]|);
      assert parts[0][0..|parts[0]|] == parts[0];
      ContainsWithin("", parts[0], sep + Join(parts[1..], sep), parts[0]);
      assert "" + parts[0] + (sep + Join(parts[1..], sep)) == Join(parts, sep);
    } else {
      JoinContains(parts[1..], sep, k - 1);
      ContainsWithin(parts[0] + sep, Join(parts[1..], sep), "", parts[k]);
      assert parts[0] + sep + Join(parts[1..], sep) + "" == Join(parts, sep);
    }
  }

  /** Length of the leading run of non-whitespace characters. */
  function WordLength(s: string): (n: nat)
    ensures n <= |s|
    ensures forall i :: 0 <= i < n ==> !IsSpace(s[i])
    ensures n == |s| || IsSpace(s[n])
  {
    if s == [] || IsSpace(s[0]) then 0 else 1 + WordLength(s[1..])
  }

  /** `str.split()` without arguments: the maximal runs of non-whitespace characters. */
  function Words(s: string): seq<string>
    decreases |s|
  {
    var t := TrimStart(s);
    if t == [] then []
    else
      var n := WordLength(t);
      [t[..n]] + Words(t[n..])
  }

  /** Every word is non-empty and holds no whitespace. */
  lemma {:induction false} WordsAreWords(s: string)
    ensures var ws := Words(s);
            forall k :: 0 <= k < |ws| ==> |ws[k]| > 0 && forall i :: 0 <= i < |ws[k]| ==> !IsSpace(ws[k][i])
    decreases |s|
  {
    var t := TrimStart(s);
    if t != [] {
      var n := WordLength(t);
      WordsAreWords(t[n..]);
      var ws := Words(s);
      assert ws == [t[..n]] + Words(t[n..]);
      forall k | 0 <= k < |ws|
        ensures |ws[k]| > 0 && forall i :: 0 <= i < |ws[k]| ==> !IsSpace(ws[k][i])
      {
        if k > 0 {
          assert ws[k] == Words(t[n..])[k - 1];
        }
      }
    }
  }

  function WordSet(s: string): set<string> {
    set w | w in Words(s)
  }

  // ---------------------------------------------------------------------------
  // replace()

  /** `s.replace(pat, rep)`: every non-overlapping occurrence of `pat`, scanning left to right. */
  function ReplaceAll(s: string, pat: string, rep: string): string
    requires |pat| > 0
    decreases |s|
  {
    if s == [] then []
    else if StartsWith(s, pat) then rep + ReplaceAll(s[|pat|..], pat, rep)
    else [s[0]] + ReplaceAll(s[1..], pat, rep)
  }

  /** A string without `**` in it: the German renderer's guarantee. */
  predicate NoDoubleStar(s: string) {
    forall i :: 0 <= i < |s| - 1 ==> !(s[i] == '*' && s[i + 1] == '*')
  }

  lemma {:induction false} RemoveStarsFirst(s: string)
    requires s != [] && s[0] != '*'
    ensures ReplaceAll(s, "**", "") != [] && ReplaceAll(s, "**", "")[0] == s[0]
  {
  }

  /** After `replace('**', '')` no `**` is left: removing pairs never joins two stars. */
  lemma {:induction false} RemoveStarsLeavesNone(s: string)
    ensures NoDoubleStar(ReplaceAll(s, "**", ""))
    decreases |s|
  {
    if s == [] {
    } else if StartsWith(s, "**") {
      RemoveStarsLeavesNone(s[2..]);
    } else {
      var rest := ReplaceAll(s[1..], "**", "");
      RemoveStarsLeavesNone(s[1..]);
      if s[0] == '*' && |s| > 1 {
        assert s[1] != '*';
        RemoveStarsFirst(s[1..]);
      }
      var r := [s[0]] + rest;
      assert ReplaceAll(s, "**", "") == r;
      forall i | 0 <= i < |r| - 1
        ensures !(r[i] == '*' && r[i + 1] == '*')
      {
        if i > 0 {
          assert r[i] == rest[i - 1] && r[i + 1] == rest[i];
        }
      }
    }
  }

  /** Inserting `**` anywhere leaves `replace('**', '')` unchanged: a run of stars keeps its parity. */
  lemma {:induction false} RemoveStarsInsertion(a: string, b: string)
    ensures ReplaceAll(a + "**" + b, "**", "") == ReplaceAll(a + b, "**", "")
    decreases |a|
  {
    var s := a + "**" + b;
    if a == [] {
      assert StartsWith(s, "**") && s[2..] == b;
      assert a + b == b;
    } else if StartsWith(a, "**") {
      assert StartsWith(s, "**") && s[2..] == a[2..] + "**" + b;
      assert StartsWith(a + b, "**") && (a + b)[2..] == a[2..] + b;
      RemoveStarsInsertion(a[2..], b);
    } else if a == "*" {
      assert s == "**" + ("*" + b);
      assert StartsWith(s, "**") && s[2..] == "*" + b;
    } else {
      assert !StartsWith(s, "**") && s[1..] == a[1..] + "**" + b;
      assert !StartsWith(a + b, "**") && (a + b)[1..] == a[1..] + b;
      RemoveStarsInsertion(a[1..], b);
    }
  }

  /** Removing the stars around a bold run leaves the run and what follows it. */
  lemma BoldSplit(p: string, a: string, h: string, bold: string)
    requires bold == "**" + a + "**" + h
    ensures ReplaceAll(p + bold, "**", "") == ReplaceAll((p + a) + h, "**", "")
  {
    assert p + bold == p + "**" + (a + "**" + h);
    RemoveStarsInsertion(p, a + "**" + h);
    assert p + (a + "**" + h) == (p + a) + "**" + h;
    RemoveStarsInsertion(p + a, h);
  }

  /** A slice of a string without `**` has none either. */
  lemma NoDoubleStarSlice(s: string, i: nat, j: nat)
    requires i <= j <= |s| && NoDoubleStar(s)
    ensures NoDoubleStar(s[i..j])
  {
    forall k | 0 <= k < j - i - 1
      ensures !(s[i..j][k] == '*' && s[i..j][k + 1] == '*')
    {
      assert s[i..j][k] == s[i + k] && s[i..j][k + 1] == s[i + k + 1];
    }
  }

  /** Stripping keeps a string free of `**`. */
  lemma StripNoDoubleStar(s: string)
    requires NoDoubleStar(s)
    ensures NoDoubleStar(Strip(s))
  {
    var i, j :| 0 <= i <= j <= |s| && Strip(s) == s[i..j];
    NoDoubleStarSlice(s, i, j);
  }

  /** `s.replace(a, b)` for single characters. */
  function ReplaceChar(s: string, a: char, b: char): (r: string)
    ensures |r| == |s|
    ensures forall i :: 0 <= i < |s| ==> r[i] == if s[i] == a then b else s[i]
  {
    seq(|s|, i requires 0 <= i < |s| => if s[i] == a then b else s[i])
  }

  // ---------------------------------------------------------------------------
  // Numbers as text

  function DigitChar(d: nat): char
    requires d < 10
  {
    "0123456789"[d]
  }

  /** `str(n)` for a natural number. */
  function NatToString(n: nat): (r: string)
    ensures |r| > 0 && forall i :: 0 <= i < |r| ==> IsDigit(r[i])
  {
    if n < 10 then [DigitChar(n)] else NatToString(n / 10) + [DigitChar(n % 10)]
  }

  function Pow10(k: nat): (r: nat)
    ensures r > 0
  {
    if k == 0 then 1 else 10 * Pow10(k - 1)
  }

  /** The value of a run of decimal digits, most significant first. */
  function DigitsValue(ds: string): nat
    requires forall i :: 0 <= i < |ds| ==> IsDigit(ds[i])
  {
    if ds == [] then 0
    else
      assert IsDigit(ds[|ds| - 1]);
      10 * DigitsValue(ds[..|ds| - 1]) + (ds[|ds| - 1] as int - '0' as int)
  }

  /** `int(str(n)) == n`. */
  lemma {:induction false} NatToStringRoundTrip(n: nat)
    ensures DigitsValue(NatToString(n)) == n
  {
    if n >= 10 {
      NatToStringRoundTrip(n / 10);
      var s := NatToString(n / 10) + [DigitChar(n % 10)];
      assert s[..|s| - 1] == NatToString(n / 10);
    }
  }

  /** Length of the leading run of decimal digits. */
  function DigitRun(s: string): (n: nat)
    ensures n <= |s|
    ensures forall i :: 0 <= i < n ==> IsDigit(s[i])
    ensures n == |s| || !IsDigit(s[n])
  {
    if s == [] || !IsDigit(s[0]) then 0 else 1 + DigitRun(s[1..])
  }

  /** `float(s)` for plain decimal text `[+-]digits[.digits]` (at least one digit): text
      it accepts holds a digit and nothing but digits, points and a leading sign. */
  function ParseDecimal(s: string): (r: Option<real>)
    ensures r.Some? ==> exists i :: 0 <= i < |s| && IsDigit(s[i])
    ensures r.Some? ==> forall i :: 0 <= i < |s| ==> IsDigit(s[i]) || s[i] == '.' || (i == 0 && s[i] in "+-")
  {
    if s == [] then None
    else if s[0] == '-' || s[0] == '+' then
      match ParseUnsigned(s[1..])
      case Some(x) =>
        assert forall i :: 1 <= i < |s| ==> s[i] == s[1..][i - 1];
        Some(if s[0] == '-' then -x else x)
      case None => None
    else ParseUnsigned(s)
  }

  function ParseUnsigned(s: string): (r: Option<real>)
    ensures r.Some? ==> r.value >= 0.0
    ensures r.Some? ==> exists i :: 0 <= i < |s| && IsDigit(s[i])
    ensures r.Some? ==> forall i :: 0 <= i < |s| ==> IsDigit(s[i]) || s[i] == '.'
  {
    var n := DigitRun(s);
    var whole := DigitsValue(s[..n]);
    if n == |s| then (if n > 0 then Some(whole as real) else None)
    else if s[n] != '.' then None
    else
      var rest := s[n + 1..];
      var m := DigitRun(rest);
      if m != |rest| || n + m == 0 then None
      else
        assert forall i :: n < i < |s| ==> s[i] == rest[i - n - 1];
        assert n > 0 ==> IsDigit(s[0]);
        assert n == 0 ==> IsDigit(s[n + 1]);
        Some(DecimalValue(whole, DigitsValue(rest), m))
  }

  /** The number `whole.fraction` where the fraction has `digits` digits. */
  function DecimalValue(whole: nat, fraction: nat, digits: nat): (x: real)
    ensures x >= 0.0
  {
    var scale := Pow10(digits) as real;
    assert scale > 0.0 && fraction as real >= 0.0;
    assert fraction as real / scale >= 0.0;
    whole as real + fraction as real / scale
  }

  lemma {:induction false} DigitRunDigits(w: string, t: string)
    requires forall i :: 0 <= i < |w| ==> IsDigit(w[i])
    ensures DigitRun(w + t) == |w| + DigitRun(t)
  {
    if w != [] {
      assert (w + t)[0] == w[0] && (w + t)[1..] == w[1..] + t;
      DigitRunDigits(w[1..], t);
    } else {
      assert w + t == t;
    }
  }

  /** A digit run ends at the point. */
  lemma PointAfterDigits(w: string, f: string)
    requires forall i :: 0 <= i < |w| ==> IsDigit(w[i])
    requires forall i :: 0 <= i < |f| ==> IsDigit(f[i])
    ensures var s := w + "." + f;
            DigitRun(s) == |w| && s[|w|] == '.' && s[..|w|] == w && s[|w| + 1..] == f && DigitRun(f) == |f|
  {
    var s := w + "." + f;
    assert s == w + ("." + f);
    DigitRunDigits(w, "." + f);
    assert DigitRun("." + f) == 0;
    DigitRunDigits(f, []);
    assert f + [] == f;
  }

  /** Digits, a point and digits read as the whole part plus the fraction. */
  lemma UnsignedPointValue(s: string, n: nat)
    requires n < |s| && DigitRun(s) == n && s[n] == '.' && DigitRun(s[n + 1..]) == |s| - n - 1 && |s| > 1
    ensures ParseUnsigned(s) == Some(DecimalValue(DigitsValue(s[..n]), DigitsValue(s[n + 1..]), |s| - n - 1))
  {
  }

  lemma PointedValue(w: string, f: string)
    requires forall i :: 0 <= i < |w| ==> IsDigit(w[i])
    requires forall i :: 0 <= i < |f| ==> IsDigit(f[i])
    requires |w| + |f| > 0
    ensures ParseUnsigned(w + "." + f) == Some(DecimalValue(DigitsValue(w), DigitsValue(f), |f|))
  {
    PointAfterDigits(w, f);
    UnsignedPointValue(w + "." + f, |w|);
  }

  /** Text `w.f` reads as the number it spells: the whole part plus the fraction scaled
      by its number of digits (a sign is `ParseSigned`). */
  lemma ParsePointedDecimal(w: string, f: string)
    requires forall i :: 0 <= i < |w| ==> IsDigit(w[i])
    requires forall i :: 0 <= i < |f| ==> IsDigit(f[i])
    requires |w| + |f| > 0
    ensures ParseDecimal(w + "." + f) == Some(DecimalValue(DigitsValue(w), DigitsValue(f), |f|))
  {
    var s := w + "." + f;
    PointedValue(w, f);
    assert s[0] == (if |w| == 0 then '.' else w[0]);
  }

  /** A leading `+` changes nothing and a leading `-` negates. */
  lemma ParseSigned(t: string)
    requires t != [] && t[0] != '-' && t[0] != '+'
    ensures ParseDecimal(t) == ParseUnsigned(t)
    ensures ParseDecimal("+" + t) == ParseUnsigned(t)
    ensures ParseUnsigned(t).Some? ==> ParseDecimal("-" + t) == Some(-ParseUnsigned(t).value)
  {
    assert ("+" + t)[1..] == t && ("-" + t)[1..] == t;
  }

  /** `float(str(n)) == n`, with a sign or without. */
  lemma ParseNatText(n: nat)
    ensures ParseDecimal(NatToString(n)) == Some(n as real)
    ensures ParseDecimal("-" + NatToString(n)) == Some(-(n as real))
  {
    var t := NatToString(n);
    DigitRunDigits(t, []);
    NatToStringRoundTrip(n);
    assert t + [] == t && t[..|t|] == t && ("-" + t)[1..] == t;
  }
}
