/** The fragment of Python's `re.search` that the query classifiers use: a pattern
    is an alternation of chains `p0.*p1.* ... .*pn` of literal words.  `.` does not
    match a line break, so a chain must be found within one line; the literals
    themselves never contain a line break. */
module Pattern {
  import opened Wrappers
  import opened Text

  /** `p0.*p1.*...`: the literals, in this order, on one line. */
  type Chain = seq<string>

  /** `c0|c1|...`: one regular expression. */
  type Regex = seq<Chain>

  // ---------------------------------------------------------------------------
  // One line

  /** The literals occur one after another, without overlapping, in `t`. */
  ghost predicate InOrderSpec(t: string, parts: Chain)
    decreases |parts|
  {
    parts == [] ||
    exists i :: OccursAt(t, parts[0], i) && InOrderSpec(t[i + |parts[0]|..], parts[1..])
  }

  /** The matcher: take the leftmost occurrence of each literal in turn. */
  function InOrder(t: string, parts: Chain): bool
    decreases |parts|
  {
    if parts == [] then true
    else
      match IndexOf(t, parts[0])
      case None => false
      case Some(i) => InOrder(t[i + |parts[0]|..], parts[1..])
  }

  /** A chain found in a suffix of `t` is found in `t`. */
  lemma {:induction false} InOrderSpecSuffix(t: string, k: nat, parts: Chain)
    requires k <= |t|
    requires InOrderSpec(t[k..], parts)
    ensures InOrderSpec(t, parts)
  {
    if parts != [] {
      var j :| OccursAt(t[k..], parts[0], j) && InOrderSpec(t[k..][j + |parts[0]|..], parts[1..]);
      assert t[k..][j..j + |parts[0]|] == t[k + j..k + j + |parts[0]|];
      assert OccursAt(t, parts[0], k + j);
      assert t[k..][j + |parts[0]|..] == t[k + j + |parts[0]|..];
    }
  }

  /** After the leftmost occurrence of the first literal, the rest of a chain that
      occurs at all still occurs. */
  lemma LeftmostSuffices(t: string, parts: Chain, i0: nat)
    requires parts != [] && IndexOf(t, parts[0]) == Some(i0)
    requires InOrderSpec(t, parts)
    ensures InOrderSpec(t[i0 + |parts[0]|..], parts[1..])
  {
    var p := parts[0];
    var i :| OccursAt(t, p, i) && InOrderSpec(t[i + |p|..], parts[1..]);
    assert i0 <= i;
    var u := t[i0 + |p|..];
    assert u[i - i0..] == t[i + |p|..];
    InOrderSpecSuffix(u, i - i0, parts[1..]);
  }

  /** Taking the leftmost occurrence loses no match: the matcher decides `InOrderSpec`. */
  lemma {:induction false} InOrderCorrect(t: string, parts: Chain)
    ensures InOrder(t, parts) <==> InOrderSpec(t, parts)
    decreases |parts|
  {
    if parts != [] {
      var p := parts[0];
      match IndexOf(t, p)
      case None =>
      case Some(i0) =>
        InOrderCorrect(t[i0 + |p|..], parts[1..]);
        if InOrderSpec(t, parts) {
          LeftmostSuffices(t, parts, i0);
        }
        if InOrder(t, parts) {
          assert OccursAt(t, p, i0);
        }
    }
  }

  // ---------------------------------------------------------------------------
  // Whole text

  /** `re.search` for one chain: some line holds the chain. */
  function SearchChain(s: string, parts: Chain): bool
    decreases |s|
  {
    match IndexOf(s, "\n")
    case None => InOrder(s, parts)
    case Some(n) => InOrder(s[..n], parts) || SearchChain(s[n + 1..], parts)
  }

  /** `re.search(regex, s) is not None`. */
  predicate Search(s: string, regex: Regex) {
    exists k :: 0 <= k < |regex| && SearchChain(s, regex[k])
  }

  /** `any(re.search(p, s) for p in patterns)`. */
  predicate SearchAny(s: string, patterns: seq<Regex>) {
    exists k :: 0 <= k < |patterns| && Search(s, patterns[k])
  }

  /** A pattern made of a single literal. */
  function Lit(p: string): Regex {
    [[p]]
  }

  /** An occurrence in a slice is an occurrence in the whole text. */
  lemma ContainsInSlice(s: string, lo: nat, hi: nat, w: string)
    requires lo <= hi <= |s| && Contains(s[lo..hi], w)
    ensures Contains(s, w)
  {
    var i := IndexOf(s[lo..hi], w).value;
    assert s[lo + i..lo + i + |w|] == s[lo..hi][i..i + |w|];
    assert OccursAt(s, w, lo + i);
  }

  /** A literal without a line break lies on one side of every line break. */
  lemma ContainsAroundBreak(s: string, n: nat, w: string)
    requires n < |s| && s[n] == '\n'
    requires forall i :: 0 <= i < |w| ==> w[i] != '\n'
    ensures Contains(s, w) <==> Contains(s[..n], w) || Contains(s[n + 1..], w)
  {
    if Contains(s, w) {
      var i := IndexOf(s, w).value;
      if i + |w| <= n {
        assert s[..n][i..i + |w|] == s[i..i + |w|];
        assert OccursAt(s[..n], w, i);
      } else if i > n {
        assert s[n + 1..][i - n - 1..i - n - 1 + |w|] == s[i..i + |w|];
        assert OccursAt(s[n + 1..], w, i - n - 1);
      }
    }
    if Contains(s[..n], w) {
      ContainsInSlice(s, 0, n, w);
    }
    if Contains(s[n + 1..], w) {
      assert s[n + 1..|s|] == s[n + 1..];
      ContainsInSlice(s, n + 1, |s|, w);
    }
  }

  /** On one line, a single literal is found exactly when it occurs. */
  lemma InOrderSingle(t: string, w: string)
    ensures InOrder(t, [w]) == Contains(t, w)
  {
    match IndexOf(t, w)
    case None =>
    case Some(i) => assert InOrder(t[i + |w|..], []);
  }

  /** For a literal without a line break, `re.search` is the substring test. */
  lemma {:induction false} SearchLiteral(s: string, w: string)
    requires forall i :: 0 <= i < |w| ==> w[i] != '\n'
    ensures SearchChain(s, [w]) <==> Contains(s, w)
    decreases |s|
  {
    InOrderSingle(s, w);
    match IndexOf(s, "\n")
    case None =>
    case Some(n) =>
      InOrderSingle(s[..n], w);
      assert s[n..n + 1] == "\n";
      SearchLiteral(s[n + 1..], w);
      ContainsAroundBreak(s, n, w);
  }
}
