/** The two data helpers of the older chat service (llm_service.py): `flatten_json`,
    which turns a nested invoice into dotted-path keys, and `truncate_by_token_limit`,
    which keeps the lines that fit a token budget.  The tokeniser is a parameter. */
module LegacyData {
  import opened Text
  import opened Json

  // ---------------------------------------------------------------------------
  // flatten_json

  /** `name[:-1]`. */
  function DropLast(name: string): string {
    if name == [] then [] else name[..|name| - 1]
  }

  /** One more than the number of children of a container. */
  function Width(x: Json): nat {
    match x
    case JObj(fields) => |fields| + 1
    case JArr(items) => |items| + 1
    case _ => 0
  }

  /** The writes `flatten(x, name)` makes into `out`, in order: one per scalar leaf. */
  function Leaves(x: Json, name: string): seq<(string, Json)>
    decreases x, Width(x)
  {
    match x
    case JObj(fields) => FieldLeaves(x, fields, name)
    case JArr(items) => ItemLeaves(x, items, name)
    case _ => [(DropLast(name), x)]
  }

  /** The writes of a dictionary's values, key by key. */
  function FieldLeaves(ghost parent: Json, fields: seq<(string, Json)>, name: string): seq<(string, Json)>
    requires forall i :: 0 <= i < |fields| ==> fields[i].1 < parent
    decreases parent, |fields|
  {
    if fields == [] then []
    else
      var n := |fields| - 1;
      FieldLeaves(parent, fields[..n], name) + Leaves(fields[n].1, name + fields[n].0 + ".")
  }

  /** The writes of a list's items, index by index. */
  function ItemLeaves(ghost parent: Json, items: seq<Json>, name: string): seq<(string, Json)>
    requires forall i :: 0 <= i < |items| ==> items[i] < parent
    decreases parent, |items|
  {
    if items == [] then []
    else
      var n := |items| - 1;
      ItemLeaves(parent, items[..n], name) + Leaves(items[n], name + NatToString(n) + ".")
  }

  /** A scalar: what ends up as a value in the flattened dictionary. */
  predicate IsScalar(x: Json) {
    !x.JObj? && !x.JArr?
  }

  /** The scalar leaves of a value with their paths of dictionary keys and list indices,
      in walk order: the reference for what `flatten` writes. */
  function Paths(x: Json): (ps: seq<(seq<string>, Json)>)
    ensures forall i :: 0 <= i < |ps| ==> IsScalar(ps[i].1)
    decreases x, Width(x)
  {
    match x
    case JObj(fields) => FieldPaths(x, fields)
    case JArr(items) => ItemPaths(x, items)
    case _ => [([], x)]
  }

  /** Every path of `ps`, with `k` in front. */
  function Under(k: string, ps: seq<(seq<string>, Json)>): (r: seq<(seq<string>, Json)>)
    ensures |r| == |ps| && forall i :: 0 <= i < |ps| ==> r[i] == ([k] + ps[i].0, ps[i].1)
  {
    seq(|ps|, i requires 0 <= i < |ps| => ([k] + ps[i].0, ps[i].1))
  }

  function FieldPaths(ghost parent: Json, fields: seq<(string, Json)>): (ps: seq<(seq<string>, Json)>)
    requires forall i :: 0 <= i < |fields| ==> fields[i].1 < parent
    ensures forall i :: 0 <= i < |ps| ==> IsScalar(ps[i].1)
    decreases parent, |fields|
  {
    if fields == [] then []
    else
      var n := |fields| - 1;
      FieldPaths(parent, fields[..n]) + Under(fields[n].0, Paths(fields[n].1))
  }

  function ItemPaths(ghost parent: Json, items: seq<Json>): (ps: seq<(seq<string>, Json)>)
    requires forall i :: 0 <= i < |items| ==> items[i] < parent
    ensures forall i :: 0 <= i < |ps| ==> IsScalar(ps[i].1)
    decreases parent, |items|
  {
    if items == [] then []
    else
      var n := |items| - 1;
      ItemPaths(parent, items[..n]) + Under(NatToString(n), Paths(items[n]))
  }

  /** The name `flatten` passes down along a path: each step followed by a dot. */
  function Dotted(path: seq<string>): string {
    if path == [] then "" else path[0] + "." + Dotted(path[1..])
  }

  /** The writes for leaves below `path`: keys are the full paths joined by dots. */
  function Keyed(path: seq<string>, ps: seq<(seq<string>, Json)>): (r: seq<(string, Json)>)
    ensures |r| == |ps| && forall i :: 0 <= i < |ps| ==> r[i] == (Join(path + ps[i].0, "."), ps[i].1)
  {
    seq(|ps|, i requires 0 <= i < |ps| => (Join(path + ps[i].0, "."), ps[i].1))
  }

  lemma {:induction false} DottedAppend(path: seq<string>, k: string)
    ensures Dotted(path + [k]) == Dotted(path) + k + "."
    decreases |path|
  {
    if path == [] {
      assert path + [k] == [k];
    } else {
      assert (path + [k])[1..] == path[1..] + [k];
      DottedAppend(path[1..], k);
    }
  }

  /** Dropping the trailing dot of the name gives the path joined by dots. */
  lemma {:induction false} DottedJoin(path: seq<string>)
    ensures DropLast(Dotted(path)) == Join(path, ".")
    decreases |path|
  {
    if |path| == 1 {
      assert Dotted(path) == path[0] + "." + "";
    } else if |path| > 1 {
      DottedJoin(path[1..]);
      var rest := Dotted(path[1..]);
      assert rest != [];
      assert Dotted(path) == (path[0] + "." + DropLast(rest)) + [rest[|rest| - 1]];
    }
  }

  lemma KeyedConcat(path: seq<string>, a: seq<(seq<string>, Json)>, b: seq<(seq<string>, Json)>)
    ensures Keyed(path, a + b) == Keyed(path, a) + Keyed(path, b)
  {
  }

  lemma KeyedUnder(path: seq<string>, k: string, ps: seq<(seq<string>, Json)>)
    ensures Keyed(path + [k], ps) == Keyed(path, Under(k, ps))
  {
    forall i | 0 <= i < |ps|
      ensures (path + [k]) + ps[i].0 == path + ([k] + ps[i].0)
    {
    }
  }

  /** `flatten` writes exactly one entry per scalar leaf, keyed by the leaf's path of
      dictionary keys and list indices joined by dots. */
  lemma {:induction false} LeavesArePaths(x: Json, path: seq<string>)
    ensures Leaves(x, Dotted(path)) == Keyed(path, Paths(x))
    decreases x, Width(x)
  {
    match x
    case JObj(fields) => FieldLeavesArePaths(x, fields, path);
    case JArr(items) => ItemLeavesArePaths(x, items, path);
    case _ =>
      DottedJoin(path);
      assert path + [] == path;
  }

  lemma {:induction false} FieldLeavesArePaths(parent: Json, fields: seq<(string, Json)>, path: seq<string>)
    requires forall i :: 0 <= i < |fields| ==> fields[i].1 < parent
    ensures FieldLeaves(parent, fields, Dotted(path)) == Keyed(path, FieldPaths(parent, fields))
    decreases parent, |fields|
  {
    if fields != [] {
      var n := |fields| - 1;
      FieldLeavesArePaths(parent, fields[..n], path);
      DottedAppend(path, fields[n].0);
      LeavesArePaths(fields[n].1, path + [fields[n].0]);
      KeyedUnder(path, fields[n].0, Paths(fields[n].1));
      KeyedConcat(path, FieldPaths(parent, fields[..n]), Under(fields[n].0, Paths(fields[n].1)));
    }
  }

  lemma {:induction false} ItemLeavesArePaths(parent: Json, items: seq<Json>, path: seq<string>)
    requires forall i :: 0 <= i < |items| ==> items[i] < parent
    ensures ItemLeaves(parent, items, Dotted(path)) == Keyed(path, ItemPaths(parent, items))
    decreases parent, |items|
  {
    if items != [] {
      var n := |items| - 1;
      ItemLeavesArePaths(parent, items[..n], path);
      DottedAppend(path, NatToString(n));
      LeavesArePaths(items[n], path + [NatToString(n)]);
      KeyedUnder(path, NatToString(n), Paths(items[n]));
      KeyedConcat(path, ItemPaths(parent, items[..n]), Under(NatToString(n), Paths(items[n])));
    }
  }

  /** Empty dictionaries and lists contribute nothing, and a bare scalar is stored under
      the empty key. */
  lemma FlattenEdges(x: Json)
    ensures Leaves(JObj([]), "") == [] && Leaves(JArr([]), "") == []
    ensures IsScalar(x) ==> Leaves(x, "") == [("", x)]
  {
  }

  /** The dictionary after a sequence of writes: later writes to a key win. */
  function Apply(m: map<string, Json>, writes: seq<(string, Json)>): map<string, Json>
    decreases |writes|
  {
    if writes == [] then m else Apply(m[writes[0].0 := writes[0].1], writes[1..])
  }

  lemma {:induction false} ApplyConcat(m: map<string, Json>, a: seq<(string, Json)>, b: seq<(string, Json)>)
    ensures Apply(m, a + b) == Apply(Apply(m, a), b)
    decreases |a|
  {
    if a != [] {
      assert (a + b)[1..] == a[1..] + b;
      ApplyConcat(m[a[0].0 := a[0].1], a[1..], b);
    } else {
      assert a + b == b;
    }
  }

  /** The keys a sequence of writes touches. */
  function WrittenKeys(writes: seq<(string, Json)>): (ks: set<string>)
    ensures forall i :: 0 <= i < |writes| ==> writes[i].0 in ks
    ensures forall k :: k in ks ==> exists i :: 0 <= i < |writes| && writes[i].0 == k
  {
    if writes == [] then {}
    else
      var rest := WrittenKeys(writes[1..]);
      assert forall i :: 1 <= i < |writes| ==> writes[i] == writes[1..][i - 1];
      {writes[0].0} + rest
  }

  /** After the writes, the keys are the old ones and the written ones. */
  lemma {:induction false} ApplyKeys(m: map<string, Json>, writes: seq<(string, Json)>)
    ensures Apply(m, writes).Keys == m.Keys + WrittenKeys(writes)
    decreases |writes|
  {
    if writes != [] {
      ApplyKeys(m[writes[0].0 := writes[0].1], writes[1..]);
    }
  }

  /** A key holds the value of its last write. */
  lemma {:induction false} ApplyLastWrite(m: map<string, Json>, writes: seq<(string, Json)>, i: nat)
    requires i < |writes| && forall j :: i < j < |writes| ==> writes[j].0 != writes[i].0
    ensures writes[i].0 in Apply(m, writes) && Apply(m, writes)[writes[i].0] == writes[i].1
    decreases |writes|
  {
    var m' := m[writes[0].0 := writes[0].1];
    var rest := writes[1..];
    if i > 0 {
      assert rest[i - 1] == writes[i];
      assert forall j :: i - 1 < j < |rest| ==> rest[j] == writes[j + 1];
      ApplyLastWrite(m', rest, i - 1);
    } else {
      assert forall j :: 0 <= j < |rest| ==> rest[j] == writes[j + 1];
      ApplyUntouched(m', rest, writes[0].0);
    }
  }

  /** A key no write touches keeps its value. */
  lemma {:induction false} ApplyUntouched(m: map<string, Json>, writes: seq<(string, Json)>, k: string)
    requires k in m && forall j :: 0 <= j < |writes| ==> writes[j].0 != k
    ensures k in Apply(m, writes) && Apply(m, writes)[k] == m[k]
    decreases |writes|
  {
    if writes != [] {
      assert forall j :: 0 <= j < |writes[1..]| ==> writes[1..][j] == writes[j + 1];
      ApplyUntouched(m[writes[0].0 := writes[0].1], writes[1..], k);
    }
  }

  /** `flatten`, writing into the shared `out` dictionary as it walks the value. */
  class Flattener {
    var out: map<string, Json>

    constructor ()
      ensures out == map[]
    {
      out := map[];
    }

    method Flatten(x: Json, name: string)
      modifies this
      ensures out == Apply(old(out), Leaves(x, name))
      decreases x, Width(x)
    {
      match x
      case JObj(fields) =>
        FlattenFields(x, name);
      case JArr(items) =>
        FlattenItems(x, name);
      case _ =>
        out := out[DropLast(name) := x];
    }

    /** The loop over a dictionary's keys. */
    method FlattenFields(x: Json, name: string)
      requires x.JObj?
      modifies this
      ensures out == Apply(old(out), FieldLeaves(x, x.fields, name))
      decreases x, |x.fields|
    {
      var fields := x.fields;
      var k := 0;
      while k < |fields|
        invariant 0 <= k <= |fields|
        invariant out == Apply(old(out), FieldLeaves(x, fields[..k], name))
      {
        Flatten(fields[k].1, name + fields[k].0 + ".");
        assert fields[..k + 1][..k] == fields[..k];
        ApplyConcat(old(out), FieldLeaves(x, fields[..k], name), Leaves(fields[k].1, name + fields[k].0 + "."));
        k := k + 1;
      }
      assert fields[..|fields|] == fields;
    }

    /** The loop over a list's indices. */
    method FlattenItems(x: Json, name: string)
      requires x.JArr?
      modifies this
      ensures out == Apply(old(out), ItemLeaves(x, x.items, name))
      decreases x, |x.items|
    {
      var items := x.items;
      var k := 0;
      while k < |items|
        invariant 0 <= k <= |items|
        invariant out == Apply(old(out), ItemLeaves(x, items[..k], name))
      {
        Flatten(items[k], name + NatToString(k) + ".");
        assert items[..k + 1][..k] == items[..k];
        ApplyConcat(old(out), ItemLeaves(x, items[..k], name), Leaves(items[k], name + NatToString(k) + "."));
        k := k + 1;
      }
      assert items[..|items|] == items;
    }
  }

  /** `flatten_json(y, prefix)`. */
  method FlattenJson(y: Json, prefix: string) returns (out: map<string, Json>)
    ensures out == Apply(map[], Leaves(y, prefix))
  {
    var f := new Flattener();
    f.Flatten(y, prefix);
    out := f.out;
  }

  /** The keys of `flatten_json(y)` are the dotted paths of its scalar leaves. */
  lemma FlattenKeys(y: Json)
    ensures Apply(map[], Leaves(y, "")).Keys == WrittenKeys(Keyed([], Paths(y)))
  {
    LeavesArePaths(y, []);
    ApplyKeys(map[], Leaves(y, ""));
  }

  // ---------------------------------------------------------------------------
  // truncate_by_token_limit

  /** The number of tokens of all lines, with `count` standing for `len(enc.encode(line))`. */
  function Tokens(lines: seq<string>, count: string -> nat): nat {
    if lines == [] then 0 else Tokens(lines[..|lines| - 1], count) + count(lines[|lines| - 1])
  }

  /** The result of the truncation: a prefix of the lines, within the budget, that stops at
      the first line that would overflow it. */
  predicate Truncation(lines: seq<string>, maxTokens: int, count: string -> nat, r: seq<string>) {
    |r| <= |lines| && r == lines[..|r|] &&
    (r != [] ==> Tokens(r, count) <= maxTokens) &&
    (|r| < |lines| ==> Tokens(r, count) + count(lines[|r|]) > maxTokens)
  }

  method TruncateByTokenLimit(lines: seq<string>, maxTokens: int, count: string -> nat) returns (result: seq<string>)
    ensures Truncation(lines, maxTokens, count, result)
  {
    result := [];
    var tokenCount := 0;
    var k := 0;
    while k < |lines|
      invariant 0 <= k <= |lines| && result == lines[..k]
      invariant tokenCount == Tokens(result, count)
      invariant result != [] ==> tokenCount <= maxTokens
    {
      var n := count(lines[k]);
      if tokenCount + n > maxTokens {
        break;
      }
      assert lines[..k + 1][..k] == lines[..k];
      result := result + [lines[k]];
      tokenCount := tokenCount + n;
      k := k + 1;
    }
  }

  lemma {:induction false} TokensPrefix(lines: seq<string>, count: string -> nat, k: nat)
    requires k <= |lines|
    ensures Tokens(lines[..k], count) <= Tokens(lines, count)
    decreases |lines|
  {
    if k < |lines| {
      var n := |lines| - 1;
      assert lines[..n][..k] == lines[..k];
      TokensPrefix(lines[..n], count, k);
    } else {
      assert lines[..k] == lines;
    }
  }

  /** Exactly one list is a truncation: the maximal prefix that stays within the budget,
      cut at the first line that overflows it even when later lines would fit. */
  lemma TruncationUnique(lines: seq<string>, maxTokens: int, count: string -> nat, p: seq<string>, q: seq<string>)
    requires Truncation(lines, maxTokens, count, p) && Truncation(lines, maxTokens, count, q)
    ensures p == q
  {
    if |p| < |q| {
      Overflow(lines, maxTokens, count, p, q);
      assert false;
    } else if |q| < |p| {
      Overflow(lines, maxTokens, count, q, p);
      assert false;
    }
  }

  /** Any longer prefix than a truncation is over the budget. */
  lemma Overflow(lines: seq<string>, maxTokens: int, count: string -> nat, p: seq<string>, q: seq<string>)
    requires Truncation(lines, maxTokens, count, p)
    requires |p| < |q| <= |lines| && q == lines[..|q|]
    ensures Tokens(q, count) > maxTokens
  {
    var k := |p|;
    assert q[..k + 1] == lines[..k + 1] && q[..k + 1][..k] == p;
    TokensPrefix(q, count, k + 1);
  }
}
