/** `KnowledgeBaseIntegrator`: routing a question to a knowledge-base category by
    keyword scores, and ranking knowledge-base entries by how many words they share
    with the question. */
module KnowledgeBase {
  import opened Wrappers
  import opened Text

  // ---------------------------------------------------------------------------
  // Category routing

  /** The routing table: each category with its keywords, in table order. */
  type Table = seq<(string, seq<string>)>

  const CategoryKeywords: Table := [
    ("invoice_structure", ["where", "find", "section", "invoice structure", "malo-id", "obis", "locate"]),
    ("consumption", ["consumption", "usage", "kwh", "meter reading", "estimate", "verbrauch"]),
    ("pricing_components", ["price", "cost", "charge", "fee", "component", "breakdown", "tariff",
                            "konzessionsabgabe", "netzentgelt", "stromsteuer"]),
    ("payments_advances", ["payment", "advance", "installment", "abschlag", "prepayment", "verpasse", "miss"]),
    ("payments_credits", ["credit", "balance", "refund", "guthaben"]),
    ("late_billing", ["late", "delayed", "overdue", "verspätet"]),
    ("regulatory_changes", ["regulation", "law", "changes", "eeg", "reform"]),
    ("contract_terms", ["contract", "term", "agreement", "vertrag"]),
    ("disputes_complaints", ["dispute", "complaint", "wrong", "error", "fehler"]),
    ("calculations_examples", ["calculate", "formula", "example", "berechnung"]),
    ("bonuses_discounts", ["bonus", "discount", "neukunden", "cashback", "rabatt"]),
    ("meter_operations", ["meter", "reading", "zähler", "ablesung"]),
    ("energy_efficiency", ["efficiency", "save", "reduce", "sparen"]),
    ("green_energy_options", ["green", "renewable", "ökostrom", "solar"]),
    ("taxes_and_vat", ["tax", "vat", "mwst", "steuer"]),
    ("special_customer_situations", ["move", "umzug", "special", "hardship"]),
    ("consumer_rights", ["rights", "protection", "verbraucherschutz"]),
    ("dispute_resolution", ["resolution", "mediation", "schlichtung"]),
    ("energy_transition", ["transition", "energiewende", "future"]),
    ("comparisons_graphs", ["graph", "chart", "compare", "vergleich"]),
    ("energy_price_brake", ["price brake", "preisbremse", "cap", "relief"])
  ]

  const Miscellaneous := "miscellaneous"

  /** How many of the keywords occur in the question. */
  function KeywordHits(q: string, keywords: seq<string>): (n: nat)
    ensures n <= |keywords|
  {
    if keywords == [] then 0
    else KeywordHits(q, keywords[..|keywords| - 1]) + (if Contains(q, keywords[|keywords| - 1]) then 1 else 0)
  }

  /** A category's score: 2 per keyword present, plus 5 when the category's own name,
      with underscores read as spaces, occurs in the question. */
  function Score(q: string, entry: (string, seq<string>)): nat {
    2 * KeywordHits(q, entry.1) + (if Contains(q, ReplaceChar(entry.0, '_', ' ')) then 5 else 0)
  }

  /** The `scores` dictionary: the categories with a positive score, in table order. */
  function PositiveScores(q: string, table: Table): (r: seq<(string, nat)>)
    ensures |r| <= |table|
  {
    if table == [] then []
    else
      var last := table[|table| - 1];
      PositiveScores(q, table[..|table| - 1]) + (if Score(q, last) > 0 then [(last.0, Score(q, last))] else [])
  }

  /** `max(scores, key=scores.get)`: the first entry with the largest score. */
  predicate IsFirstMax(scores: seq<(string, nat)>, i: int) {
    0 <= i < |scores| &&
    (forall j :: 0 <= j < |scores| ==> scores[j].1 <= scores[i].1) &&
    (forall j :: 0 <= j < i ==> scores[j].1 < scores[i].1)
  }

  /** The position of the first largest score. */
  function FirstMaxIndex(scores: seq<(string, nat)>): (i: nat)
    requires scores != []
    ensures IsFirstMax(scores, i)
  {
    if |scores| == 1 then 0
    else
      var b := FirstMaxIndex(scores[..|scores| - 1]);
      if scores[|scores| - 1].1 > scores[b].1 then |scores| - 1 else b
  }

  /** Only one position is the first largest score. */
  lemma FirstMaxUnique(scores: seq<(string, nat)>, i: int, j: int)
    requires IsFirstMax(scores, i) && IsFirstMax(scores, j)
    ensures i == j
  {
    assert scores[i].1 == scores[j].1;
  }

  /** The category `get_category_for_query` routes the lower-cased question `q` to: the
      first category with the highest positive score, or 'miscellaneous' when none scores. */
  function PrimaryCategory(q: string): (c: string)
    ensures PositiveScores(q, CategoryKeywords) == [] ==> c == Miscellaneous
    ensures var scores := PositiveScores(q, CategoryKeywords);
            scores != [] ==> forall i :: IsFirstMax(scores, i) ==> c == scores[i].0
  {
    var scores := PositiveScores(q, CategoryKeywords);
    if scores == [] then Miscellaneous
    else
      var best := FirstMaxIndex(scores);
      assert forall i :: IsFirstMax(scores, i) ==> i == best by {
        forall i | IsFirstMax(scores, i) ensures i == best { FirstMaxUnique(scores, i, best); }
      }
      scores[best].0
  }

  /** The scoring loop of `get_category_for_query`: the `scores` dictionary. */
  method ScoreCategories(q: string, table: Table) returns (scores: seq<(string, nat)>)
    ensures scores == PositiveScores(q, table)
  {
    scores := [];
    var i := 0;
    while i < |table|
      invariant 0 <= i <= |table|
      invariant scores == PositiveScores(q, table[..i])
    {
      assert table[..i + 1][..i] == table[..i];
      var name := table[i].0;
      var keywords := table[i].1;
      var score := 0;
      var k := 0;
      while k < |keywords|
        invariant 0 <= k <= |keywords|
        invariant score == 2 * KeywordHits(q, keywords[..k])
      {
        assert keywords[..k + 1][..k] == keywords[..k];
        if Contains(q, keywords[k]) {
          score := score + 2;
        }
        k := k + 1;
      }
      assert keywords[..k] == keywords;
      if Contains(q, ReplaceChar(name, '_', ' ')) {
        score := score + 5;
      }
      if score > 0 {
        scores := scores + [(name, score)];
      }
      i := i + 1;
    }
    assert table[..i] == table;
  }

  /** `max(scores, key=scores.get)` over a non-empty dictionary. */
  method FirstMax(scores: seq<(string, nat)>) returns (best: nat)
    requires scores != []
    ensures IsFirstMax(scores, best)
    ensures best == FirstMaxIndex(scores)
  {
    best := 0;
    var j := 1;
    while j < |scores|
      invariant 1 <= j <= |scores| && 0 <= best < j
      invariant forall m :: 0 <= m < j ==> scores[m].1 <= scores[best].1
      invariant forall m :: 0 <= m < best ==> scores[m].1 < scores[best].1
    {
      if scores[j].1 > scores[best].1 {
        best := j;
      }
      j := j + 1;
    }
    FirstMaxUnique(scores, best, FirstMaxIndex(scores));
  }

  /** `get_category_for_query`. */
  method CategoryForQuery(query: string) returns (category: string)
    ensures PositiveScores(LowerStr(query), CategoryKeywords) == [] ==> category == Miscellaneous
    ensures var scores := PositiveScores(LowerStr(query), CategoryKeywords);
            scores != [] ==> exists i :: IsFirstMax(scores, i) && category == scores[i].0
    ensures category == PrimaryCategory(LowerStr(query))
  {
    var scores := ScoreCategories(LowerStr(query), CategoryKeywords);
    if scores == [] {
      return Miscellaneous;
    }
    var best := FirstMax(scores);
    category := scores[best].0;
  }

  /** Every entry of the scores dictionary is a category of the table with its own,
      positive, score. */
  lemma {:induction false} PositiveScoresFrom(q: string, table: Table)
    ensures forall k :: 0 <= k < |PositiveScores(q, table)| ==> PositiveScores(q, table)[k].1 > 0
    ensures forall k :: 0 <= k < |PositiveScores(q, table)| ==>
              exists i :: 0 <= i < |table| && PositiveScores(q, table)[k] == (table[i].0, Score(q, table[i]))
  {
    if table != [] {
      var init, last := table[..|table| - 1], table[|table| - 1];
      PositiveScoresFrom(q, init);
      var r0 := PositiveScores(q, init);
      var r := PositiveScores(q, table);
      assert r == r0 + (if Score(q, last) > 0 then [(last.0, Score(q, last))] else []);
      forall k | 0 <= k < |r|
        ensures exists i :: 0 <= i < |table| && r[k] == (table[i].0, Score(q, table[i]))
      {
        if k < |r0| {
          var i :| 0 <= i < |init| && r0[k] == (init[i].0, Score(q, init[i]));
          assert init[i] == table[i];
          assert r[k] == (table[i].0, Score(q, table[i]));
        } else {
          assert r[k] == (table[|table| - 1].0, Score(q, table[|table| - 1]));
        }
      }
    } else {
      assert PositiveScores(q, table) == [];
    }
  }

  /** The scores dictionary is empty exactly when no category scores. */
  lemma {:induction false} PositiveScoresEmpty(q: string, table: Table)
    ensures PositiveScores(q, table) == [] <==> forall i :: 0 <= i < |table| ==> Score(q, table[i]) == 0
  {
    if table != [] {
      var init, last := table[..|table| - 1], table[|table| - 1];
      PositiveScoresEmpty(q, init);
      assert PositiveScores(q, table) ==
             PositiveScores(q, init) + (if Score(q, last) > 0 then [(last.0, Score(q, last))] else []);
      assert forall i :: 0 <= i < |init| ==> init[i] == table[i];
      if forall i :: 0 <= i < |table| ==> Score(q, table[i]) == 0 {
        assert forall i :: 0 <= i < |init| ==> Score(q, init[i]) == 0;
        assert Score(q, table[|table| - 1]) == 0;
      }
    }
  }

  // ---------------------------------------------------------------------------
  // Ranking knowledge-base entries

  /** A knowledge-base entry: `input_en`, `response_de`, ... */
  type KbItem = map<string, string>

  /** The knowledge base: each category with its entries, in file order (names are unique). */
  type Categories = seq<(string, seq<KbItem>)>

  /** The entries of every category, category by category, in order. */
  function AllItems(cats: Categories): seq<KbItem> {
    if cats == [] then [] else cats[0].1 + AllItems(cats[1..])
  }

  datatype Relevance = High | Medium | Low

  /** One entry of the context handed to the prompt builder. */
  datatype ContextItem = ContextItem(query: string, response: string, category: string, relevance: Relevance, score: nat)

  function InputKey(language: string): string { "input_" + language }
  function ResponseKey(language: string): string { "response_" + language }

  /** Words the question and an entry's text share, as sets. */
  function Overlap(q: string, itemLower: string): nat {
    |WordSet(q) * WordSet(itemLower)|
  }

  /** The primary category's verdict on one entry. */
  function PrimaryHit(q: string, language: string, category: string, item: KbItem): Option<ContextItem> {
    var key := InputKey(language);
    if key !in item then None
    else
      var text := LowerStr(item[key]);
      var boost := if Contains(q, "konzessionsabgabe") && Contains(text, "konzessionsabgabe") then 10 else 0;
      var overlap := Overlap(q, text) + boost;
      if overlap > 2 || Contains(q, BeforeFirst(text, '?')) then
        Some(ContextItem(item[key], if ResponseKey(language) in item then item[ResponseKey(language)] else "",
                         category, if overlap > 3 then High else Medium, overlap))
      else None
  }

  /** Another category's verdict on one entry. */
  function BackfillHit(q: string, language: string, category: string, item: KbItem): Option<ContextItem> {
    var key := InputKey(language);
    if key !in item then None
    else
      var overlap := Overlap(q, LowerStr(item[key]));
      if overlap > 1 then
        Some(ContextItem(item[key], if ResponseKey(language) in item then item[ResponseKey(language)] else "",
                         category, if overlap > 2 then Medium else Low, overlap))
      else None
  }

  function Hit(q: string, language: string, category: string, item: KbItem, primary: bool): Option<ContextItem> {
    if primary then PrimaryHit(q, language, category, item) else BackfillHit(q, language, category, item)
  }

  /** The verdict on each entry of one category, in order. */
  function HitList(q: string, language: string, category: string, items: seq<KbItem>, primary: bool)
    : (r: seq<Option<ContextItem>>)
    ensures |r| == |items| && forall i :: 0 <= i < |items| ==> r[i] == Hit(q, language, category, items[i], primary)
  {
    seq(|items|, i requires 0 <= i < |items| => Hit(q, language, category, items[i], primary))
  }

  /** The values present in a list of options, in order. */
  function Kept<T>(opts: seq<Option<T>>): seq<T> {
    if opts == [] then []
    else
      var last := opts[|opts| - 1];
      Kept(opts[..|opts| - 1]) + (if last.Some? then [last.value] else [])
  }

  lemma KeptStep<T>(opts: seq<Option<T>>, k: nat)
    requires k < |opts|
    ensures Kept(opts[..k + 1]) == Kept(opts[..k]) + (if opts[k].Some? then [opts[k].value] else [])
  {
    assert opts[..k + 1][..k] == opts[..k];
  }

  /** Every kept value was present. */
  lemma {:induction false} KeptPresent<T>(opts: seq<Option<T>>)
    ensures forall x :: x in Kept(opts) ==> Some(x) in opts
  {
    if opts != [] {
      var init := opts[..|opts| - 1];
      KeptPresent(init);
      assert forall o :: o in init ==> o in opts;
    }
  }

  /** The entries of one category that the pass keeps, in order. */
  function Hits(q: string, language: string, category: string, items: seq<KbItem>, primary: bool): seq<ContextItem> {
    Kept(HitList(q, language, category, items, primary))
  }

  function LookupCategory(cats: Categories, name: string): Option<seq<KbItem>> {
    if cats == [] then None
    else if cats[0].0 == name then Some(cats[0].1)
    else LookupCategory(cats[1..], name)
  }

  /** Entries from every category other than the primary one, in knowledge-base order. */
  function BackfillHits(q: string, language: string, primary: string, cats: Categories): seq<ContextItem> {
    if cats == [] then []
    else
      var last := cats[|cats| - 1];
      BackfillHits(q, language, primary, cats[..|cats| - 1]) +
        (if last.0 == primary then [] else Hits(q, language, last.0, last.1, false))
  }

  /** The entries collected before sorting. */
  function Candidates(q: string, language: string, primary: string, cats: Categories, maxItems: int): seq<ContextItem> {
    var first := PrimaryHits(q, language, primary, cats);
    first + (if |first| < maxItems then BackfillHits(q, language, primary, cats) else [])
  }

  /** Entries kept from the primary category, if the knowledge base has it. */
  function PrimaryHits(q: string, language: string, primary: string, cats: Categories): seq<ContextItem> {
    match LookupCategory(cats, primary)
    case Some(items) => Hits(q, language, primary, items, true)
    case None => []
  }

  // ---------------------------------------------------------------------------
  // Stable sort by score, highest first

  /** Insert `x` before the first element that does not score higher. */
  function Insert(x: ContextItem, s: seq<ContextItem>): seq<ContextItem> {
    if s == [] || s[0].score <= x.score then [x] + s else [s[0]] + Insert(x, s[1..])
  }

  /** `items.sort(key=score, reverse=True)`. */
  function SortByScore(s: seq<ContextItem>): seq<ContextItem> {
    if s == [] then [] else Insert(s[0], SortByScore(s[1..]))
  }

  predicate SortedByScore(s: seq<ContextItem>) {
    forall i, j :: 0 <= i < j < |s| ==> s[i].score >= s[j].score
  }

  /** The elements with a given score, in order. */
  function WithScore(s: seq<ContextItem>, v: nat): seq<ContextItem> {
    if s == [] then [] else (if s[0].score == v then [s[0]] else []) + WithScore(s[1..], v)
  }

  lemma {:induction false} InsertMultiset(x: ContextItem, s: seq<ContextItem>)
    ensures multiset(Insert(x, s)) == multiset(s) + multiset{x}
  {
    if s != [] && s[0].score > x.score {
      InsertMultiset(x, s[1..]);
      assert s == [s[0]] + s[1..];
    }
  }

  lemma {:induction false} InsertSorted(x: ContextItem, s: seq<ContextItem>)
    requires SortedByScore(s)
    ensures SortedByScore(Insert(x, s))
  {
    if s != [] && s[0].score > x.score {
      InsertSorted(x, s[1..]);
      InsertMultiset(x, s[1..]);
      var r := Insert(x, s[1..]);
      forall j | 0 <= j < |r|
        ensures s[0].score >= r[j].score
      {
        assert r[j] in multiset(s[1..]) + multiset{x};
      }
    }
  }

  lemma {:induction false} InsertStable(x: ContextItem, s: seq<ContextItem>, v: nat)
    ensures WithScore(Insert(x, s), v) == WithScore([x] + s, v)
  {
    if s != [] && s[0].score > x.score {
      InsertStable(x, s[1..], v);
      var r := Insert(x, s[1..]);
      assert ([s[0]] + r)[1..] == r;
      assert ([x] + s)[1..] == s;
      assert ([x] + s[1..])[1..] == s[1..];
    }
  }

  /** The sort orders by score, keeps every entry, and keeps entries of equal score in
      their original order. */
  lemma {:induction false} SortByScoreFacts(s: seq<ContextItem>)
    ensures SortedByScore(SortByScore(s))
    ensures multiset(SortByScore(s)) == multiset(s)
    ensures forall v :: WithScore(SortByScore(s), v) == WithScore(s, v)
  {
    if s != [] {
      var rest := SortByScore(s[1..]);
      SortByScoreFacts(s[1..]);
      InsertSorted(s[0], rest);
      InsertMultiset(s[0], rest);
      assert s == [s[0]] + s[1..];
      forall v
        ensures WithScore(SortByScore(s), v) == WithScore(s, v)
      {
        InsertStable(s[0], rest, v);
        assert ([s[0]] + rest)[1..] == rest;
      }
    }
  }

  /** `items[:n]` for any integer `n`: a negative bound drops that many from the end. */
  function PyPrefix<T>(s: seq<T>, n: int): (r: seq<T>)
    ensures n >= 0 ==> |r| == if n <= |s| then n else |s|
    ensures n < 0 ==> |r| == if |s| + n >= 0 then |s| + n else 0
    ensures r == s[..|r|]
  {
    if n >= 0 then (if n <= |s| then s[..n] else s)
    else (if |s| + n >= 0 then s[..|s| + n] else [])
  }

  // ---------------------------------------------------------------------------
  // find_relevant_context

  /** The entries the search would return, as a specification. */
  function RelevantContext(q: string, language: string, primary: string, cats: Categories, maxItems: int): seq<ContextItem> {
    PyPrefix(SortByScore(Candidates(q, language, primary, cats, maxItems)), maxItems)
  }

  /** The inner loop over one category's entries. */
  method CollectHits(q: string, language: string, category: string, items: seq<KbItem>, primary: bool,
                     found0: seq<ContextItem>) returns (found: seq<ContextItem>)
    ensures found == found0 + Hits(q, language, category, items, primary)
  {
    ghost var verdicts := HitList(q, language, category, items, primary);
    found := found0;
    var k := 0;
    while k < |items|
      invariant 0 <= k <= |items|
      invariant found == found0 + Kept(verdicts[..k])
    {
      var hit := Hit(q, language, category, items[k], primary);
      assert hit == verdicts[k];
      KeptStep(verdicts, k);
      if hit.Some? {
        found := found + [hit.value];
      }
      k := k + 1;
    }
    assert verdicts[..k] == verdicts;
  }

  /** The pass over the other categories. */
  method CollectBackfill(q: string, language: string, primary: string, cats: Categories, found0: seq<ContextItem>)
    returns (found: seq<ContextItem>)
    ensures found == found0 + BackfillHits(q, language, primary, cats)
  {
    found := found0;
    var i := 0;
    while i < |cats|
      invariant 0 <= i <= |cats|
      invariant found == found0 + BackfillHits(q, language, primary, cats[..i])
    {
      assert cats[..i + 1][..i] == cats[..i];
      if cats[i].0 != primary {
        found := CollectHits(q, language, cats[i].0, cats[i].1, false, found);
      }
      i := i + 1;
    }
    assert cats[..i] == cats;
  }

  /** `find_relevant_context`, with the knowledge base as a parameter. */
  method FindRelevantContext(query: string, language: string, cats: Categories, maxItems: int)
    returns (result: seq<ContextItem>)
    ensures result == RelevantContext(LowerStr(query), language, PrimaryCategory(LowerStr(query)), cats, maxItems)
  {
    var q := LowerStr(query);
    var primary := CategoryForQuery(query);
    var found: seq<ContextItem> := [];
    var items := LookupCategory(cats, primary);
    if items.Some? {
      found := CollectHits(q, language, primary, items.value, true, found);
    }
    assert found == PrimaryHits(q, language, primary, cats);
    if |found| < maxItems {
      found := CollectBackfill(q, language, primary, cats, found);
    } else {
      assert found == found + [];
    }
    result := PyPrefix(SortByScore(found), maxItems);
    assert result == RelevantContext(q, language, primary, cats, maxItems);
  }

  /** What the search returns: at most `maxItems` entries, highest score first, each one
      a collected candidate. */
  lemma RelevantContextFacts(q: string, language: string, primary: string, cats: Categories, maxItems: int)
    ensures var r := RelevantContext(q, language, primary, cats, maxItems);
            (maxItems >= 0 ==> |r| <= maxItems) &&
            SortedByScore(r) &&
            multiset(r) <= multiset(Candidates(q, language, primary, cats, maxItems))
  {
    var c := Candidates(q, language, primary, cats, maxItems);
    var s := SortByScore(c);
    SortByScoreFacts(c);
    var r := PyPrefix(s, maxItems);
    assert s == r + s[|r|..];
    assert multiset(s) == multiset(r) + multiset(s[|r|..]);
  }

  /** Every collected entry is one the relevance rules admit: a primary-category entry that
      overlaps in more than two words or whose question opens the user's question, or an
      entry of another category that overlaps in more than one word. */
  lemma HitsAreAdmitted(q: string, language: string, category: string, items: seq<KbItem>, primary: bool)
    ensures forall k :: 0 <= k < |Hits(q, language, category, items, primary)| ==>
              var h := Hits(q, language, category, items, primary)[k];
              h.category == category &&
              (exists item :: item in items && InputKey(language) in item && h.query == item[InputKey(language)]) &&
              (primary ==> h.score > 2 || Contains(q, BeforeFirst(LowerStr(h.query), '?'))) &&
              (!primary ==> h.score > 1 && h.relevance != High)
  {
    var verdicts := HitList(q, language, category, items, primary);
    KeptPresent(verdicts);
    forall k | 0 <= k < |Kept(verdicts)|
      ensures var h := Kept(verdicts)[k];
              h.category == category &&
              (exists item :: item in items && InputKey(language) in item && h.query == item[InputKey(language)]) &&
              (primary ==> h.score > 2 || Contains(q, BeforeFirst(LowerStr(h.query), '?'))) &&
              (!primary ==> h.score > 1 && h.relevance != High)
    {
      var h := Kept(verdicts)[k];
      assert Some(h) in verdicts;
      var j :| 0 <= j < |items| && verdicts[j] == Some(h);
      HitAdmitted(q, language, category, items[j], primary, h);
    }
  }

  /** The rules one admitted entry satisfies. */
  lemma HitAdmitted(q: string, language: string, category: string, item: KbItem, primary: bool, h: ContextItem)
    requires Hit(q, language, category, item, primary) == Some(h)
    ensures h.category == category && InputKey(language) in item && h.query == item[InputKey(language)]
    ensures primary ==> h.score > 2 || Contains(q, BeforeFirst(LowerStr(h.query), '?'))
    ensures !primary ==> h.score > 1 && h.relevance != High
  {
  }
}
