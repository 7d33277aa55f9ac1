/** `ContextualQueryAnalyzer.analyze_query`: the intent of a user's question and the
    shape of the answer it calls for, decided by a first-match cascade of keyword
    patterns over the lower-cased question. */
module QueryAnalyzer {
  import opened Text
  import opened Pattern

  datatype QueryType =
    | Greeting | SimpleFact | Calculation | Comparison | Explanation
    | Regulatory | Troubleshooting | Navigation | IdentifierValidation

  /** The conciseness level: "brief", "moderate" or "detailed". */
  datatype Level = Brief | Moderate | Detailed

  datatype ResponseFormat = ResponseFormat(
    concise: bool,
    detailedCalculation: bool,
    includeRegulatoryContext: bool,
    personalized: bool,
    level: Level)

  const Greetings: seq<string> :=
    ["hi", "hello", "hey", "good morning", "good afternoon", "good evening",
     "hallo", "guten morgen", "guten abend", "servus", "grüß gott"]

  const SimpleFactPatterns: seq<Regex> := [
    [["total", "consumption"], ["gesamt", "consumption"], ["verbrauch"]],
    [["invoice", "amount"], ["rechnungsbetrag"]],
    [["customer", "number"], ["kundennummer"]],
    [["how much", "did i use"], ["how much", "did i consume"], ["wieviel", "verbraucht"]],
    [["kosten", "aufschlüsseln"], ["breakdown", "cost"]]
  ]

  const CalculationPatterns: seq<Regex> := [
    [["how", "calculated"], ["calculation"], ["breakdown"], ["berechnung"], ["aufschlüsselung"]],
    [["why", "cost"], ["warum", "kostet"]],
    [["explain", "charge"], ["erkläre", "gebühr"]],
    [["show", "detail"], ["zeige", "detail"]]
  ]

  const ComparisonPatterns: seq<Regex> := [
    [["compare to"], ["compared to"], ["verglichen mit"], ["unterschied"]],
    [["last", "bill"], ["letzte", "rechnung"]],
    [["average"], ["durchschnitt"]],
    [["higher"], ["lower"], ["höher"], ["niedriger"]],
    [["€", "higher"], ["eur", "higher"], ["euro", "higher"], ["höher"]],
    [["why", "bill", "increase"], ["warum", "rechnung", "gestiegen"]]
  ]

  const NavigationPatterns: seq<Regex> := [
    [["where", "find"], ["wo", "finde"]],
    [["location", "on", "invoice"], ["stelle", "rechnung"]],
    [["section", "invoice"], ["abschnitt", "rechnung"]],
    [["how", "navigate"], ["wie", "navigiere"]]
  ]

  const ExplanationPatterns: seq<Regex> := [
    [["was ist"], ["what is"]],
    [["was bedeutet"], ["what does", "mean"]],
    [["erkläre"], ["explain"]],
    [["definition"], ["bedeutung"]]
  ]

  const BriefWords: seq<string> := ["how much", "total", "amount", "consumption", "wieviel"]
  const DetailedWords: seq<string> := ["explain", "detail", "breakdown", "why", "understand", "erkläre", "aufschlüsseln"]

  /** The level used by simple facts and the default answer: short or fact-seeking
      questions are brief, explanation-seeking ones detailed, all others moderate. */
  function ConcisenessLevel(query: string): (level: Level)
    ensures |Words(query)| <= 5 ==> level == Brief
    ensures ContainsAny(LowerStr(query), BriefWords) ==> level == Brief
    ensures level == Detailed <==>
              |Words(query)| > 5 && !ContainsAny(LowerStr(query), BriefWords) && ContainsAny(LowerStr(query), DetailedWords)
  {
    var lower := LowerStr(query);
    if |Words(query)| <= 5 || ContainsAny(lower, BriefWords) then Brief
    else if ContainsAny(lower, DetailedWords) then Detailed
    else Moderate
  }

  /** Which pattern group, if any earlier than `t` in the cascade, matches. */
  predicate IsGreeting(lower: string) { ContainsAny(lower, Greetings) }
  predicate AsksExplanation(lower: string) { SearchAny(lower, ExplanationPatterns) }
  predicate AsksNavigation(lower: string) { SearchAny(lower, NavigationPatterns) }
  predicate AsksSimpleFact(lower: string) { SearchAny(lower, SimpleFactPatterns) }
  predicate AsksCalculation(lower: string) { SearchAny(lower, CalculationPatterns) }
  predicate AsksComparison(lower: string) { SearchAny(lower, ComparisonPatterns) }

  /** `analyze_query`. */
  function AnalyzeQuery(query: string): (r: (QueryType, ResponseFormat))
    // The cascade: each type is chosen exactly when its group matches and no earlier one does.
    ensures var q := LowerStr(query);
            (r.0 == Greeting <==> IsGreeting(q)) &&
            (r.0 == Navigation <==> !IsGreeting(q) && !AsksExplanation(q) && AsksNavigation(q)) &&
            (r.0 == SimpleFact <==> !IsGreeting(q) && !AsksExplanation(q) && !AsksNavigation(q) && AsksSimpleFact(q)) &&
            (r.0 == Calculation <==>
               !IsGreeting(q) && !AsksExplanation(q) && !AsksNavigation(q) && !AsksSimpleFact(q) && AsksCalculation(q)) &&
            (r.0 == Comparison <==>
               !IsGreeting(q) && !AsksExplanation(q) && !AsksNavigation(q) && !AsksSimpleFact(q) && !AsksCalculation(q) &&
               AsksComparison(q))
    // Only these five types are produced; the others are never the outcome.
    ensures r.0 in {Greeting, Explanation, Navigation, SimpleFact, Calculation, Comparison}
    // The formats.
    ensures r.1.personalized
    ensures r.0 == Greeting ==> r.1.concise && r.1.level == Brief
    ensures r.0 in {Navigation, Calculation, Comparison} ==> r.1.level == Moderate
    ensures r.0 == SimpleFact ==> r.1.concise && r.1.level == ConcisenessLevel(query)
    ensures r.1.detailedCalculation <==> r.0 == Calculation
    ensures r.1.includeRegulatoryContext <==> r.0 == Explanation && AsksExplanation(LowerStr(query)) && !IsGreeting(LowerStr(query))
    ensures r.0 == Explanation && !AsksExplanation(LowerStr(query)) ==> r.1.level == ConcisenessLevel(query)
    ensures r.0 == Explanation && AsksExplanation(LowerStr(query)) && !IsGreeting(LowerStr(query)) ==>
              !r.1.concise && r.1.level == Moderate
    ensures r.1.concise <==>
              r.0 != Navigation && !(r.0 == Explanation && AsksExplanation(LowerStr(query)) && !IsGreeting(LowerStr(query)))
  {
    var q := LowerStr(query);
    var level := ConcisenessLevel(query);
    if IsGreeting(q) then
      (Greeting, ResponseFormat(true, false, false, true, Brief))
    else if AsksExplanation(q) then
      (Explanation, ResponseFormat(false, false, true, true, Moderate))
    else if AsksNavigation(q) then
      (Navigation, ResponseFormat(false, false, false, true, Moderate))
    else if AsksSimpleFact(q) then
      (SimpleFact, ResponseFormat(true, false, false, true, level))
    else if AsksCalculation(q) then
      (Calculation, ResponseFormat(true, true, false, true, Moderate))
    else if AsksComparison(q) then
      (Comparison, ResponseFormat(true, false, false, true, Moderate))
    else
      (Explanation, ResponseFormat(true, false, false, true, level))
  }

  /** The greeting test looks for substrings, so a word that merely contains "hi" is a greeting. */
  lemma ThisIsAGreeting()
    ensures AnalyzeQuery("this").0 == Greeting
  {
    assert LowerStr("this") == "this";
    assert OccursAt("this", "hi", 1);
    assert Contains("this", Greetings[0]);
  }

  /** A question that asks to explain something is an explanation even when it also asks
      how an amount was calculated: the explanation patterns are tried first. */
  lemma ExplainBeforeCalculation(query: string)
    requires !IsGreeting(LowerStr(query)) && Contains(LowerStr(query), "explain")
    ensures AnalyzeQuery(query).0 == Explanation
  {
    ExplainIsExplanation(LowerStr(query));
  }

  /** "explain" anywhere matches the third explanation pattern. */
  lemma ExplainIsExplanation(q: string)
    requires Contains(q, "explain")
    ensures AsksExplanation(q)
  {
    SearchLiteral(q, "explain");
    var pats := ExplanationPatterns;
    assert pats[2] == [["erkläre"], ["explain"]];
    assert SearchChain(q, pats[2][1]);
    assert Search(q, pats[2]);
  }
}
