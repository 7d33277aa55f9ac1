/** `build_contextual_prompt`: the instructions handed to the language model for one
    question about one invoice.  The prompt is modelled as the sequence of its blocks,
    each carrying the values it shows; the wording and the number formatting of the
    blocks are not modelled. */
module ContextualPrompt {
  import opened Wrappers
  import opened Text
  import opened Json
  import opened Errors
  import opened InvoiceAnalyzer
  import opened QueryAnalyzer
  import opened KnowledgeBase
  import Cmp = Comparison

  /** The two languages the prompt is written in. */
  datatype Lang = En | De

  /** The language table lookup: any other code raises `KeyError`. */
  function LangOf(language: string): Result<Lang, PyError> {
    if language == "en" then Ok(En)
    else if language == "de" then Ok(De)
    else Err(KeyError(language))
  }

  /** Exactly "en" and "de" are known; the error names the code. */
  lemma LangCodes(language: string)
    ensures LangOf(language) == Ok(En) <==> language == "en"
    ensures LangOf(language) == Ok(De) <==> language == "de"
    ensures LangOf(language).Err? <==> language != "en" && language != "de"
    ensures LangOf(language).Err? ==> LangOf(language).error == KeyError(language)
  {
  }

  datatype Block =
    | Header(salutation: string, customerName: string, invoiceNumber: string, periodFrom: string, periodTo: string,
             amount: real, consumption: real, zeroConsumption: bool, workingPrice: real,
             baseNet: real, baseGross: real, levies: map<Levy, real>, style: Level)
    | InvoiceBreakdown(net: real, tax: real, bonus: real, breakdown: Breakdown)
    | ZeroConsumptionNote
    | KwkgNote(kwkg: real)
    | WorkingPriceNote(price: real)
    | BasePriceNote(net: real, gross: real)
    | ConcessionNote(concession: real)
    | KnowledgeHeader
    | KnowledgeLine(response: string)
    | CostBreakdownNote(net: real, tax: real, bonus: real, total: real)
    | ComparisonNote(previous: real, current: real, difference: real, percent: real, reason: Option<Cmp.Reason>)
    | QueryLine(query: string)

  datatype Prompt = Prompt(lang: Lang, blocks: seq<Block>)

  /** How the customer is addressed: in English "frau" and "herr" (in any case) become
      "Ms." and "Mr." and anything else "Dear"; in German the stored salutation is used. */
  function Salutation(lang: Lang, raw: string): string {
    if lang == De then raw
    else if LowerStr(raw) == "frau" then "Ms."
    else if LowerStr(raw) == "herr" then "Mr."
    else "Dear"
  }

  /** German keeps the stored salutation; English knows two and falls back to "Dear". */
  lemma SalutationCases(lang: Lang, raw: string)
    ensures lang == De ==> Salutation(lang, raw) == raw
    ensures lang == En ==> Salutation(lang, raw) in {"Ms.", "Mr.", "Dear"}
    ensures lang == En ==> (Salutation(lang, raw) == "Ms." <==> LowerStr(raw) == "frau")
    ensures lang == En ==> (Salutation(lang, raw) == "Mr." <==> LowerStr(raw) == "herr")
  {
  }

  /** The name shown: first and last name joined by a space, stripped. */
  function CustomerName(a: Analyzer): string {
    Strip(TextAt(a.partnerData, "firstName") + " " + TextAt(a.partnerData, "name"))
  }

  /** Whether some knowledge-base hit is highly relevant. */
  predicate AnyHigh(kb: seq<ContextItem>) {
    exists k :: 0 <= k < |kb| && kb[k].relevance == High
  }

  /** The responses of the highly relevant hits among the first two, in order. */
  function HighResponses(kb: seq<ContextItem>): (r: seq<string>)
    ensures forall s :: s in r <==> exists k :: 0 <= k < |kb| && k < 2 && kb[k].relevance == High && kb[k].response == s
    ensures |r| <= 2
  {
    var first := if |kb| >= 1 && kb[0].relevance == High then [kb[0].response] else [];
    var second := if |kb| >= 2 && kb[1].relevance == High then [kb[1].response] else [];
    first + second
  }

  /** The percentage change shown in the comparison block; division by a previous amount
      of zero raises. */
  function ChangePercent(previous: real, difference: real): (r: Result<real, PyError>)
    ensures r.Err? <==> previous == 0.0
    ensures r.Err? ==> r.error == ZeroDivisionError
    ensures r.Ok? ==> r.value * previous == difference * 100.0
  {
    if previous == 0.0 then Err(ZeroDivisionError) else Ok(difference / previous * 100.0)
  }

  /** The comparison block is added for a comparison question with a previous invoice,
      unless the cost-breakdown block was (the two are alternatives). */
  predicate ComparisonShown(qt: QueryType, comparison: Option<Cmp.Outcome>) {
    qt == QueryType.Comparison && comparison.Some? && comparison.value.Found?
  }

  predicate CostBreakdownShown(query: string, qt: QueryType) {
    qt == SimpleFact && Contains(LowerStr(query), "aufschlüsseln")
  }

  /** The header: who the customer is and the invoice's facts and tariff. */
  function HeaderOf(lang: Lang, a: Analyzer, style: Level): (r: Block)
    ensures r.Header?
  {
    Header(Salutation(lang, TextAt(a.partnerData, "salutation")), CustomerName(a), InvoiceNumber(a),
           TotalConsumption(a).1, TotalConsumption(a).2, InvoiceAmount(a), TotalConsumption(a).0,
           IsZeroConsumptionBill(a), WorkingPrice(a), BaseNet(a.billingItems), NumberAt(a.processData, "currentBasePrice"),
           LevyTable(AllDetails(a.billingItems)), style)
  }

  /** The breakdown of the invoice amount and of the cost categories. */
  function BreakdownOf(a: Analyzer): (r: Block)
    ensures r.InvoiceBreakdown?
  {
    InvoiceBreakdown(NetAmount(a), TaxAmount(a), BonusAmount(a),
                     Breakdown(LastInCategory(a.costBlocks, GridAndMetering), LastInCategory(a.costBlocks, TaxesAndLevies),
                               LastInCategory(a.costBlocks, EnergySupply), BonusAmount(a)))
  }

  /** Which terms the (lower-cased) question mentions. */
  datatype Mentions = Mentions(kwkg: bool, workingPrice: bool, basePrice: bool, concession: bool)

  function MentionsOf(q: string): (m: Mentions)
    ensures m.kwkg <==> Contains(q, "kwkg")
    ensures m.workingPrice <==> Contains(q, "working price") || Contains(q, "arbeitspreis")
    ensures m.basePrice <==> Contains(q, "base price") || Contains(q, "grundpreis")
    ensures m.concession <==> Contains(q, "konzessionsabgabe")
  {
    Mentions(Contains(q, "kwkg"), Contains(q, "working price") || Contains(q, "arbeitspreis"),
             Contains(q, "base price") || Contains(q, "grundpreis"), Contains(q, "konzessionsabgabe"))
  }

  /** The notes on a zero-consumption bill and on the terms the question mentions. */
  function TopicNotes(zero: bool, m: Mentions, levies: map<Levy, real>, workingPrice: real, baseNet: real, baseGross: real)
    : (r: seq<Block>)
    requires Kwkg in levies && Concession in levies
    ensures forall k :: 0 <= k < |r| ==> IsNote(r[k])
  {
    NoteIf(zero, ZeroConsumptionNote) +
    NoteIf(m.kwkg, KwkgNote(levies[Kwkg])) +
    NoteIf(m.workingPrice, WorkingPriceNote(workingPrice)) +
    NoteIf(m.basePrice, BasePriceNote(baseNet, baseGross)) +
    NoteIf(m.concession, ConcessionNote(levies[Concession]))
  }

  /** Each note is written exactly when its condition holds. */
  lemma TopicNotesWhen(zero: bool, m: Mentions, levies: map<Levy, real>, workingPrice: real, baseNet: real, baseGross: real)
    requires Kwkg in levies && Concession in levies
    ensures var r := TopicNotes(zero, m, levies, workingPrice, baseNet, baseGross);
            (ZeroConsumptionNote in r <==> zero) &&
            (KwkgNote(levies[Kwkg]) in r <==> m.kwkg) &&
            (WorkingPriceNote(workingPrice) in r <==> m.workingPrice) &&
            (BasePriceNote(baseNet, baseGross) in r <==> m.basePrice) &&
            (ConcessionNote(levies[Concession]) in r <==> m.concession)
  {
  }

  /** No other note is written, and none with other figures. */
  lemma TopicNotesOnly(zero: bool, m: Mentions, levies: map<Levy, real>, workingPrice: real, baseNet: real, baseGross: real)
    requires Kwkg in levies && Concession in levies
    ensures var r := TopicNotes(zero, m, levies, workingPrice, baseNet, baseGross);
            forall k :: 0 <= k < |r| ==>
              r[k] in [ZeroConsumptionNote, KwkgNote(levies[Kwkg]), WorkingPriceNote(workingPrice),
                       BasePriceNote(baseNet, baseGross), ConcessionNote(levies[Concession])]
  {
    var allowed := [ZeroConsumptionNote, KwkgNote(levies[Kwkg]), WorkingPriceNote(workingPrice),
                    BasePriceNote(baseNet, baseGross), ConcessionNote(levies[Concession])];
    OnlyAllowed(NoteIf(zero, allowed[0]), NoteIf(m.kwkg, allowed[1]), NoteIf(m.workingPrice, allowed[2]),
                NoteIf(m.basePrice, allowed[3]), NoteIf(m.concession, allowed[4]), allowed);
  }

  /** Five lists whose blocks are all among `allowed` make one such list. */
  lemma OnlyAllowed(n0: seq<Block>, n1: seq<Block>, n2: seq<Block>, n3: seq<Block>, n4: seq<Block>,
                    allowed: seq<Block>)
    requires forall k :: 0 <= k < |n0| ==> n0[k] in allowed
    requires forall k :: 0 <= k < |n1| ==> n1[k] in allowed
    requires forall k :: 0 <= k < |n2| ==> n2[k] in allowed
    requires forall k :: 0 <= k < |n3| ==> n3[k] in allowed
    requires forall k :: 0 <= k < |n4| ==> n4[k] in allowed
    ensures forall k :: 0 <= k < |n0 + n1 + n2 + n3 + n4| ==> (n0 + n1 + n2 + n3 + n4)[k] in allowed
  {
    forall k | 0 <= k < |n0 + n1 + n2 + n3 + n4|
      ensures (n0 + n1 + n2 + n3 + n4)[k] in allowed
    {
      var x := (n0 + n1 + n2 + n3 + n4)[k];
      assert x in n0 || x in n1 || x in n2 || x in n3 || x in n4;
    }
  }

  /** A note that is written only under a condition. */
  function NoteIf(cond: bool, note: Block): (r: seq<Block>)
    ensures note in r <==> cond
    ensures forall k :: 0 <= k < |r| ==> r[k] == note
  {
    if cond then [note] else []
  }

  /** The knowledge-base part: a heading and the highly relevant responses among the
      first two hits, when any hit at all is highly relevant. */
  function KnowledgeSection(kb: seq<ContextItem>): (r: seq<Block>)
    ensures KnowledgeHeader in r <==> AnyHigh(kb)
    ensures forall s :: KnowledgeLine(s) in r <==> AnyHigh(kb) && s in HighResponses(kb)
    ensures forall k :: 0 <= k < |r| ==> IsKnowledge(r[k])
  {
    if AnyHigh(kb) then [KnowledgeHeader] + Lines(HighResponses(kb)) else []
  }

  function Lines(responses: seq<string>): (r: seq<Block>)
    ensures |r| == |responses| && forall k :: 0 <= k < |r| ==> r[k] == KnowledgeLine(responses[k])
  {
    seq(|responses|, k requires 0 <= k < |responses| => KnowledgeLine(responses[k]))
  }

  /** The closing block: the cost breakdown for a simple-fact question asking for it,
      else the comparison for a comparison question with a previous invoice. */
  function Closing(query: string, qt: QueryType, a: Analyzer, comparison: Option<Cmp.Outcome>): (r: Result<seq<Block>, PyError>)
    ensures r.Err? <==> !CostBreakdownShown(query, qt) && ComparisonShown(qt, comparison) && comparison.value.previousAmount == 0.0
    ensures r.Err? ==> r.error == ZeroDivisionError
    ensures r.Ok? && CostBreakdownShown(query, qt) ==>
              r.value == [CostBreakdownNote(NetAmount(a), TaxAmount(a), BonusAmount(a), InvoiceAmount(a))]
    ensures r.Ok? && ComparisonShown(qt, comparison) ==>
              var o := comparison.value;
              r.value == [ComparisonNote(o.previousAmount, o.currentAmount, o.difference,
                                         ChangePercent(o.previousAmount, o.difference).value,
                                         if o.reasons == [] then None else Some(o.reasons[0]))]
    ensures r.Ok? && !CostBreakdownShown(query, qt) && !ComparisonShown(qt, comparison) ==> r.value == []
    ensures r.Ok? ==> forall k :: 0 <= k < |r.value| ==> IsClosing(r.value[k])
  {
    if CostBreakdownShown(query, qt) then Ok([CostBreakdownNote(NetAmount(a), TaxAmount(a), BonusAmount(a), InvoiceAmount(a))])
    else if ComparisonShown(qt, comparison) then
      var o := comparison.value;
      match ChangePercent(o.previousAmount, o.difference)
      case Err(e) => Err(e)
      case Ok(percent) =>
        Ok([ComparisonNote(o.previousAmount, o.currentAmount, o.difference, percent,
                           if o.reasons == [] then None else Some(o.reasons[0]))])
    else Ok([])
  }

  /** The notes for a question about an invoice. */
  function NotesOf(query: string, a: Analyzer): (r: seq<Block>)
    ensures forall k :: 0 <= k < |r| ==> IsNote(r[k])
  {
    TopicNotes(IsZeroConsumptionBill(a), MentionsOf(LowerStr(query)), LevyTable(AllDetails(a.billingItems)),
               WorkingPrice(a), BaseNet(a.billingItems), NumberAt(a.processData, "currentBasePrice"))
  }

  predicate IsNote(x: Block) {
    x.ZeroConsumptionNote? || x.KwkgNote? || x.WorkingPriceNote? || x.BasePriceNote? || x.ConcessionNote?
  }

  predicate IsKnowledge(x: Block) {
    x.KnowledgeHeader? || x.KnowledgeLine?
  }

  predicate IsClosing(x: Block) {
    x.CostBreakdownNote? || x.ComparisonNote?
  }

  /** The prompt's parts in their order: header, notes, knowledge, closing, question. */
  function Assemble(lang: Lang, head: seq<Block>, notes: seq<Block>, knowledge: seq<Block>, closing: seq<Block>,
                    query: string): Prompt {
    Prompt(lang, head + notes + knowledge + closing + [QueryLine(query)])
  }

  /** Notes and knowledge blocks appear in the prompt exactly when they appear in their part. */
  lemma AssembleMembers(lang: Lang, h0: Block, h1: Block, notes: seq<Block>, knowledge: seq<Block>, closing: seq<Block>,
                        query: string)
    requires h0.Header? && h1.InvoiceBreakdown?
    requires forall k :: 0 <= k < |notes| ==> IsNote(notes[k])
    requires forall k :: 0 <= k < |knowledge| ==> IsKnowledge(knowledge[k])
    requires forall k :: 0 <= k < |closing| ==> IsClosing(closing[k])
    ensures var b := Assemble(lang, [h0, h1], notes, knowledge, closing, query).blocks;
            (forall x :: IsNote(x) ==> (x in b <==> x in notes)) &&
            (forall x :: IsKnowledge(x) ==> (x in b <==> x in knowledge))
  {
  }

  /** The prompt `build_contextual_prompt` writes, or the error it raises. */
  function PromptFor(query: string, a: Analyzer, qt: QueryType, format: ResponseFormat, language: string,
                     kb: seq<ContextItem>, comparison: Option<Cmp.Outcome>): Result<Prompt, PyError>
  {
    var lang := LangOf(language);
    var closing := Closing(query, qt, a, comparison);
    if lang.Err? then Err(lang.error)
    else if closing.Err? then Err(closing.error)
    else Ok(Assemble(lang.value, [HeaderOf(lang.value, a, format.level), BreakdownOf(a)], NotesOf(query, a),
                     KnowledgeSection(kb), closing.value, query))
  }

  /** The language table and the percentage are the only things that can fail. */
  lemma PromptErrors(query: string, a: Analyzer, qt: QueryType, format: ResponseFormat, language: string,
                     kb: seq<ContextItem>, comparison: Option<Cmp.Outcome>)
    ensures var r := PromptFor(query, a, qt, format, language, kb, comparison);
            (language != "en" && language != "de" ==> r == Err(KeyError(language))) &&
            (r.Ok? <==> (language == "en" || language == "de") &&
                        !(!CostBreakdownShown(query, qt) && ComparisonShown(qt, comparison) && comparison.value.previousAmount == 0.0)) &&
            (r.Err? && (language == "en" || language == "de") ==> r.error == ZeroDivisionError)
  {
  }

  /** The header comes first, then the breakdown; the question comes last. */
  lemma PromptFrame(query: string, a: Analyzer, qt: QueryType, format: ResponseFormat, language: string,
                    kb: seq<ContextItem>, comparison: Option<Cmp.Outcome>)
    requires PromptFor(query, a, qt, format, language, kb, comparison).Ok?
    ensures var p := PromptFor(query, a, qt, format, language, kb, comparison).value;
            var b := p.blocks;
            |b| >= 3 && b[0] == HeaderOf(p.lang, a, format.level) && b[1] == BreakdownOf(a) &&
            b[|b| - 1] == QueryLine(query) && p.lang == LangOf(language).value
  {
    var lang := LangOf(language).value;
    var closing := Closing(query, qt, a, comparison).value;
    var head := [HeaderOf(lang, a, format.level), BreakdownOf(a)];
    var p := Assemble(lang, head, NotesOf(query, a), KnowledgeSection(kb), closing, query);
    assert PromptFor(query, a, qt, format, language, kb, comparison) == Ok(p);
    AssembleFrame(lang, head, NotesOf(query, a), KnowledgeSection(kb), closing, query);
  }

  lemma AssembleFrame(lang: Lang, head: seq<Block>, notes: seq<Block>, knowledge: seq<Block>, closing: seq<Block>,
                      query: string)
    requires |head| == 2
    ensures var b := Assemble(lang, head, notes, knowledge, closing, query).blocks;
            |b| >= 3 && b[0] == head[0] && b[1] == head[1] && b[|b| - 1] == QueryLine(query)
  {
  }

  /** Each note appears exactly when the question mentions its term, and shows the
      levy, price or base price of the invoice. */
  lemma PromptNotes(query: string, a: Analyzer, qt: QueryType, format: ResponseFormat, language: string,
                    kb: seq<ContextItem>, comparison: Option<Cmp.Outcome>)
    requires PromptFor(query, a, qt, format, language, kb, comparison).Ok?
    ensures var b := PromptFor(query, a, qt, format, language, kb, comparison).value.blocks;
            var q := LowerStr(query);
            var levies := LevyTable(AllDetails(a.billingItems));
            (ZeroConsumptionNote in b <==> IsZeroConsumptionBill(a)) &&
            (KwkgNote(levies[Kwkg]) in b <==> Contains(q, "kwkg")) &&
            (WorkingPriceNote(WorkingPrice(a)) in b <==> Contains(q, "working price") || Contains(q, "arbeitspreis")) &&
            (BasePriceNote(BaseNet(a.billingItems), NumberAt(a.processData, "currentBasePrice")) in b <==>
               Contains(q, "base price") || Contains(q, "grundpreis")) &&
            (ConcessionNote(levies[Concession]) in b <==> Contains(q, "konzessionsabgabe"))
  {
    PromptParts(query, a, qt, format, language, kb, comparison);
    TopicNotesWhen(IsZeroConsumptionBill(a), MentionsOf(LowerStr(query)), LevyTable(AllDetails(a.billingItems)),
                   WorkingPrice(a), BaseNet(a.billingItems), NumberAt(a.processData, "currentBasePrice"));
  }

  /** The knowledge part lists the highly relevant hits among the first two, after a
      heading that appears when any hit is highly relevant. */
  lemma PromptKnowledge(query: string, a: Analyzer, qt: QueryType, format: ResponseFormat, language: string,
                        kb: seq<ContextItem>, comparison: Option<Cmp.Outcome>)
    requires PromptFor(query, a, qt, format, language, kb, comparison).Ok?
    ensures var b := PromptFor(query, a, qt, format, language, kb, comparison).value.blocks;
            (KnowledgeHeader in b <==> AnyHigh(kb)) &&
            (forall s :: KnowledgeLine(s) in b <==> AnyHigh(kb) && s in HighResponses(kb))
  {
    PromptParts(query, a, qt, format, language, kb, comparison);
  }

  lemma PromptParts(query: string, a: Analyzer, qt: QueryType, format: ResponseFormat, language: string,
                    kb: seq<ContextItem>, comparison: Option<Cmp.Outcome>)
    requires PromptFor(query, a, qt, format, language, kb, comparison).Ok?
    ensures var b := PromptFor(query, a, qt, format, language, kb, comparison).value.blocks;
            (forall x :: IsNote(x) ==> (x in b <==> x in NotesOf(query, a))) &&
            (forall x :: IsKnowledge(x) ==> (x in b <==> x in KnowledgeSection(kb)))
  {
    var lang := LangOf(language).value;
    var closing := Closing(query, qt, a, comparison).value;
    var head := [HeaderOf(lang, a, format.level), BreakdownOf(a)];
    var notes := NotesOf(query, a);
    var knowledge := KnowledgeSection(kb);
    assert PromptFor(query, a, qt, format, language, kb, comparison) == Ok(Assemble(lang, head, notes, knowledge, closing, query));
    AssembleMembers(lang, head[0], head[1], notes, knowledge, closing, query);
  }

  /** `build_contextual_prompt`.  `kb` is what `find_relevant_context` returns for the
      question with at most three items; `comparison` is the outcome of the comparison
      with the previous invoice, when one was made. */
  method BuildContextualPrompt(query: string, a: Analyzer, qt: QueryType, format: ResponseFormat, language: string,
                               kb: seq<ContextItem>, comparison: Option<Cmp.Outcome>)
    returns (r: Result<Prompt, PyError>)
    ensures r == PromptFor(query, a, qt, format, language, kb, comparison)
  {
    var lang := LangOf(language);
    if lang.Err? {
      return Err(lang.error);
    }
    var head := HeadBlocks(lang.value, a, format.level);
    var notes := NoteBlocks(query, a);
    var knowledge := KnowledgeBlocks(kb);
    var closing := ClosingBlocks(query, qt, a, comparison);
    if closing.Err? {
      return Err(closing.error);
    }
    r := Ok(Assemble(lang.value, head, notes, knowledge, closing.value, query));
  }

  /** The invoice header and the cost breakdown, from the analyzer's getters. */
  method HeadBlocks(lang: Lang, a: Analyzer, style: Level) returns (r: seq<Block>)
    ensures r == [HeaderOf(lang, a, style), BreakdownOf(a)]
  {
    var total := TotalConsumption(a);
    var breakdown := CostBreakdown(a);
    var baseNet, baseGross := BasePrice(a);
    var levies := SpecificLevyAmounts(a);
    LevyTableUnique(levies, AllDetails(a.billingItems));
    var header := Header(Salutation(lang, TextAt(a.partnerData, "salutation")), CustomerName(a), InvoiceNumber(a),
                         total.1, total.2, InvoiceAmount(a), total.0, total.0 == 0.0, WorkingPrice(a),
                         baseNet, baseGross, levies, style);
    r := [header, InvoiceBreakdown(NetAmount(a), TaxAmount(a), BonusAmount(a), breakdown)];
  }

  /** The notes on zero consumption and on the terms the question mentions. */
  method NoteBlocks(query: string, a: Analyzer) returns (notes: seq<Block>)
    ensures notes == NotesOf(query, a)
  {
    var total := TotalConsumption(a);
    var baseNet, baseGross := BasePrice(a);
    var levies := SpecificLevyAmounts(a);
    LevyTableUnique(levies, AllDetails(a.billingItems));
    var mentions := MentionsOf(LowerStr(query));
    notes := GatherNotes(total.0 == 0.0, mentions, levies, WorkingPrice(a), baseNet, baseGross);
  }

  /** The `if` statements that append the notes, one after another. */
  method GatherNotes(zero: bool, m: Mentions, levies: map<Levy, real>, workingPrice: real, baseNet: real, baseGross: real)
    returns (notes: seq<Block>)
    requires Kwkg in levies && Concession in levies
    ensures notes == TopicNotes(zero, m, levies, workingPrice, baseNet, baseGross)
  {
    ghost var zs: seq<Block> := if zero then [ZeroConsumptionNote] else [];
    ghost var ks: seq<Block> := if m.kwkg then [KwkgNote(levies[Kwkg])] else [];
    ghost var ws: seq<Block> := if m.workingPrice then [WorkingPriceNote(workingPrice)] else [];
    ghost var bs: seq<Block> := if m.basePrice then [BasePriceNote(baseNet, baseGross)] else [];
    ghost var cs: seq<Block> := if m.concession then [ConcessionNote(levies[Concession])] else [];
    notes := [];
    if zero {
      notes := notes + [ZeroConsumptionNote];
    }
    assert notes == zs;
    ghost var n1 := notes;
    if m.kwkg {
      notes := notes + [KwkgNote(levies[Kwkg])];
    }
    assert notes == n1 + ks;
    ghost var n2 := notes;
    if m.workingPrice {
      notes := notes + [WorkingPriceNote(workingPrice)];
    }
    assert notes == n2 + ws;
    ghost var n3 := notes;
    if m.basePrice {
      notes := notes + [BasePriceNote(baseNet, baseGross)];
    }
    assert notes == n3 + bs;
    ghost var n4 := notes;
    if m.concession {
      notes := notes + [ConcessionNote(levies[Concession])];
    }
    assert notes == n4 + cs;
    TopicNotesParts(zero, m, levies, workingPrice, baseNet, baseGross);
  }

  /** `TopicNotes` is the five optional notes in order. */
  lemma TopicNotesParts(zero: bool, m: Mentions, levies: map<Levy, real>, workingPrice: real, baseNet: real, baseGross: real)
    requires Kwkg in levies && Concession in levies
    ensures TopicNotes(zero, m, levies, workingPrice, baseNet, baseGross) ==
            (if zero then [ZeroConsumptionNote] else []) +
            (if m.kwkg then [KwkgNote(levies[Kwkg])] else []) +
            (if m.workingPrice then [WorkingPriceNote(workingPrice)] else []) +
            (if m.basePrice then [BasePriceNote(baseNet, baseGross)] else []) +
            (if m.concession then [ConcessionNote(levies[Concession])] else [])
  {
  }

  /** The cost breakdown or the comparison that closes the prompt. */
  method ClosingBlocks(query: string, qt: QueryType, a: Analyzer, comparison: Option<Cmp.Outcome>)
    returns (r: Result<seq<Block>, PyError>)
    ensures r == Closing(query, qt, a, comparison)
  {
    if qt == SimpleFact && Contains(LowerStr(query), "aufschlüsseln") {
      r := Ok([CostBreakdownNote(NetAmount(a), TaxAmount(a), BonusAmount(a), InvoiceAmount(a))]);
    } else if qt == QueryType.Comparison && comparison.Some? && comparison.value.Found? {
      var o := comparison.value;
      var percent := ChangePercent(o.previousAmount, o.difference);
      if percent.Err? {
        return Err(percent.error);
      }
      r := Ok([ComparisonNote(o.previousAmount, o.currentAmount, o.difference, percent.value,
                              if o.reasons == [] then None else Some(o.reasons[0]))]);
    } else {
      r := Ok([]);
    }
  }

  /** The `any(...)` test and the loop over the first two hits. */
  method KnowledgeBlocks(kb: seq<ContextItem>) returns (r: seq<Block>)
    ensures r == KnowledgeSection(kb)
  {
    r := [];
    var anyHigh := AnyHighScan(kb);
    if anyHigh {
      var lines := HighLines(kb);
      r := [KnowledgeHeader] + lines;
    }
  }

  /** `any(item["relevance"] == "high" for item in relevant_context)`. */
  method AnyHighScan(kb: seq<ContextItem>) returns (anyHigh: bool)
    ensures anyHigh <==> AnyHigh(kb)
  {
    anyHigh := false;
    var i := 0;
    while i < |kb|
      invariant 0 <= i <= |kb|
      invariant anyHigh <==> exists k :: 0 <= k < i && kb[k].relevance == High
    {
      if kb[i].relevance == High {
        anyHigh := true;
      }
      i := i + 1;
    }
  }

  /** The loop over the first two hits, keeping the highly relevant responses. */
  method HighLines(kb: seq<ContextItem>) returns (r: seq<Block>)
    ensures r == Lines(HighResponses(kb))
  {
    r := [];
    var j := 0;
    while j < |kb| && j < 2
      invariant 0 <= j <= 2 && j <= |kb|
      invariant r == Lines(HighResponses(kb[..j]))
    {
      assert kb[..j + 1][..j] == kb[..j];
      if kb[j].relevance == High {
        r := r + [KnowledgeLine(kb[j].response)];
      }
      j := j + 1;
    }
    assert HighResponses(kb[..j]) == HighResponses(kb);
  }

}
