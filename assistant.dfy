/** `AgenticUtilityBillLLM.get_response`: one turn of the invoice assistant.  The turn
    records the question in the conversation context, finds the invoice (from the
    caller or from the store), asks the customer to choose when a customer number
    matches several invoices, and otherwise prompts the language model and returns its
    answer with the structured facts of the invoice.  The store contents, the knowledge
    base and the language model are parameters. */
module Assistant {
  import opened Wrappers
  import opened Text
  import opened Json
  import opened Errors
  import opened InvoiceStore
  import opened InvoiceAnalyzer
  import opened QueryAnalyzer
  import opened KnowledgeBase
  import Cmp = Comparison
  import P = ContextualPrompt

  // ---------------------------------------------------------------------------
  // Messages

  /** The fixed notices of a turn; their wording, in either language, is given by
      `NoticeText`, so that the model's replies can stay symbolic. */
  datatype Notice = NotFoundNotice | ChooseNotice(count: nat) | NoAccessNotice

  function GermanNotice(n: Notice): string {
    match n
    case NotFoundNotice =>
      "Ich konnte Ihre Rechnungsdaten nicht finden. Bitte überprüfen Sie Ihre Kunden- oder Rechnungsnummer."
    case ChooseNotice(count) =>
      "Ich habe " + NatToString(count) + " Rechnungen für Ihr Konto gefunden. Bitte wählen Sie eine Rechnung aus:"
    case NoAccessNotice =>
      "Ich konnte nicht auf Ihre Rechnungsdetails zugreifen. Bitte versuchen Sie es erneut."
  }

  function EnglishNotice(n: Notice): string {
    match n
    case NotFoundNotice =>
      "I couldn't find your invoice data. Could you please verify your customer or invoice number?"
    case ChooseNotice(count) =>
      "I found " + NatToString(count) + " invoices for your account. Please specify which invoice you'd like me to analyze:"
    case NoAccessNotice =>
      "I couldn't access your invoice details. Please try again."
  }

  /** The notice as the message tables give it for a language the tables have. */
  function NoticeText(lang: P.Lang, n: Notice): string {
    if lang == P.De then GermanNotice(n) else EnglishNotice(n)
  }

  /** The number of invoices a choice reports is written out in its text. */
  lemma ChoiceCountShown(lang: P.Lang, count: nat)
    ensures Contains(NoticeText(lang, ChooseNotice(count)), NatToString(count))
  {
    var digits := NatToString(count);
    ContainsSlice(digits, 0, |digits|);
    assert digits[0..|digits|] == digits;
    if lang == P.De {
      ContainsWithin("Ich habe ", digits, " Rechnungen für Ihr Konto gefunden. Bitte wählen Sie eine Rechnung aus:", digits);
    } else {
      ContainsWithin("I found ", digits, " invoices for your account. Please specify which invoice you'd like me to analyze:", digits);
    }
  }

  // ---------------------------------------------------------------------------
  // Strict indexing for the invoice suggestions

  /** The `TypeError` Python raises when a value that is not a dictionary is indexed by a string. */
  function SubscriptError(j: Json): PyError
    requires !j.JObj?
  {
    match j
    case JArr(_) => TypeError("list indices must be integers or slices, not str")
    case JStr(_) => TypeError("string indices must be integers")
    case JNull => TypeError("'NoneType' object is not subscriptable")
    case JBool(_) => TypeError("'bool' object is not subscriptable")
    case JNum(_) => TypeError("'float' object is not subscriptable")
  }

  /** `v[key]`: the stored value, `KeyError` for a missing key, `TypeError` for a non-dictionary. */
  function Index(v: Json, key: string): (r: Result<Json, PyError>)
    ensures r.Ok? ==> v.JObj? && Lookup(v.fields, key) == Some(r.value)
    ensures r.Err? && v.JObj? ==> r.error == KeyError(key) && Lookup(v.fields, key).None?
    ensures r.Err? && !v.JObj? ==> r.error.TypeError?
  {
    match v
    case JObj(fields) =>
      (match Lookup(fields, key)
       case Some(x) => Ok(x)
       case None => Err(KeyError(key)))
    case _ => Err(SubscriptError(v))
  }

  /** `v[k0][k1]...[kn]`. */
  function IndexPath(v: Json, keys: seq<string>): (r: Result<Json, PyError>)
    decreases |keys|
  {
    if keys == [] then Ok(v)
    else
      match Index(v, keys[0])
      case Err(e) => Err(e)
      case Ok(w) => IndexPath(w, keys[1..])
  }

  /** A lookup that succeeds follows the path through dictionaries only, so the lenient
      reading of the same path agrees with it. */
  lemma {:induction false} IndexPathLenient(v: Json, keys: seq<string>)
    requires IndexPath(v, keys).Ok?
    ensures Path(v, keys) == IndexPath(v, keys).value
    decreases |keys|
  {
    if keys != [] {
      var w := Index(v, keys[0]).value;
      assert Field(v, keys[0]) == w;
      IndexPathLenient(w, keys[1..]);
    }
  }

  /** `[v["Data"]["ProzessDaten"]["ProzessDatenElement"]["invoiceNumber"] for v in records]`:
      one suggestion per record, in order, or the first record's error. */
  function Suggestions(records: seq<Record>): (r: Result<seq<Json>, PyError>)
    ensures r.Ok? ==> |r.value| == |records| &&
                      forall k :: 0 <= k < |records| ==> IndexPath(records[k].1, InvoicePath) == Ok(r.value[k])
    ensures r.Err? ==> exists k :: 0 <= k < |records| && IndexPath(records[k].1, InvoicePath) == Err(r.error) &&
                                   forall j :: 0 <= j < k ==> IndexPath(records[j].1, InvoicePath).Ok?
  {
    if records == [] then Ok([])
    else
      match IndexPath(records[0].1, InvoicePath)
      case Err(e) => Err(e)
      case Ok(x) =>
        match Suggestions(records[1..])
        case Err(e) =>
          FailureShifts(records, InvoicePath, e);
          Err(e)
        case Ok(xs) =>
          SuccessShifts(records, InvoicePath, x, xs);
          Ok([x] + xs)
  }

  /** The first failing record of the tail is the first failing record of the list. */
  lemma FailureShifts(records: seq<Record>, path: seq<string>, e: PyError)
    requires records != [] && IndexPath(records[0].1, path).Ok?
    requires exists k :: 0 <= k < |records[1..]| && IndexPath(records[1..][k].1, path) == Err(e) &&
                         forall j :: 0 <= j < k ==> IndexPath(records[1..][j].1, path).Ok?
    ensures exists k :: 0 <= k < |records| && IndexPath(records[k].1, path) == Err(e) &&
                        forall j :: 0 <= j < k ==> IndexPath(records[j].1, path).Ok?
  {
    var k :| 0 <= k < |records[1..]| && IndexPath(records[1..][k].1, path) == Err(e) &&
             forall j :: 0 <= j < k ==> IndexPath(records[1..][j].1, path).Ok?;
    assert records[k + 1] == records[1..][k];
    forall j | 0 <= j < k + 1
      ensures IndexPath(records[j].1, path).Ok?
    {
      if j > 0 {
        assert records[j] == records[1..][j - 1];
      }
    }
    assert IndexPath(records[k + 1].1, path) == Err(e);
  }

  /** The suggestions of the tail, after the first record's, are the list's. */
  lemma SuccessShifts(records: seq<Record>, path: seq<string>, x: Json, xs: seq<Json>)
    requires records != [] && IndexPath(records[0].1, path) == Ok(x)
    requires |xs| == |records[1..]| &&
             forall k :: 0 <= k < |records[1..]| ==> IndexPath(records[1..][k].1, path) == Ok(xs[k])
    ensures forall k :: 0 <= k < |records| ==> IndexPath(records[k].1, path) == Ok(([x] + xs)[k])
  {
    forall k | 0 <= k < |records|
      ensures IndexPath(records[k].1, path) == Ok(([x] + xs)[k])
    {
      if k > 0 {
        calc {
          IndexPath(records[k].1, path);
          { assert records[k] == records[1..][k - 1]; }
          IndexPath(records[1..][k - 1].1, path);
          Ok(xs[k - 1]);
          { assert ([x] + xs)[k] == xs[k - 1]; }
          Ok(([x] + xs)[k]);
        }
      } else {
        assert ([x] + xs)[0] == x;
      }
    }
  }

  // ---------------------------------------------------------------------------
  // The decision before the invoice is analysed

  /** Python truthiness of an optional string argument. */
  predicate Set(x: Option<string>) {
    x.Some? && x.value != []
  }

  /** `customer_number and not invoice_number`. */
  predicate CustomerOnly(customerNumber: Option<string>, invoiceNumber: Option<string>) {
    Set(customerNumber) && !Set(invoiceNumber)
  }

  /** The invoices the turn works on: the caller's when there are any, else the store's
      answer for the numbers given. */
  function Context(bill: seq<Record>, store: Json, customerNumber: Option<string>, invoiceNumber: Option<string>)
    : (r: (bool, seq<Record>))
    ensures r.0 <==> r.1 != []
    ensures bill != [] ==> r == (true, bill)
  {
    if bill != [] then (true, bill) else FetchInvoiceData(store, customerNumber, invoiceNumber)
  }

  /** `next(iter(bill_context.values()), {}).get("Data", {})`. */
  function FirstInvoice(records: seq<Record>): (r: Result<Json, PyError>)
    ensures records == [] ==> r == Ok(JObj([]))
    ensures records != [] && !records[0].1.JObj? ==> r == Err(AttributeError)
    ensures records != [] && records[0].1.JObj? ==>
              r.Ok? && (Lookup(records[0].1.fields, "Data") == Some(r.value) ||
                        (Lookup(records[0].1.fields, "Data").None? && r.value == JObj([])))
  {
    var first := if records == [] then JObj([]) else records[0].1;
    match PyGet(first, "Data", JObj([]))
    case None => Err(AttributeError)
    case Some(invoice) => Ok(invoice)
  }

  /** Where the turn goes before any analysis. */
  datatype Stage =
    | Missing(lang: P.Lang)
    | Choose(lang: P.Lang, suggestions: seq<Json>)
    | Unreadable(lang: P.Lang)
    | Proceed(context: seq<Record>, invoice: Json)

  /** The early returns of `get_response`, in the order the code tries them. */
  function Route(bill: seq<Record>, store: Json, language: string,
                 customerNumber: Option<string>, invoiceNumber: Option<string>): (r: Result<Stage, PyError>)
    ensures var (found, context) := Context(bill, store, customerNumber, invoiceNumber);
            (r.Ok? && r.value.Missing? <==> !found && P.LangOf(language).Ok?) &&
            (r.Ok? && !r.value.Proceed? ==> P.LangOf(language) == Ok(r.value.lang)) &&
            (r.Ok? && r.value.Choose? ==>
               CustomerOnly(customerNumber, invoiceNumber) && |context| > 1 &&
               Suggestions(context) == Ok(r.value.suggestions)) &&
            (r.Ok? && r.value.Choose? <==>
               found && CustomerOnly(customerNumber, invoiceNumber) && |context| > 1 &&
               Suggestions(context).Ok? && P.LangOf(language).Ok?) &&
            (r.Ok? && r.value.Unreadable? <==>
               found && !(CustomerOnly(customerNumber, invoiceNumber) && |context| > 1) &&
               FirstInvoice(context).Ok? && !Truthy(FirstInvoice(context).value) && P.LangOf(language).Ok?) &&
            (r.Ok? && r.value.Proceed? ==>
               found && !(CustomerOnly(customerNumber, invoiceNumber) && |context| > 1) &&
               r.value.context == context && FirstInvoice(context) == Ok(r.value.invoice) &&
               r.value.invoice.JObj? && r.value.invoice.fields != [])
  {
    var (found, context) := Context(bill, store, customerNumber, invoiceNumber);
    if !found then
      match P.LangOf(language)
      case Err(e) => Err(e)
      case Ok(lang) => Ok(Missing(lang))
    else if CustomerOnly(customerNumber, invoiceNumber) && |context| > 1 then
      match Suggestions(context)
      case Err(e) => Err(e)
      case Ok(s) =>
        match P.LangOf(language)
        case Err(e) => Err(e)
        case Ok(lang) => Ok(Choose(lang, s))
    else
      match FirstInvoice(context)
      case Err(e) => Err(e)
      case Ok(invoice) =>
        if !Truthy(invoice) then
          match P.LangOf(language)
          case Err(e) => Err(e)
          case Ok(lang) => Ok(Unreadable(lang))
        else if !invoice.JObj? then Err(AttributeError)
        else Ok(Proceed(context, invoice))
  }

  /** A customer number matching several invoices always leads to the choice (or to the
      error of reading their numbers), with one suggestion per invoice. */
  lemma ChooseWhenSeveral(bill: seq<Record>, store: Json, language: string,
                          customerNumber: Option<string>, invoiceNumber: Option<string>)
    requires var (found, context) := Context(bill, store, customerNumber, invoiceNumber);
             CustomerOnly(customerNumber, invoiceNumber) && |context| > 1 && P.LangOf(language).Ok?
    ensures var r := Route(bill, store, language, customerNumber, invoiceNumber);
            var context := Context(bill, store, customerNumber, invoiceNumber).1;
            (r.Ok? ==> r.value.Choose? && |r.value.suggestions| == |context|) &&
            (r.Err? ==> Suggestions(context).Err? && r.error == Suggestions(context).error)
  {
    var context := Context(bill, store, customerNumber, invoiceNumber).1;
    var choice := Suggestions(context);
    if choice.Ok? {
      assert Route(bill, store, language, customerNumber, invoiceNumber) == Ok(Choose(P.LangOf(language).value, choice.value));
    } else {
      assert Route(bill, store, language, customerNumber, invoiceNumber) == Err(choice.error);
    }
  }

  /** Invoices handed in by the caller are used as they are: the store is not consulted. */
  lemma CallerInvoicesFirst(bill: seq<Record>, store1: Json, store2: Json, language: string,
                            customerNumber: Option<string>, invoiceNumber: Option<string>)
    requires bill != []
    ensures Route(bill, store1, language, customerNumber, invoiceNumber) ==
            Route(bill, store2, language, customerNumber, invoiceNumber)
  {
  }

  // ---------------------------------------------------------------------------
  // The answer

  /** The answer budget: 300, 600 or 1200 tokens for a brief, moderate or detailed answer. */
  function MaxTokens(level: Level): nat {
    match level
    case Brief => 300
    case Moderate => 600
    case Detailed => 1200
  }

  /** The `structured` part of an answer. */
  datatype Structured = Structured(
    customerName: string,
    salutation: string,
    consumption: real,
    consumptionPeriod: string,
    invoiceAmount: real,
    netAmount: real,
    taxAmount: real,
    bonus: real,
    invoiceNumber: string,
    costBreakdown: Breakdown,
    workingPriceEuroPerKwh: real,
    workingPriceCtPerKwh: real,
    basePriceNetPerYear: real,
    basePriceGrossPerYear: real,
    specificLevies: map<Levy, real>,
    isZeroConsumption: bool,
    unusualCharges: seq<Anomaly>,
    queryType: QueryType,
    responseFormat: ResponseFormat,
    knowledgeBaseCategory: string,
    language: string,
    comparison: Option<Cmp.Outcome>)

  /** The structured facts of an invoice as the analyzer's getters give them. */
  function StructuredOf(a: Analyzer, qt: QueryType, format: ResponseFormat, category: string, language: string,
                        comparison: Option<Cmp.Outcome>): Structured
  {
    StructuredFrom(a, P.BreakdownOf(a).breakdown, BaseNet(a.billingItems), NumberAt(a.processData, "currentBasePrice"),
                   LevyTable(AllDetails(a.billingItems)),
                   HighBasicCharges(a.billingItems) + (if AllUsageZero(a.billingItems) then [ZeroUsageCharges] else []),
                   qt, format, category, language, comparison)
  }

  /** The structured facts, with the figures that take a scan of the invoice given. */
  function StructuredFrom(a: Analyzer, breakdown: Breakdown, baseNet: real, baseGross: real, levies: map<Levy, real>,
                          charges: seq<Anomaly>, qt: QueryType, format: ResponseFormat, category: string,
                          language: string, comparison: Option<Cmp.Outcome>): Structured
  {
    var total := TotalConsumption(a);
    Structured(
      TextAt(a.partnerData, "firstName") + " " + TextAt(a.partnerData, "name"),
      TextAt(a.partnerData, "salutation"),
      total.0, total.1 + " to " + total.2,
      InvoiceAmount(a), NetAmount(a), TaxAmount(a), BonusAmount(a), InvoiceNumber(a),
      breakdown, WorkingPrice(a), WorkingPrice(a) * 100.0, baseNet, baseGross, levies,
      IsZeroConsumptionBill(a), charges, qt, format, category, language, comparison)
  }

  /** The reply of a turn; `needs_invoice_number` holds exactly for `ChooseInvoice`. */
  datatype Reply =
    | NotFound(lang: P.Lang)
    | ChooseInvoice(lang: P.Lang, suggestions: seq<Json>)
    | NoAccess(lang: P.Lang)
    | Answer(text: string, structured: Structured)
  {
    predicate NeedsInvoiceNumber() { ChooseInvoice? }

    /** The `response` text of the reply. */
    function Response(): string {
      match this
      case NotFound(lang) => NoticeText(lang, NotFoundNotice)
      case ChooseInvoice(lang, suggestions) => NoticeText(lang, ChooseNotice(|suggestions|))
      case NoAccess(lang) => NoticeText(lang, NoAccessNotice)
      case Answer(text, _) => text
    }
  }

  /** The assistant's conversation context: the questions asked so far and the language of
      the latest one. */
  class Agent {
    var queries: seq<string>
    var language: string

    constructor()
      ensures queries == [] && language == "en"
    {
      queries := [];
      language := "en";
    }

    /** `get_response`.  `store` is the `invoices` node of the store, `cats` the knowledge
        base and `generate` the language model, given a prompt and a token budget. */
    method GetResponse(query: string, bill: seq<Record>, language: string,
                       customerNumber: Option<string>, invoiceNumber: Option<string>,
                       store: Json, cats: Categories, generate: (P.Prompt, nat) -> string)
      returns (r: Result<Reply, PyError>)
      modifies this
      ensures queries == old(queries) + [query] && this.language == language
      ensures var route := Route(bill, store, language, customerNumber, invoiceNumber);
              (route.Err? ==> r == Err(route.error)) &&
              (route.Ok? && route.value.Missing? ==> r == Ok(NotFound(route.value.lang))) &&
              (route.Ok? && route.value.Choose? ==> r == Ok(ChooseInvoice(route.value.lang, route.value.suggestions))) &&
              (route.Ok? && route.value.Unreadable? ==> r == Ok(NoAccess(route.value.lang))) &&
              (route.Ok? && route.value.Proceed? ==>
                 r == AnswerFor(query, route.value.invoice,
                                AllInvoices(route.value.context, store, customerNumber, invoiceNumber),
                                language, cats, generate))
      ensures P.LangOf(language).Err? ==> r.Err?
    {
      queries := queries + [query];
      this.language := language;
      var route := Route(bill, store, language, customerNumber, invoiceNumber);
      if route.Err? {
        return Err(route.error);
      }
      match route.value
      case Missing(lang) =>
        return Ok(NotFound(lang));
      case Choose(lang, suggestions) =>
        return Ok(ChooseInvoice(lang, suggestions));
      case Unreadable(lang) =>
        return Ok(NoAccess(lang));
      case Proceed(context, invoice) =>
        var all := context;
        if CustomerOnly(customerNumber, invoiceNumber) {
          all := FetchInvoiceData(store, customerNumber, None).1;
        }
        r := AnswerQuery(query, invoice, all, language, cats, generate);
    }
  }

  /** The invoices a comparison looks among: those of the turn, or every invoice of the
      customer when only a customer number was given. */
  function AllInvoices(context: seq<Record>, store: Json, customerNumber: Option<string>,
                       invoiceNumber: Option<string>): seq<Record>
  {
    if CustomerOnly(customerNumber, invoiceNumber) then FetchInvoiceData(store, customerNumber, None).1 else context
  }

  /** `find_relevant_context(query, language, max_items=3)`. */
  function KnowledgeFor(query: string, language: string, cats: Categories): seq<ContextItem> {
    RelevantContext(LowerStr(query), language, PrimaryCategory(LowerStr(query)), cats, 3)
  }

  /** The answer once the comparison, if any, is made: the model's stripped reply to the
      prompt, and the structured facts. */
  function AnswerFrom(query: string, a: Analyzer, qt: QueryType, format: ResponseFormat, language: string,
                      cats: Categories, comparison: Option<Cmp.Outcome>, generate: (P.Prompt, nat) -> string)
    : (r: Result<Reply, PyError>)
    ensures var prompt := P.PromptFor(query, a, qt, format, language, KnowledgeFor(query, language, cats), comparison);
            (prompt.Err? ==> r == Err(prompt.error)) &&
            (prompt.Ok? ==> r.Ok? && r.value.Answer? &&
                            r.value.text == Strip(generate(prompt.value, MaxTokens(format.level))) &&
                            r.value.structured == StructuredOf(a, qt, format, PrimaryCategory(LowerStr(query)), language, comparison) &&
                            r.value.structured.comparison == comparison &&
                            r.value.structured.knowledgeBaseCategory == PrimaryCategory(LowerStr(query)))
  {
    match P.PromptFor(query, a, qt, format, language, KnowledgeFor(query, language, cats), comparison)
    case Err(e) => Err(e)
    case Ok(prompt) =>
      Ok(Answer(Strip(generate(prompt, MaxTokens(format.level))),
                StructuredOf(a, qt, format, PrimaryCategory(LowerStr(query)), language, comparison)))
  }

  /** The answer to `query` about `invoice`, with `all` the invoices to compare among:
      the comparison is made exactly for a comparison question and its error is the
      turn's; the prompt is built from the question, the invoice, the comparison and the
      three most relevant knowledge items; the model answers it with the budget of the
      question's level; and the structured facts are the invoice's, with the question's
      type, format and knowledge-base category. */
  function AnswerFor(query: string, invoice: Json, all: seq<Record>, language: string, cats: Categories,
                     generate: (P.Prompt, nat) -> string): (r: Result<Reply, PyError>)
    ensures P.LangOf(language).Err? ==> r.Err?
    ensures P.LangOf(language).Ok? && AnalyzeQuery(query).0 != QueryType.Comparison ==> r.Ok?
    ensures AnalyzeQuery(query).0 == QueryType.Comparison && Cmp.PreviousComparison(invoice, all).Err? ==>
              r == Err(Cmp.PreviousComparison(invoice, all).error)
    ensures r.Ok? ==> r.value.Answer?
    ensures r.Ok? && r.value.Answer? ==>
              var qt, format := AnalyzeQuery(query).0, AnalyzeQuery(query).1;
              var c := r.value.structured.comparison;
              var prompt := P.PromptFor(query, NewAnalyzer(invoice), qt, format, language, KnowledgeFor(query, language, cats), c);
              (c.Some? <==> qt == QueryType.Comparison) &&
              (c.Some? ==> Cmp.PreviousComparison(invoice, all) == Ok(c.value)) &&
              prompt.Ok? && r.value.text == Strip(generate(prompt.value, MaxTokens(format.level))) &&
              r.value.structured == StructuredOf(NewAnalyzer(invoice), qt, format, PrimaryCategory(LowerStr(query)), language, c) &&
              r.value.structured.knowledgeBaseCategory == PrimaryCategory(LowerStr(query))
  {
    var a := NewAnalyzer(invoice);
    var qt, format := AnalyzeQuery(query).0, AnalyzeQuery(query).1;
    var kb := KnowledgeFor(query, language, cats);
    if qt == QueryType.Comparison then
      match Cmp.PreviousComparison(invoice, all)
      case Err(e) => Err(e)
      case Ok(outcome) =>
        P.PromptErrors(query, a, qt, format, language, kb, Some(outcome));
        AnswerFrom(query, a, qt, format, language, cats, Some(outcome), generate)
    else
      P.PromptErrors(query, a, qt, format, language, kb, None);
      AnswerFrom(query, a, qt, format, language, cats, None, generate)
  }

  /** The part of `get_response` after the invoice is found: analyse the question, compare
      with the previous invoice for a comparison question (among `all`), build the prompt,
      ask the model and gather the structured facts. */
  method AnswerQuery(query: string, invoice: Json, all: seq<Record>, language: string, cats: Categories,
                     generate: (P.Prompt, nat) -> string)
    returns (r: Result<Reply, PyError>)
    ensures r == AnswerFor(query, invoice, all, language, cats, generate)
  {
    var a := NewAnalyzer(invoice);
    var (qt, format) := AnalyzeQuery(query);
    var comparison: Option<Cmp.Outcome> := None;
    if qt == QueryType.Comparison {
      var outcome := Cmp.CompareWithPreviousInvoice(invoice, all);
      if outcome.Err? {
        return Err(outcome.error);
      }
      comparison := Some(outcome.value);
    }
    r := AnswerWith(query, a, qt, format, language, cats, comparison, generate);
  }

  /** The answer once the comparison, if any, is made: build the prompt, ask the model
      and gather the structured facts. */
  method AnswerWith(query: string, a: Analyzer, qt: QueryType, format: ResponseFormat, language: string,
                    cats: Categories, comparison: Option<Cmp.Outcome>, generate: (P.Prompt, nat) -> string)
    returns (r: Result<Reply, PyError>)
    ensures r == AnswerFrom(query, a, qt, format, language, cats, comparison, generate)
  {
    var built := PromptWithKnowledge(query, a, qt, format, language, cats, comparison);
    if built.Err? {
      return Err(built.error);
    }
    var text := Strip(generate(built.value, MaxTokens(format.level)));
    var structured := StructuredData(a, qt, format, query, language, comparison);
    r := Ok(Answer(text, structured));
  }

  /** The prompt, with the three knowledge items most relevant to the question. */
  method PromptWithKnowledge(query: string, a: Analyzer, qt: QueryType, format: ResponseFormat, language: string,
                             cats: Categories, comparison: Option<Cmp.Outcome>)
    returns (built: Result<P.Prompt, PyError>)
    ensures built == P.PromptFor(query, a, qt, format, language, KnowledgeFor(query, language, cats), comparison)
  {
    var kb := FindRelevantContext(query, language, cats, 3);
    built := P.BuildContextualPrompt(query, a, qt, format, language, kb, comparison);
  }

  /** The structured facts, gathered with the analyzer's getters, filed under the category
      the question is routed to. */
  method StructuredData(a: Analyzer, qt: QueryType, format: ResponseFormat, query: string, language: string,
                        comparison: Option<Cmp.Outcome>) returns (s: Structured)
    ensures s == StructuredOf(a, qt, format, PrimaryCategory(LowerStr(query)), language, comparison)
  {
    var breakdown := CostBreakdown(a);
    assert breakdown == P.BreakdownOf(a).breakdown;
    var baseNet, baseGross := BasePrice(a);
    var levies := SpecificLevyAmounts(a);
    LevyTableUnique(levies, AllDetails(a.billingItems));
    var charges := UnusualCharges(a);
    var category := CategoryForQuery(query);
    s := StructuredFrom(a, breakdown, baseNet, baseGross, levies, charges, qt, format, category, language, comparison);
  }

  /** The prompt is built from at most three knowledge items. */
  lemma RelevantContextBound(query: string, language: string, cats: Categories)
    ensures |KnowledgeFor(query, language, cats)| <= 3
  {
    RelevantContextFacts(LowerStr(query), language, PrimaryCategory(LowerStr(query)), cats, 3);
  }
}
