/** The conversation of the older chat service (`UtilityBillLLM.get_response` in
    llm_service.py): the service records the query in its conversation context, then
    answers with the first rule that applies, in a fixed order: feedback, yes or no,
    greeting, arithmetic, escalation, invoice data, the knowledge base, and finally the
    language model. */
module LegacyService {
  import opened Wrappers
  import opened Text
  import opened Errors
  import opened Json
  import KB = KnowledgeBase
  import Calculator
  import opened LegacyRules

  const Greetings := {"hi", "hello", "hey", "good morning", "good afternoon", "good evening"}
  const FeedbackPhrases := ["not helpful", "wrong answer", "incorrect", "doesn't make sense", "that's wrong"]

  /** The question the service asks itself when a "yes" has nothing to refer to. */
  const MoreInformation := "I would like more information about my bill"

  /** What the service takes from outside: the system prompt, the knowledge base, the
      vector search, the invoice store, the summary of an invoice for the prompt, the
      answer to an invoice-data question, and the language model. */
  datatype Environment = Environment(
    system: string,
    knowledge: KB.Categories,
    retrieve: string -> string,
    fetched: Json,
    prepare: (Json, Option<string>) -> string,
    invoiceAnswer: (string, Json, Option<string>, string) -> string,
    generate: (string, nat) -> string)

  /** An answer: a template of the language, the reply to a "no", text, or a calculation
      whose fractional result is shown with `str(float)`. */
  datatype Reply = Canned(lang: Lang, slot: Slot) | Declined(lang: Lang) | Text(text: string) | Fraction(x: real) {
    /** The text of the answer; `str(float)` of a fraction is not modelled. */
    function Shown(): Option<string> {
      match this
      case Canned(lang, slot) => Some(TemplateText(lang, slot))
      case Declined(lang) => Some(TemplateText(lang, Greeting) + " Please let me know what you'd like to know about your utility bill.")
      case Text(text) => Some(text)
      case Fraction(_) => None
    }
  }

  /** `self.conversation_context`, with the invoice data the service keeps. */
  datatype Conversation = Conversation(lastQuery: string, lastResponse: string, previousQueries: seq<string>,
                                       customerId: Option<string>, language: string, invoiceData: Json)

  const Initial := Conversation("", "", [], None, "en", JObj([]))

  // ---------------------------------------------------------------------------
  // Recognising the kind of query

  predicate IsFeedback(query: string) {
    ContainsAny(LowerStr(query), FeedbackPhrases)
  }

  predicate IsYes(query: string) {
    LowerStr(query) == "yes" || LowerStr(query) == "ja"
  }

  predicate IsNo(query: string) {
    LowerStr(query) == "no" || LowerStr(query) == "nein"
  }

  predicate IsGreeting(query: string) {
    Strip(LowerStr(query)) in Greetings
  }

  /** A short answer never contains a feedback phrase: every phrase is longer. */
  lemma ShortIsNoFeedback(query: string)
    requires |query| <= 8
    ensures !IsFeedback(query)
  {
    var lower := LowerStr(query);
    forall k | 0 <= k < |FeedbackPhrases|
      ensures !Contains(lower, FeedbackPhrases[k])
    {
      ContainsLonger(lower, FeedbackPhrases[k]);
    }
  }

  // ---------------------------------------------------------------------------
  // Arithmetic in a query

  predicate IsOperator(c: char) {
    c == '+' || c == '-' || c == '*' || c == '/'
  }

  /** The index after the run of digits starting at `i`. */
  function AfterDigits(s: string, i: nat): (j: nat)
    requires i <= |s|
    ensures i <= j <= |s|
  {
    i + DigitRun(s[i..])
  }

  /** The index after the run of whitespace starting at `i`. */
  function AfterSpaces(s: string, i: nat): (j: nat)
    requires i <= |s|
    ensures i <= j <= |s|
  {
    i + (|s[i..]| - |TrimStart(s[i..])|)
  }

  /** `\d+\s*[\+\-\*\/]\s*\d` matches at `i`; the result is where the second number starts. */
  function MathAt(s: string, i: nat): (r: Option<nat>)
    requires i <= |s|
    ensures r.Some? ==> i < r.value < |s| && IsDigit(s[i]) && IsDigit(s[r.value])
  {
    if i == |s| || !IsDigit(s[i]) then None
    else
      var j := AfterSpaces(s, AfterDigits(s, i));
      if j == |s| || !IsOperator(s[j]) then None
      else
        var m := AfterSpaces(s, j + 1);
        if m == |s| || !IsDigit(s[m]) then None else Some(m)
  }

  /** `re.search`'s scan: the leftmost start at or after `i` where the pattern matches. */
  function MathSearch(s: string, i: nat): (r: Option<nat>)
    requires i <= |s|
    ensures r.Some? ==> i <= r.value < |s| && MathAt(s, r.value).Some? &&
                        forall k :: i <= k < r.value ==> MathAt(s, k).None?
    ensures r.None? ==> forall k :: i <= k <= |s| ==> MathAt(s, k).None?
    decreases |s| - i
  {
    if i == |s| then None
    else if MathAt(s, i).Some? then Some(i)
    else MathSearch(s, i + 1)
  }

  /** The end of the line that contains index `m`: where `.*` stops. */
  function LineEnd(s: string, m: nat): (e: nat)
    requires m <= |s|
    ensures m <= e <= |s| && (e == |s| || s[e] == '\n')
    ensures forall k :: m <= k < e ==> s[k] != '\n'
    decreases |s| - m
  {
    if m == |s| || s[m] == '\n' then m else LineEnd(s, m + 1)
  }

  /** `re.search(r'(\d+\s*[\+\-\*\/]\s*\d+.*)', s).group(1)`. */
  function MathGroup(s: string): (r: Option<string>)
    ensures r.Some? ==> r.value != [] && IsDigit(r.value[0])
  {
    match MathSearch(s, 0)
    case None => None
    case Some(i) =>
      var m := MathAt(s, i).value;
      Some(s[i..LineEnd(s, m)])
  }

  /** `re.sub(r'[^0-9\+\-\*\/\(\)\.]', '', s)`. */
  function KeepMath(s: string): (r: string)
    ensures |r| <= |s|
    ensures forall i :: 0 <= i < |r| ==> IsDigit(r[i]) || r[i] in "+-*/()."
    ensures forall i :: 0 <= i < |s| && (IsDigit(s[i]) || s[i] in "+-*/().") ==> s[i] in r
  {
    if s == [] then []
    else (if IsDigit(s[0]) || s[0] in "+-*/()." then [s[0]] else []) + KeepMath(s[1..])
  }

  /** The expression step 4 hands to the calculator, if any. */
  function MathExpression(query: string): Option<string> {
    if MathGroup(query).Some? then MathGroup(query)
    else if Contains(LowerStr(query), "calculate") || Contains(LowerStr(query), "compute") then Some(KeepMath(query))
    else None
  }

  // ---------------------------------------------------------------------------
  // The replies

  /** `self.language_templates[language][slot]`. */
  function Template(language: string, slot: Slot): (r: Result<Reply, PyError>)
    ensures r.Err? <==> TemplatesFor(language).Err?
    ensures r.Err? ==> r.error == KeyError(language)
    ensures r.Ok? ==> r.value == Canned(TemplatesFor(language).value, slot)
  {
    match TemplatesFor(language)
    case Err(e) => Err(e)
    case Ok(lang) => Ok(Canned(lang, slot))
  }

  /** `handle_no_response`: the greeting template with an invitation to ask. */
  function HandleNo(language: string): (r: Result<Reply, PyError>)
    ensures r.Err? <==> TemplatesFor(language).Err?
    ensures r.Ok? ==> r.value == Declined(TemplatesFor(language).value)
  {
    match TemplatesFor(language)
    case Err(e) => Err(e)
    case Ok(lang) => Ok(Declined(lang))
  }

  /** The result of `calculate_expression` as step 4 returns it: a number, or the
      `math_error` template when the text reports an error. */
  function CalcReply(c: Calculator.Calc, language: string): Result<Reply, PyError> {
    match c
    case Whole(n) => Ok(Text(Calculator.WholeText(n)))
    case Fraction(x) => Ok(Fraction(x))
    case Failed(_) => Template(language, MathError)
  }

  /** Step 4: `None` when the query is not treated as arithmetic. */
  function MathReply(query: string, language: string): Option<Result<Reply, PyError>> {
    match MathExpression(query)
    case None => None
    case Some(e) => if e == "" then None else Some(CalcReply(Calculator.Calculate(e), language))
  }

  /** `get_invoice_data_response`: without any invoice data the `no_data` template,
      otherwise the answer drawn from the data. */
  function InvoiceReply(c: Conversation, query: string, bill: Json, customerId: Option<string>,
                        language: string, env: Environment): Result<Reply, PyError> {
    var data := if Truthy(bill) then bill else if Truthy(c.invoiceData) then c.invoiceData else env.fetched;
    if !Truthy(data) then Template(language, NoData)
    else Ok(Text(env.invoiceAnswer(query, data, customerId, language)))
  }

  /** Steps 7 to 12: a knowledge-base hit, otherwise the language model on the prompt. */
  function ModelReply(c: Conversation, query: string, bill: Json, customerId: Option<string>,
                      language: string, env: Environment): (Result<Reply, PyError>, Conversation) {
    var kb := CheckKnowledge(env.knowledge, query);
    if kb != "" then (Ok(Text(FormatText(kb, language))), c.(lastResponse := kb))
    else PromptReply(c, query, bill, customerId, language, env)
  }

  /** The invoice data a turn works with: the bill it was given, else what the
      conversation keeps, else what the store returns. */
  function KeptData(kept: Json, bill: Json, fetched: Json): (d: Json)
    ensures d == bill || d == kept || d == fetched
    ensures Truthy(bill) ==> d == bill
    ensures !Truthy(bill) && Truthy(kept) ==> d == kept
  {
    if Truthy(bill) then bill else if !Truthy(kept) then fetched else kept
  }

  /** Steps 8 to 12: the invoice data kept for the conversation, then the model's answer
      to the prompt built from it. */
  function PromptReply(c: Conversation, query: string, bill: Json, customerId: Option<string>,
                       language: string, env: Environment): (Result<Reply, PyError>, Conversation) {
    var data := KeptData(c.invoiceData, bill, env.fetched);
    var c2 := c.(invoiceData := data);
    Generated(c2, BuildPrompt(env.system, query, env.prepare(data, customerId), env.retrieve(query), c2.previousQueries, language),
              language, env)
  }

  /** Steps 11 and 12: the model's answer to the prompt, kept as the last response. */
  function Generated(c: Conversation, prompt: Result<string, PyError>, language: string, env: Environment)
    : (Result<Reply, PyError>, Conversation)
  {
    match prompt
    case Err(e) => (Err(e), c)
    case Ok(p) =>
      var response := env.generate(p, 300);
      (Ok(Text(FormatText(response, language))), c.(lastResponse := response))
  }

  /** The context update that opens every turn. */
  function Record(c: Conversation, query: string, language: string, customerId: Option<string>): Conversation {
    c.(previousQueries := c.previousQueries + [c.lastQuery], lastQuery := query,
       language := language, customerId := customerId)
  }

  /** `get_response`: the reply and the conversation afterwards. */
  function Turn(c: Conversation, query: string, bill: Json, language: string, customerId: Option<string>,
                env: Environment): (Result<Reply, PyError>, Conversation)
    decreases if IsYes(query) then 2 else 0
  {
    var c1 := Record(c, query, language, customerId);
    if IsFeedback(query) then (Template(language, Feedback), c1)
    else if IsYes(query) then HandleYes(c1, c.lastQuery, language, env)
    else Answer(c1, query, bill, language, customerId, env)
  }

  /** Steps 2 (a "no") to 12 of `get_response`, once the turn is recorded. */
  function Answer(c: Conversation, query: string, bill: Json, language: string, customerId: Option<string>,
                  env: Environment): (Result<Reply, PyError>, Conversation)
  {
    match RuleReply(query, language)
    case Some(r) => (r, c)
    case None =>
      if IsInvoiceDataQuery(query) then (InvoiceReply(c, query, bill, customerId, language, env), c)
      else ModelReply(c, query, bill, customerId, language, env)
  }

  /** Steps 2 to 5 of `get_response`, which answer from the query alone: a "no", a
      greeting, arithmetic, a request to escalate. */
  function RuleReply(query: string, language: string): Option<Result<Reply, PyError>> {
    if IsNo(query) then Some(HandleNo(language))
    else if IsGreeting(query) then Some(Template(language, Greeting))
    else if MathReply(query, language).Some? then MathReply(query, language)
    else if IsEscalationRequest(query, language) then Some(Template(language, Escalation))
    else None
  }

  /** `handle_yes_response` as intended: a "yes" after feedback, or after an answer that
      offered customer service, escalates; any other "yes" asks for more information. */
  function HandleYes(c: Conversation, previousQuery: string, language: string, env: Environment)
    : (Result<Reply, PyError>, Conversation)
    decreases 1
  {
    if IsFeedback(previousQuery) || Contains(LowerStr(c.lastResponse), "speak with customer service") then
      (Template(language, Escalation), c)
    else
      assert |LowerStr(MoreInformation)| == |MoreInformation|;
      Turn(c, MoreInformation, JNull, language, c.customerId, env)
  }

  /** `handle_yes_response` as written: it reads `last_query` after `get_response` has
      already replaced it with the "yes" itself. */
  function HandleYesAsWritten(c: Conversation, language: string, env: Environment)
    : (Result<Reply, PyError>, Conversation)
  {
    if IsFeedback(c.lastQuery) || Contains(LowerStr(c.lastResponse), "speak with customer service") then
      (Template(language, Escalation), c)
    else
      Turn(c, MoreInformation, JNull, language, c.customerId, env)
  }

  // ---------------------------------------------------------------------------
  // The service object

  class UtilityBillAssistant {
    var lastQuery: string
    var lastResponse: string
    var previousQueries: seq<string>
    var customerId: Option<string>
    var language: string
    var invoiceData: Json

    function State(): Conversation
      reads this
    {
      Conversation(lastQuery, lastResponse, previousQueries, customerId, language, invoiceData)
    }

    constructor ()
      ensures State() == Initial
    {
      lastQuery := "";
      lastResponse := "";
      previousQueries := [];
      customerId := None;
      language := "en";
      invoiceData := JObj([]);
    }

    method GetResponse(query: string, bill: Json, language: string, customerId: Option<string>, env: Environment)
      returns (r: Result<Reply, PyError>)
      modifies this
      ensures (r, State()) == Turn(old(State()), query, bill, language, customerId, env)
      decreases if IsYes(query) then 2 else 0
    {
      var previous := lastQuery;
      previousQueries := previousQueries + [lastQuery];
      lastQuery := query;
      this.language := language;
      this.customerId := customerId;
      assert State() == Record(old(State()), query, language, customerId);
      if IsFeedback(query) {
        r := Template(language, Feedback);
      } else if IsYes(query) {
        r := HandleYesResponse(previous, language, env);
      } else {
        r := Respond(query, bill, language, customerId, env);
      }
    }

    method Respond(query: string, bill: Json, language: string, customerId: Option<string>, env: Environment)
      returns (r: Result<Reply, PyError>)
      modifies this
      ensures (r, State()) == Answer(old(State()), query, bill, language, customerId, env)
    {
      var rule := RuleResponse(query, language);
      if rule.Some? {
        r := rule.value;
      } else if IsInvoiceDataQuery(query) {
        r := InvoiceReply(State(), query, bill, customerId, language, env);
      } else {
        r := AnswerWithModel(query, bill, customerId, language, env);
      }
    }

    method RuleResponse(query: string, language: string) returns (r: Option<Result<Reply, PyError>>)
      ensures r == RuleReply(query, language)
    {
      if IsNo(query) {
        r := Some(HandleNo(language));
      } else if IsGreeting(query) {
        r := Some(Template(language, Greeting));
      } else if MathReply(query, language).Some? {
        var e := MathExpression(query).value;
        var c := Calculator.CalculateExpression(e);
        r := Some(CalcReply(c, language));
      } else if IsEscalationRequest(query, language) {
        r := Some(Template(language, Escalation));
      } else {
        r := None;
      }
    }

    method HandleYesResponse(previousQuery: string, language: string, env: Environment)
      returns (r: Result<Reply, PyError>)
      modifies this
      ensures (r, State()) == HandleYes(old(State()), previousQuery, language, env)
      decreases 1
    {
      if IsFeedback(previousQuery) || Contains(LowerStr(lastResponse), "speak with customer service") {
        r := Template(language, Escalation);
      } else {
        assert |LowerStr(MoreInformation)| == |MoreInformation|;
        r := GetResponse(MoreInformation, JNull, language, customerId, env);
      }
    }

    method AnswerWithModel(query: string, bill: Json, customerId: Option<string>, language: string, env: Environment)
      returns (r: Result<Reply, PyError>)
      modifies this
      ensures (r, State()) == ModelReply(old(State()), query, bill, customerId, language, env)
    {
      var kb := CheckKnowledge(env.knowledge, query);
      if kb != "" {
        lastResponse := kb;
        var text := FormatResponse(kb, language);
        r := Ok(Text(text));
      } else {
        r := AskModel(query, bill, customerId, language, env);
      }
    }

    method AskModel(query: string, bill: Json, customerId: Option<string>, language: string, env: Environment)
      returns (r: Result<Reply, PyError>)
      modifies this
      ensures (r, State()) == PromptReply(old(State()), query, bill, customerId, language, env)
    {
      var relevant := env.retrieve(query);
      KeepInvoiceData(bill, env.fetched);
      ghost var kept := State();
      var invoiceContext := env.prepare(invoiceData, customerId);
      var prompt := BuildPrompt(env.system, query, invoiceContext, relevant, previousQueries, language);
      assert PromptReply(old(State()), query, bill, customerId, language, env) == Generated(kept, prompt, language, env);
      r := Generate(prompt, language, env);
    }

    /** Steps 11 and 12: ask the model, keep its answer, format it. */
    method Generate(prompt: Result<string, PyError>, language: string, env: Environment)
      returns (r: Result<Reply, PyError>)
      modifies this
      ensures (r, State()) == Generated(old(State()), prompt, language, env)
    {
      if prompt.Err? {
        r := Err(prompt.error);
        return;
      }
      var response := env.generate(prompt.value, 300);
      lastResponse := response;
      var text := FormatResponse(response, language);
      r := Ok(Text(text));
    }

    /** Steps 8 and 9: keep the given bill, or fetch one when none is kept. */
    method KeepInvoiceData(bill: Json, fetched: Json)
      modifies this
      ensures State() == old(State()).(invoiceData := KeptData(old(invoiceData), bill, fetched))
    {
      if Truthy(bill) {
        invoiceData := bill;
      } else if !Truthy(invoiceData) {
        invoiceData := fetched;
      }
    }
  }

  // ---------------------------------------------------------------------------
  // What a turn does

  /** After the turn is recorded, no rule changes the query history, the language or
      the customer. */
  lemma AnswerKeepsRecord(c: Conversation, query: string, bill: Json, language: string,
                          customerId: Option<string>, env: Environment)
    ensures var c' := Answer(c, query, bill, language, customerId, env).1;
            c'.lastQuery == c.lastQuery && c'.previousQueries == c.previousQueries &&
            c'.language == c.language && c'.customerId == c.customerId
  {
    var t := Answer(c, query, bill, language, customerId, env);
    if RuleReply(query, language).None? && !IsInvoiceDataQuery(query) {
      assert t == ModelReply(c, query, bill, customerId, language, env);
      ModelReplyKeepsRecord(c, query, bill, customerId, language, env);
    } else {
      assert t.1 == c;
    }
  }

  lemma ModelReplyKeepsRecord(c: Conversation, query: string, bill: Json, customerId: Option<string>,
                              language: string, env: Environment)
    ensures var c' := ModelReply(c, query, bill, customerId, language, env).1;
            c'.lastQuery == c.lastQuery && c'.previousQueries == c.previousQueries &&
            c'.language == c.language && c'.customerId == c.customerId
  {
  }

  /** Every turn records the previous query, the query, the language and the customer;
      a "yes" that asks for more information records that question as well. */
  lemma TurnRecords(c: Conversation, query: string, bill: Json, language: string,
                    customerId: Option<string>, env: Environment)
    ensures var c' := Turn(c, query, bill, language, customerId, env).1;
            c'.language == language && c'.customerId == customerId &&
            ((c'.previousQueries == c.previousQueries + [c.lastQuery] && c'.lastQuery == query) ||
             (IsYes(query) && c'.previousQueries == c.previousQueries + [c.lastQuery, query] &&
              c'.lastQuery == MoreInformation))
  {
    var c1 := Record(c, query, language, customerId);
    var t := Turn(c, query, bill, language, customerId, env);
    if IsFeedback(query) {
      assert t.1 == c1;
    } else if IsYes(query) {
      assert t == HandleYes(c1, c.lastQuery, language, env);
      HandleYesRecords(c1, c.lastQuery, language, env);
    } else {
      assert t == Answer(c1, query, bill, language, customerId, env);
      AnswerKeepsRecord(c1, query, bill, language, customerId, env);
    }
  }

  /** A "yes" either keeps the conversation or asks for more information, which records
      that question after the "yes". */
  lemma HandleYesRecords(c: Conversation, previousQuery: string, language: string, env: Environment)
    ensures var c' := HandleYes(c, previousQuery, language, env).1;
            c' == c ||
            (c'.previousQueries == c.previousQueries + [c.lastQuery] && c'.lastQuery == MoreInformation &&
             c'.language == language && c'.customerId == c.customerId)
  {
    if !(IsFeedback(previousQuery) || Contains(LowerStr(c.lastResponse), "speak with customer service")) {
      assert |LowerStr(MoreInformation)| == |MoreInformation|;
      assert !IsYes(MoreInformation);
      var c2 := Record(c, MoreInformation, language, c.customerId);
      var t := HandleYes(c, previousQuery, language, env);
      assert t == Turn(c, MoreInformation, JNull, language, c.customerId, env);
      if IsFeedback(MoreInformation) {
        assert t.1 == c2;
      } else {
        assert t == Answer(c2, MoreInformation, JNull, language, c.customerId, env);
        AnswerKeepsRecord(c2, MoreInformation, JNull, language, c.customerId, env);
      }
    }
  }

  /** Replies from the templates and from the calculator leave the last response alone:
      only knowledge-base and model answers are remembered. */
  lemma TemplatesNotRemembered(c: Conversation, query: string, bill: Json, language: string,
                               customerId: Option<string>, env: Environment)
    requires !IsYes(query)
    requires IsFeedback(query) || IsNo(query) || IsGreeting(query) || MathReply(query, language).Some? ||
             IsEscalationRequest(query, language) || IsInvoiceDataQuery(query)
    ensures Turn(c, query, bill, language, customerId, env).1.lastResponse == c.lastResponse
  {
  }

  /** Feedback is recognised before anything else, even before arithmetic or escalation. */
  lemma FeedbackFirst(c: Conversation, query: string, bill: Json, language: string,
                      customerId: Option<string>, env: Environment)
    requires IsFeedback(query)
    ensures Turn(c, query, bill, language, customerId, env).0 == Template(language, Feedback)
  {
  }

  /** Arithmetic is answered by the calculator before escalation, invoice data or the
      knowledge base are considered; a failed calculation gives the `math_error` text. */
  lemma ArithmeticBeforeKnowledge(c: Conversation, query: string, bill: Json, language: string,
                                  customerId: Option<string>, env: Environment, e: string)
    requires !IsFeedback(query) && !IsYes(query) && !IsNo(query) && !IsGreeting(query)
    requires MathGroup(query) == Some(e)
    ensures Turn(c, query, bill, language, customerId, env).0 == CalcReply(Calculator.Calculate(e), language)
    ensures Calculator.Calculate(e).Failed? ==> Turn(c, query, bill, language, customerId, env).0 == Template(language, MathError)
  {
    var c1 := Record(c, query, language, customerId);
    TurnAnswers(c, query, bill, language, customerId, env);
    assert MathExpression(query) == Some(e);
    assert MathReply(query, language) == Some(CalcReply(Calculator.Calculate(e), language));
    MathAnswered(c1, query, bill, language, customerId, env);
  }

  /** A query that is neither feedback nor a "yes" is answered after the turn is recorded. */
  lemma TurnAnswers(c: Conversation, query: string, bill: Json, language: string,
                    customerId: Option<string>, env: Environment)
    requires !IsFeedback(query) && !IsYes(query)
    ensures Turn(c, query, bill, language, customerId, env) ==
            Answer(Record(c, query, language, customerId), query, bill, language, customerId, env)
  {
  }

  /** A query the calculator takes is answered by it, unless it is a "no" or a greeting. */
  lemma MathAnswered(c: Conversation, query: string, bill: Json, language: string,
                     customerId: Option<string>, env: Environment)
    requires !IsNo(query) && !IsGreeting(query) && MathReply(query, language).Some?
    ensures Answer(c, query, bill, language, customerId, env) == (MathReply(query, language).value, c)
  {
  }

  /** A request to escalate wins over an invoice-data question. */
  lemma EscalationBeforeInvoiceData(c: Conversation, query: string, bill: Json, language: string,
                                    customerId: Option<string>, env: Environment)
    requires !IsFeedback(query) && !IsYes(query) && !IsNo(query) && !IsGreeting(query)
    requires MathReply(query, language).None?
    requires IsEscalationRequest(query, language) && IsInvoiceDataQuery(query)
    ensures Turn(c, query, bill, language, customerId, env).0 == Template(language, Escalation)
  {
  }

  /** A knowledge-base hit is answered in any language, while the template and prompt
      routes raise `KeyError` for a language other than English or German. */
  lemma KnowledgeInAnyLanguage(c: Conversation, query: string, bill: Json, language: string,
                               customerId: Option<string>, env: Environment)
    requires !IsFeedback(query) && !IsYes(query) && !IsNo(query) && !IsGreeting(query)
    requires MathReply(query, language).None? && !IsEscalationRequest(query, language) && !IsInvoiceDataQuery(query)
    ensures var kb := CheckKnowledge(env.knowledge, query);
            var t := Turn(c, query, bill, language, customerId, env);
            (kb != "" ==> t.0 == Ok(Text(FormatText(kb, language))) && t.1.lastResponse == kb) &&
            (kb == "" && language != "en" && language != "de" ==> t.0 == Err(KeyError(language)))
  {
  }

  /** As intended, a "yes" right after a feedback message escalates. */
  lemma YesAfterFeedbackEscalates(c: Conversation, yes: string, bill: Json, language: string,
                                  customerId: Option<string>, env: Environment)
    requires IsFeedback(c.lastQuery) && IsYes(yes)
    ensures Turn(c, yes, bill, language, customerId, env).0 == Template(language, Escalation)
  {
    assert |LowerStr(yes)| <= 3;
    ShortIsNoFeedback(yes);
  }

  /** As written, the feedback test looks at the "yes" itself, which never contains a
      feedback phrase: after "that's wrong" and "yes" the service does not escalate but
      answers "I would like more information about my bill". */
  lemma YesAfterFeedbackAsWritten(c: Conversation, yes: string, language: string, env: Environment)
    requires IsYes(yes) && c.lastQuery == yes
    requires !Contains(LowerStr(c.lastResponse), "speak with customer service")
    ensures HandleYesAsWritten(c, language, env) == Turn(c, MoreInformation, JNull, language, c.customerId, env)
  {
    assert |LowerStr(yes)| <= 3;
    ShortIsNoFeedback(yes);
  }

  /** The conversation in which the two differ: feedback, then "yes". */
  lemma FeedbackThenYes(language: string, env: Environment)
    ensures var c1 := Turn(Initial, "that's wrong", JNull, language, None, env).1;
            IsFeedback(c1.lastQuery) &&
            !Contains(LowerStr(Record(c1, "yes", language, None).lastResponse), "speak with customer service")
  {
    var lower := LowerStr("that's wrong");
    assert lower == "that's wrong";
    ContainsSlice(lower, 0, |lower|);
    assert lower[0..|lower|] == FeedbackPhrases[4];
    assert IsFeedback("that's wrong");
    ContainsLonger(LowerStr(""), "speak with customer service");
  }
}
