/** The backend's plain chat service (`UtilityBillLLM` in backend/llm_service.py): an
    escalation request is answered at once, then a knowledge-base entry whose question
    occurs in the query, and only then the language model on a prompt built from the
    invoice. */
module BackendService {
  import opened Wrappers
  import opened Text
  import opened Errors
  import opened Json
  import KB = KnowledgeBase

  const EnglishTriggers := ["escalate", "contact support", "talk to human"]
  const GermanTriggers := ["eskalieren", "support kontaktieren", "mit mensch sprechen"]

  const EnglishEscalation := "I've escalated your request to our support team. They'll contact you within 24 hours. 🔔"
  const GermanEscalation := "Ich habe Ihre Anfrage an unser Support-Team weitergeleitet. Sie werden sich innerhalb von 24 Stunden bei Ihnen melden. 🔔"

  const EnglishInstructions := "Answer in English with:\n1. Clear explanation\n2. Legal basis if relevant\n3. Next steps if needed"
  const GermanInstructions := "Antworte auf Deutsch mit:\n1. Klare Erklärung\n2. Rechtsgrundlage falls zutreffend\n3. Nächste Schritte falls nötig"

  const Header := "You are KlarBill, a utility billing expert. Use this context:\n"

  predicate Supported(language: string) {
    language == "en" || language == "de"
  }

  // ---------------------------------------------------------------------------
  // Escalation

  /** `escalation_triggers[language]`. */
  function Triggers(language: string): (r: Result<seq<string>, PyError>)
    ensures r.Err? <==> !Supported(language)
    ensures r.Err? ==> r.error == KeyError(language)
  {
    if language == "en" then Ok(EnglishTriggers)
    else if language == "de" then Ok(GermanTriggers)
    else Err(KeyError(language))
  }

  /** `is_escalation_request`: some trigger of the language occurs in the lower-cased
      query; the trigger table is indexed directly, so another language raises. */
  function IsEscalation(query: string, language: string): (r: Result<bool, PyError>)
    ensures r.Err? <==> !Supported(language)
    ensures r.Ok? ==> (r.value <==> exists k :: 0 <= k < |Triggers(language).value| &&
                                               Contains(LowerStr(query), Triggers(language).value[k]))
  {
    match Triggers(language)
    case Err(e) => Err(e)
    case Ok(triggers) => Ok(ContainsAny(LowerStr(query), triggers))
  }

  /** The test does not depend on the case of the query. */
  lemma EscalationIgnoresCase(query: string, language: string)
    ensures IsEscalation(LowerStr(query), language) == IsEscalation(query, language)
  {
    LowerStrIdempotent(query);
  }

  /** `format_escalation_response`. */
  function EscalationText(language: string): (r: Result<string, PyError>)
    ensures r.Err? <==> !Supported(language)
  {
    if language == "en" then Ok(EnglishEscalation)
    else if language == "de" then Ok(GermanEscalation)
    else Err(KeyError(language))
  }

  // ---------------------------------------------------------------------------
  // Knowledge lookup

  /** The scan of `check_knowledge` over the entries in order: `item[itemkey]` raises for
      an entry without the question in the language, and `item['response']` for a
      matching entry without an answer. */
  function Scan(items: seq<KB.KbItem>, queryLower: string, key: string): Result<string, PyError>
  {
    if items == [] then Ok("")
    else if key !in items[0] then Err(KeyError(key))
    else if Contains(queryLower, LowerStr(items[0][key])) then
      if "response" in items[0] then Ok(items[0]["response"]) else Err(KeyError("response"))
    else Scan(items[1..], queryLower, key)
  }

  /** `check_knowledge(query, language)`. */
  function CheckKnowledge(cats: KB.Categories, query: string, language: string): Result<string, PyError> {
    Scan(KB.AllItems(cats), LowerStr(query), KB.InputKey(language))
  }

  /** Entries before `k` have a question that does not occur in the query. */
  predicate Passed(items: seq<KB.KbItem>, queryLower: string, key: string, k: nat)
    requires k <= |items|
  {
    forall j :: 0 <= j < k ==> key in items[j] && !Contains(queryLower, LowerStr(items[j][key]))
  }

  /** The scan stops at the first entry that matches or lacks the question: the first
      match gives its answer, a missing question raises `KeyError`. */
  lemma {:induction false} ScanStops(items: seq<KB.KbItem>, queryLower: string, key: string, k: nat)
    requires k < |items| && Passed(items, queryLower, key, k)
    ensures key !in items[k] ==> Scan(items, queryLower, key) == Err(KeyError(key))
    ensures key in items[k] && Contains(queryLower, LowerStr(items[k][key])) ==>
              Scan(items, queryLower, key) ==
              if "response" in items[k] then Ok(items[k]["response"]) else Err(KeyError("response"))
  {
    if k > 0 {
      assert key in items[0] && !Contains(queryLower, LowerStr(items[0][key]));
      assert forall j :: 0 <= j < k - 1 ==> items[1..][j] == items[j + 1];
      ScanStops(items[1..], queryLower, key, k - 1);
    }
  }

  /** When every entry has the question and none occurs in the query, the lookup gives "". */
  lemma {:induction false} ScanMisses(items: seq<KB.KbItem>, queryLower: string, key: string)
    requires Passed(items, queryLower, key, |items|)
    ensures Scan(items, queryLower, key) == Ok("")
  {
    if items != [] {
      assert key in items[0] && !Contains(queryLower, LowerStr(items[0][key]));
      assert forall j :: 0 <= j < |items| - 1 ==> items[1..][j] == items[j + 1];
      ScanMisses(items[1..], queryLower, key);
    }
  }

  /** The lookup answers with the first entry, category by category, whose question
      occurs in the query. */
  lemma CheckKnowledgeFirstMatch(cats: KB.Categories, query: string, language: string, k: nat)
    requires var items := KB.AllItems(cats);
             k < |items| && Passed(items, LowerStr(query), KB.InputKey(language), k) &&
             KB.InputKey(language) in items[k] && "response" in items[k] &&
             Contains(LowerStr(query), LowerStr(items[k][KB.InputKey(language)]))
    ensures CheckKnowledge(cats, query, language) == Ok(KB.AllItems(cats)[k]["response"])
  {
    ScanStops(KB.AllItems(cats), LowerStr(query), KB.InputKey(language), k);
  }

  // ---------------------------------------------------------------------------
  // The prompt

  /** `self.language_instructions[language]`. */
  function Instructions(language: string): (r: Result<string, PyError>)
    ensures r.Err? <==> !Supported(language)
  {
    if language == "en" then Ok(EnglishInstructions)
    else if language == "de" then Ok(GermanInstructions)
    else Err(KeyError(language))
  }

  /** One `- key: value` line per entry of the invoice context, in mapping order;
      `show` renders a value as an f-string does. */
  function ContextLines(fields: seq<(string, Json)>, show: Json -> string): (r: seq<string>)
    ensures |r| == |fields|
    ensures forall k :: 0 <= k < |fields| ==> r[k] == "- " + fields[k].0 + ": " + show(fields[k].1)
  {
    if fields == [] then []
    else ["- " + fields[0].0 + ": " + show(fields[0].1)] + ContextLines(fields[1..], show)
  }

  /** The context block: empty for a missing or empty context. */
  function ContextSection(context: Option<seq<(string, Json)>>, show: Json -> string): string {
    match context
    case None => ""
    case Some(fields) =>
      if fields == [] then "" else "Invoice Context:\n" + Join(ContextLines(fields, show), "\n")
  }

  /** The end of every prompt. */
  function QuestionLine(query: string): string {
    "\n\nQuestion: " + query + "\nAnswer:"
  }

  /** The prompt text around a context block and the instructions. */
  function Assemble(section: string, instructions: string, query: string): (r: string)
    ensures StartsWith(r, Header) && EndsWith(r, QuestionLine(query))
  {
    var body := section + "\n\n" + instructions;
    Concatenated(Header, body + QuestionLine(query));
    Concatenated(Header + body, QuestionLine(query));
    assert Header + (body + QuestionLine(query)) == Header + body + QuestionLine(query);
    Header + body + QuestionLine(query)
  }

  /** `build_prompt`. */
  function BuildPrompt(query: string, context: Option<seq<(string, Json)>>, language: string,
                       show: Json -> string): (r: Result<string, PyError>)
    ensures r.Err? <==> !Supported(language)
    ensures r.Ok? ==> StartsWith(r.value, Header) && EndsWith(r.value, QuestionLine(query))
  {
    match Instructions(language)
    case Err(e) => Err(e)
    case Ok(instructions) => Ok(Assemble(ContextSection(context, show), instructions, query))
  }

  /** Whatever the context block contains, the prompt contains. */
  lemma AssembleContains(section: string, instructions: string, query: string, sub: string)
    requires Contains(section, sub)
    ensures Contains(Assemble(section, instructions, query), sub)
  {
    var back := "\n\n" + instructions + QuestionLine(query);
    ContainsWithin(Header, section, back, sub);
    assert Header + (section + "\n\n" + instructions) + QuestionLine(query) == Header + section + back;
  }

  /** Every entry of a context appears in the prompt as its own `- key: value` line. */
  lemma PromptListsContext(query: string, fields: seq<(string, Json)>, language: string,
                           show: Json -> string, k: nat)
    requires Supported(language) && k < |fields|
    ensures Contains(BuildPrompt(query, Some(fields), language, show).value,
                     "- " + fields[k].0 + ": " + show(fields[k].1))
  {
    var lines := ContextLines(fields, show);
    var joined := Join(lines, "\n");
    JoinContains(lines, "\n", k);
    ContainsWithin("Invoice Context:\n", joined, "", lines[k]);
    var section := ContextSection(Some(fields), show);
    assert section == "Invoice Context:\n" + joined + "";
    AssembleContains(section, Instructions(language).value, query, lines[k]);
  }

  /** A missing context and an empty one give the same prompt, without a context block. */
  lemma FalsyContextOmitted(query: string, language: string, show: Json -> string)
    requires Supported(language)
    ensures BuildPrompt(query, None, language, show) == BuildPrompt(query, Some([]), language, show)
    ensures BuildPrompt(query, None, language, show).value ==
            Header + "\n\n" + Instructions(language).value + QuestionLine(query)
  {
    var instructions := Instructions(language).value;
    assert ContextSection(None, show) == "" && ContextSection(Some([]), show) == "";
    assert "" + "\n\n" + instructions == "\n\n" + instructions;
    assert Header + ("\n\n" + instructions) == Header + "\n\n" + instructions;
  }

  // ---------------------------------------------------------------------------
  // Answer clean-up

  function WordRun(s: string): (n: nat)
    ensures n <= |s|
    ensures forall i :: 0 <= i < n ==> IsWordChar(s[i])
    ensures n == |s| || !IsWordChar(s[n])
  {
    if s == [] || !IsWordChar(s[0]) then 0 else 1 + WordRun(s[1..])
  }

  /** The length of the legal reference `§\d+ \w+` that starts the text, if one does. */
  function ReferenceAt(s: string): (r: Option<nat>)
    ensures r.Some? ==> 4 <= r.value <= |s| && s[0] == '§'
    ensures s != [] && s[0] != '§' ==> r.None?
  {
    if s == [] || s[0] != '§' then None
    else
      var d := 1 + DigitRun(s[1..]);
      if d == 1 || d == |s| || s[d] != ' ' then None
      else
        var w := WordRun(s[d + 1..]);
        if w == 0 then None else Some(d + 1 + w)
  }

  /** A reference found is `§`, digits, one space and a word, and the word ends there. */
  lemma ReferenceShape(s: string)
    requires ReferenceAt(s).Some?
    ensures var n := ReferenceAt(s).value;
            IsDigit(s[1]) &&
            (exists d :: 2 <= d < n - 1 && s[d] == ' ' &&
                         (forall i :: 1 <= i < d ==> IsDigit(s[i])) &&
                         (forall i :: d < i < n ==> IsWordChar(s[i]))) &&
            (n == |s| || !IsWordChar(s[n]))
  {
    var d := 1 + DigitRun(s[1..]);
    var w := WordRun(s[d + 1..]);
    forall i | 1 <= i < d
      ensures IsDigit(s[i])
    {
      assert s[i] == s[1..][i - 1];
    }
    forall i | d < i < d + 1 + w
      ensures IsWordChar(s[i])
    {
      assert s[i] == s[d + 1..][i - d - 1];
    }
    assert d + 1 + w == |s| || s[d + 1 + w] == s[d + 1..][w];
  }

  /** `re.sub(r'(§\d+ \w+)', r'**\1**', s)`: each reference wrapped in `**`, scanning left
      to right. */
  function Emphasize(s: string): string
    decreases |s|
  {
    if s == [] then []
    else match ReferenceAt(s)
      case Some(n) => "**" + s[..n] + "**" + Emphasize(s[n..])
      case None => [s[0]] + Emphasize(s[1..])
  }

  /** `format_response`. */
  function FormatText(response: string, language: string): string {
    var marked := Emphasize(response);
    Strip(if language == "de" then ReplaceAll(marked, "**", "") else marked)
  }

  /** A text without `§` is left as it is. */
  lemma {:induction false} EmphasizeWithoutReferences(s: string)
    requires forall i :: 0 <= i < |s| ==> s[i] != '§'
    ensures Emphasize(s) == s
    decreases |s|
  {
    if s != [] {
      EmphasizeWithoutReferences(s[1..]);
    }
  }

  /** Text before the first `§` passes through unchanged. */
  lemma {:induction false} EmphasizeAfter(a: string, s: string)
    requires forall i :: 0 <= i < |a| ==> a[i] != '§'
    ensures Emphasize(a + s) == a + Emphasize(s)
    decreases |a|
  {
    if a != [] {
      var t := a + s;
      assert t[0] == a[0] && t[1..] == a[1..] + s;
      assert ReferenceAt(t).None?;
      assert Emphasize(t) == [a[0]] + Emphasize(a[1..] + s);
      EmphasizeAfter(a[1..], s);
      assert a == [a[0]] + a[1..];
    } else {
      assert a + s == s;
    }
  }

  /** A reference is wrapped in `**` as a whole. */
  lemma EmphasizeReference(a: string, ref: string, b: string)
    requires forall i :: 0 <= i < |a| ==> a[i] != '§'
    requires ReferenceAt(ref + b) == Some(|ref|)
    ensures Emphasize(a + ref + b) == a + "**" + ref + "**" + Emphasize(b)
  {
    EmphasizeAfter(a, ref + b);
    assert a + ref + b == a + (ref + b);
    assert (ref + b)[..|ref|] == ref && (ref + b)[|ref|..] == b;
  }

  /** Removing every `**` undoes the emphasis. */
  lemma {:induction false} EmphasisUndone(p: string, s: string)
    ensures ReplaceAll(p + Emphasize(s), "**", "") == ReplaceAll(p + s, "**", "")
    decreases |s|, 1
  {
    if s == [] {
      assert p + Emphasize(s) == p + s;
    } else if ReferenceAt(s).Some? {
      EmphasisUndoneAt(p, s, ReferenceAt(s).value);
    } else {
      var e := Emphasize(s[1..]);
      assert Emphasize(s) == [s[0]] + e;
      assert p + Emphasize(s) == (p + [s[0]]) + e;
      EmphasisUndone(p + [s[0]], s[1..]);
      assert (p + [s[0]]) + s[1..] == p + s;
    }
  }

  lemma {:induction false} EmphasisUndoneAt(p: string, s: string, n: nat)
    requires s != [] && ReferenceAt(s) == Some(n)
    ensures ReplaceAll(p + Emphasize(s), "**", "") == ReplaceAll(p + s, "**", "")
    decreases |s|, 0
  {
    var a := s[..n];
    BoldSplit(p, a, Emphasize(s[n..]), Emphasize(s));
    EmphasisUndone(p + a, s[n..]);
    assert (p + a) + s[n..] == p + s;
  }

  /** In German the emphasis is taken out again, with every `**` the answer had: the
      result is the stripped answer without `**`. */
  lemma GermanFormat(response: string)
    ensures FormatText(response, "de") == Strip(ReplaceAll(response, "**", ""))
    ensures NoDoubleStar(FormatText(response, "de"))
  {
    EmphasisUndone("", response);
    assert "" + Emphasize(response) == Emphasize(response);
    assert "" + response == response;
    RemoveStarsLeavesNone(response);
    StripNoDoubleStar(ReplaceAll(response, "**", ""));
  }

  /** In English an answer without legal references is only stripped. */
  lemma EnglishWithoutReferences(response: string)
    requires forall i :: 0 <= i < |response| ==> response[i] != '§'
    ensures FormatText(response, "en") == Strip(response)
  {
    EmphasizeWithoutReferences(response);
  }

  // ---------------------------------------------------------------------------
  // A turn

  /** `get_response`, with the language model `generate` as a parameter. */
  function GetResponse(cats: KB.Categories, query: string, context: Option<seq<(string, Json)>>,
                       language: string, show: Json -> string, generate: (string, nat) -> string)
    : (r: Result<string, PyError>)
    ensures r.Err? ==> !Supported(language) || CheckKnowledge(cats, query, language).Err?
  {
    match IsEscalation(query, language)
    case Err(e) => Err(e)
    case Ok(escalate) =>
      if escalate then EscalationText(language)
      else match CheckKnowledge(cats, query, language)
        case Err(e) => Err(e)
        case Ok(kb) =>
          if kb != "" then Ok(FormatText(kb, language))
          else match BuildPrompt(query, context, language, show)
            case Err(e) => Err(e)
            case Ok(prompt) => Ok(FormatText(generate(prompt, 300), language))
  }

  /** Escalation is checked first: the knowledge base and the model are not consulted. */
  lemma EscalationFirst(cats: KB.Categories, query: string, context: Option<seq<(string, Json)>>,
                        language: string, show: Json -> string, generate: (string, nat) -> string, k: nat)
    requires Supported(language) && k < |Triggers(language).value| &&
             Contains(LowerStr(query), Triggers(language).value[k])
    ensures GetResponse(cats, query, context, language, show, generate) ==
            Ok(if language == "en" then EnglishEscalation else GermanEscalation)
  {
  }

  /** A knowledge-base answer is used before the model is asked. */
  lemma KnowledgeBeforeModel(cats: KB.Categories, query: string, context: Option<seq<(string, Json)>>,
                             language: string, show: Json -> string, generate: (string, nat) -> string)
    requires IsEscalation(query, language) == Ok(false)
    requires CheckKnowledge(cats, query, language).Ok? && CheckKnowledge(cats, query, language).value != ""
    ensures GetResponse(cats, query, context, language, show, generate) ==
            Ok(FormatText(CheckKnowledge(cats, query, language).value, language))
  {
  }

  /** Otherwise the model answers the prompt with a budget of 300 tokens. */
  lemma ModelLast(cats: KB.Categories, query: string, context: Option<seq<(string, Json)>>,
                  language: string, show: Json -> string, generate: (string, nat) -> string)
    requires IsEscalation(query, language) == Ok(false) && CheckKnowledge(cats, query, language) == Ok("")
    ensures GetResponse(cats, query, context, language, show, generate) ==
            Ok(FormatText(generate(BuildPrompt(query, context, language, show).value, 300), language))
  {
  }
}
