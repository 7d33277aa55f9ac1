/** The rule-based parts of the older chat service (`UtilityBillLLM` in llm_service.py):
    the language templates, recognising customer IDs, escalation requests and
    invoice-data questions, the first-match knowledge lookup, the prompt, and the
    clean-up of a generated answer. */
module LegacyRules {
  import opened Wrappers
  import opened Text
  import opened Errors
  import KB = KnowledgeBase

  // ---------------------------------------------------------------------------
  // Language templates

  /** The two languages with templates. */
  datatype Lang = English | German

  /** The entries of a language's template table. */
  datatype Slot = Format | Escalation | Greeting | Feedback | MathError | NoData

  function EnglishText(slot: Slot): string {
    match slot
    case Format => "As your utility bill assistant, I'll help you understand this clearly."
    case Escalation => "I've escalated your request to our support team. They will contact you within 24 hours. 🔔"
    case Greeting => "Hello! How can I help you with your utility bill today?"
    case Feedback =>
      "I apologize that my previous response wasn't helpful. Would you like me to try again with a different approach or would you prefer to speak with a customer service representative?"
    case MathError => "I'm sorry, but I couldn't perform that calculation. Please check the format and try again."
    case NoData =>
      "I'm sorry, but I couldn't find that information in your account. Would you like to speak with customer service for more details?"
  }

  function GermanText(slot: Slot): string {
    match slot
    case Format => "Als Ihr Assistent für Versorgungsrechnungen helfe ich Ihnen, dies klar zu verstehen."
    case Escalation =>
      "Ich habe Ihre Anfrage an unser Support-Team weitergeleitet. Sie werden sich innerhalb von 24 Stunden bei Ihnen melden. 🔔"
    case Greeting => "Hallo! Wie kann ich Ihnen heute mit Ihrer Versorgungsrechnung helfen?"
    case Feedback =>
      "Ich entschuldige mich, dass meine vorherige Antwort nicht hilfreich war. Möchten Sie, dass ich es mit einem anderen Ansatz versuche, oder möchten Sie lieber mit einem Kundendienstmitarbeiter sprechen?"
    case MathError =>
      "Es tut mir leid, aber ich konnte diese Berechnung nicht durchführen. Bitte überprüfen Sie das Format und versuchen Sie es erneut."
    case NoData =>
      "Es tut mir leid, aber ich konnte diese Information in Ihrem Konto nicht finden. Möchten Sie mit dem Kundendienst sprechen, um weitere Details zu erhalten?"
  }

  /** `self.language_templates[lang][slot]`. */
  function TemplateText(lang: Lang, slot: Slot): string {
    match lang
    case English => EnglishText(slot)
    case German => GermanText(slot)
  }

  /** `self.language_templates[language]`: the table is indexed directly, so a language
      other than English or German raises `KeyError`. */
  function TemplatesFor(language: string): (r: Result<Lang, PyError>)
    ensures r.Ok? <==> language == "en" || language == "de"
    ensures r.Err? ==> r.error == KeyError(language)
    ensures r.Ok? ==> r.value == if language == "de" then German else English
  {
    if language == "en" then Ok(English)
    else if language == "de" then Ok(German)
    else Err(KeyError(language))
  }

  // ---------------------------------------------------------------------------
  // Customer IDs

  /** `[A-Za-z0-9_-]{4,20}` spanning the whole string. */
  predicate IsIdToken(s: string) {
    4 <= |s| <= 20 && forall i :: 0 <= i < |s| ==> IdChar(s[i])
  }

  /** What may stand between `ID` and the ID itself: an optional `:` and whitespace. */
  predicate IdSeparator(sep: string) {
    sep == [] ||
    ((sep[0] == ':' || IsSpace(sep[0])) && forall i :: 1 <= i < |sep| ==> IsSpace(sep[i]))
  }

  /** `re.match(r'^ID:?\s*([A-Za-z0-9_-]{4,20})$', s)` and its captured group. */
  function IdPrefixed(s: string): (r: Option<string>)
    ensures r.Some? ==> IsIdToken(r.value) && |s| >= 2 + |r.value| && s[..2] == "ID" &&
                        s[|s| - |r.value|..] == r.value && IdSeparator(s[2..|s| - |r.value|])
  {
    if |s| >= 2 && s[0] == 'I' && s[1] == 'D' then
      var skip := if |s| > 2 && s[2] == ':' then 3 else 2;
      var u := TrimStart(s[skip..]);
      if IsIdToken(u) then
        SeparatorBefore(s, skip, u);
        Some(u)
      else None
    else None
  }

  /** What `IdPrefixed` skips between `ID` and the trimmed rest is a separator. */
  lemma SeparatorBefore(s: string, skip: nat, u: string)
    requires |s| >= 2 && s[0] == 'I' && s[1] == 'D'
    requires skip == (if |s| > 2 && s[2] == ':' then 3 else 2)
    requires var t := s[skip..];
             |u| <= |t| && u == t[|t| - |u|..] && forall i :: 0 <= i < |t| - |u| ==> IsSpace(t[i])
    ensures |s| >= 2 + |u| && s[..2] == "ID" && s[|s| - |u|..] == u && IdSeparator(s[2..|s| - |u|])
  {
    var t := s[skip..];
    assert s[..2] == "ID";
    forall k | 0 <= k < |u|
      ensures u[k] == s[|s| - |u| + k]
    {
      assert u[k] == t[|t| - |u| + k];
    }
    assert s[|s| - |u|..] == u;
    var sep := s[2..|s| - |u|];
    forall i | skip - 2 <= i < |sep|
      ensures IsSpace(sep[i])
    {
      assert sep[i] == t[i + 2 - skip];
    }
    if sep != [] && skip == 3 {
      assert sep[0] == s[2] == ':';
    }
  }

  /** Every `ID`, separator, ID form is recognised, and the group is the ID alone. */
  lemma IdPrefixedComplete(sep: string, u: string)
    requires IdSeparator(sep) && IsIdToken(u)
    ensures IdPrefixed("ID" + sep + u) == Some(u)
  {
    var s := "ID" + sep + u;
    assert |s| >= 2 && s[0] == 'I' && s[1] == 'D';
    assert !IsSpace(u[0]) && u[0] != ':';
    var t := if |s| > 2 && s[2] == ':' then s[3..] else s[2..];
    if sep != [] && sep[0] == ':' {
      assert s[2] == ':';
      assert t == sep[1..] + u;
      TrimStartSpaces(sep[1..], u);
    } else {
      assert s[2] == (sep + u)[0];
      assert t == sep + u;
      TrimStartSpaces(sep, u);
    }
    assert TrimStart(t) == u;
  }

  /** `extract_customer_id`: the group of an `ID`-prefixed input, else the stripped input
      when it is itself an ID, else nothing. */
  function ExtractCustomerId(query: string): (r: Option<string>)
    ensures r.Some? ==> IsIdToken(r.value)
    ensures IdPrefixed(Strip(query)).Some? ==> r == IdPrefixed(Strip(query))
    ensures IdPrefixed(Strip(query)).None? ==> r == if IsIdToken(Strip(query)) then Some(Strip(query)) else None
  {
    var stripped := Strip(query);
    match IdPrefixed(stripped)
    case Some(id) => Some(id)
    case None => if IsIdToken(stripped) then Some(stripped) else None
  }

  /** `is_customer_id_input`: either pattern matches the stripped input. */
  predicate IsCustomerIdInput(query: string) {
    var stripped := Strip(query);
    IsIdToken(stripped) || IdPrefixed(stripped).Some?
  }

  /** An input is recognised as an ID exactly when an ID can be extracted from it. */
  lemma RecognisedIffExtracted(query: string)
    ensures IsCustomerIdInput(query) <==> ExtractCustomerId(query).Some?
  {
  }

  /** `IDABCD` yields `ABCD`: the prefix is dropped even though the whole input would
      also pass as an ID. */
  lemma ExtractDropsPrefix(u: string)
    requires IsIdToken(u)
    ensures ExtractCustomerId("ID" + u) == Some(u)
  {
    var s := "ID" + u;
    assert !IsSpace(s[0]) && s[|s| - 1] == u[|u| - 1];
    StripUnchanged(s);
    assert s == "ID" + [] + u;
    IdPrefixedComplete([], u);
  }

  const AskIdEn := "Before we start, could you please provide your customer ID? This helps me access your specific information."
  const AskIdDe := "Bevor wir beginnen, könnten Sie bitte Ihre Kundennummer angeben? Dies hilft mir, auf Ihre spezifischen Informationen zuzugreifen."

  /** `ask_for_customer_id`: `messages.get(language, messages['en'])`, so every language
      but German gets the English text. */
  function AskForCustomerId(language: string): (r: string)
    ensures language == "de" ==> r == AskIdDe
    ensures language != "de" ==> r == AskIdEn
  {
    if language == "de" then AskIdDe else AskIdEn
  }

  // ---------------------------------------------------------------------------
  // Escalation and invoice-data questions

  const EscalationEn := ["escalate", "contact support", "talk to human", "speak to agent", "need help",
                         "talk to a person", "customer service"]
  const EscalationDe := ["eskalieren", "support kontaktieren", "mit mensch sprechen", "brauche hilfe",
                         "mit einer person sprechen", "kundendienst"]

  /** `escalation_triggers.get(language, escalation_triggers['en'])`. */
  function EscalationTriggers(language: string): seq<string> {
    if language == "de" then EscalationDe else EscalationEn
  }

  /** `is_escalation_request`: some trigger of the language occurs in the lowered query. */
  predicate IsEscalationRequest(query: string, language: string) {
    ContainsAny(LowerStr(query), EscalationTriggers(language))
  }

  const InvoiceKeywords := ["consumption total", "my bill", "how much do i owe",
                            "my usage", "consumption amount", "total cost",
                            "verbrauch gesamt", "meine rechnung", "wie viel schulde ich",
                            "mein verbrauch", "verbrauchsmenge", "gesamtkosten"]

  /** `is_invoice_data_query`. */
  predicate IsInvoiceDataQuery(query: string) {
    ContainsAny(LowerStr(query), InvoiceKeywords)
  }

  /** Both detectors ignore case, and every language without its own triggers is
      treated as English. */
  lemma DetectorsIgnoreCase(query: string, language: string)
    ensures IsEscalationRequest(LowerStr(query), language) == IsEscalationRequest(query, language)
    ensures IsInvoiceDataQuery(LowerStr(query)) == IsInvoiceDataQuery(query)
    ensures language != "de" ==> IsEscalationRequest(query, language) == IsEscalationRequest(query, "en")
  {
    LowerStrIdempotent(query);
  }

  // ---------------------------------------------------------------------------
  // Knowledge lookup

  /** `item.get('input', '')`. */
  function InputOf(item: KB.KbItem): string {
    if "input" in item then item["input"] else ""
  }

  /** `item.get('response', '')`. */
  function ResponseOf(item: KB.KbItem): string {
    if "response" in item then item["response"] else ""
  }

  /** The test `item.get('input', '').lower() in query_lower`. */
  predicate Answers(item: KB.KbItem, queryLower: string) {
    Contains(queryLower, LowerStr(InputOf(item)))
  }

  /** Index of the first item that answers the query. */
  function FirstAnswer(items: seq<KB.KbItem>, queryLower: string): (r: Option<nat>)
    ensures r.Some? ==> r.value < |items| && Answers(items[r.value], queryLower) &&
                        forall j :: 0 <= j < r.value ==> !Answers(items[j], queryLower)
    ensures r.None? ==> forall j :: 0 <= j < |items| ==> !Answers(items[j], queryLower)
  {
    if items == [] then None
    else if Answers(items[0], queryLower) then Some(0)
    else
      match FirstAnswer(items[1..], queryLower)
      case Some(k) => Some(k + 1)
      case None => None
  }

  /** `check_knowledge`: the response of the first item, category by category, whose
      input occurs in the query, or "" when none does. */
  function CheckKnowledge(cats: KB.Categories, query: string): string {
    match FirstAnswer(KB.AllItems(cats), LowerStr(query))
    case Some(k) => ResponseOf(KB.AllItems(cats)[k])
    case None => ""
  }

  /** An item without an `input` answers every query: the lookup stops at it. */
  lemma NoInputAnswersEverything(cats: KB.Categories, query: string)
    requires cats != [] && cats[0].1 != [] && "input" !in cats[0].1[0]
    ensures CheckKnowledge(cats, query) == ResponseOf(cats[0].1[0])
  {
    ContainsEmpty(LowerStr(query));
    assert KB.AllItems(cats) == cats[0].1 + KB.AllItems(cats[1..]);
    assert KB.AllItems(cats)[0] == cats[0].1[0];
    assert LowerStr(InputOf(cats[0].1[0])) == "";
  }

  /** The lookup gives a response exactly when some item answers the query, and then the
      response of the earliest such item. */
  lemma CheckKnowledgeFirstMatch(cats: KB.Categories, query: string, k: nat)
    requires k < |KB.AllItems(cats)| && Answers(KB.AllItems(cats)[k], LowerStr(query))
    requires forall j :: 0 <= j < k ==> !Answers(KB.AllItems(cats)[j], LowerStr(query))
    ensures CheckKnowledge(cats, query) == ResponseOf(KB.AllItems(cats)[k])
  {
    var r := FirstAnswer(KB.AllItems(cats), LowerStr(query));
    assert r.Some?;
    assert r.value == k;
  }

  // ---------------------------------------------------------------------------
  // The prompt

  /** `previous_queries[-2:]`. */
  function LastTwo(qs: seq<string>): (r: seq<string>)
    ensures |r| == if |qs| < 2 then |qs| else 2
    ensures r == qs[|qs| - |r|..]
  {
    if |qs| <= 2 then qs else qs[|qs| - 2..]
  }

  /** One `User: q` line per non-empty query. */
  function UserLines(qs: seq<string>): (r: seq<string>)
    ensures |r| <= |qs|
    ensures forall k :: 0 <= k < |r| ==> |r[k]| > 6 && r[k][..6] == "User: "
  {
    if qs == [] then []
    else (if qs[0] != "" then ["User: " + qs[0]] else []) + UserLines(qs[1..])
  }

  /** `conv_history`: the heading and the last two non-empty earlier queries. */
  function History(previous: seq<string>): string {
    "Recent conversation:\n" + Join(UserLines(LastTwo(previous)), "\n")
  }

  /** `context_parts`: the invoice context, the retrieved text and the history, each only
      when present (the history whenever there are earlier queries at all). */
  function ContextParts(invoiceContext: string, relevantContext: string, previous: seq<string>): (r: seq<string>)
    ensures |r| == (if invoiceContext != "" then 1 else 0) + (if relevantContext != "" then 1 else 0) +
                   (if previous != [] then 1 else 0)
    ensures invoiceContext != "" ==> r[0] == "Invoice Context:\n" + invoiceContext
    ensures previous != [] ==> r[|r| - 1] == History(previous)
  {
    (if invoiceContext != "" then ["Invoice Context:\n" + invoiceContext] else []) +
    (if relevantContext != "" then ["Relevant Information:\n" + relevantContext] else []) +
    (if previous != [] then [History(previous)] else [])
  }

  /** `build_prompt`. */
  function BuildPrompt(system: string, query: string, invoiceContext: string, relevantContext: string,
                       previous: seq<string>, language: string): Result<string, PyError> {
    match TemplatesFor(language)
    case Err(e) => Err(e)
    case Ok(lang) =>
      Ok(PromptText(system, Join(ContextParts(invoiceContext, relevantContext, previous), "\n\n"),
                    TemplateText(lang, Format), query))
  }

  /** The prompt's layout: system text, the joined contexts, the format instruction, the question. */
  function PromptText(system: string, contexts: string, instruction: string, query: string): string {
    system + "\n\n" + contexts + "\n\n" + instruction + "\n\nUser Question: " + query + "\nAnswer:"
  }

  /** The prompt starts with the system text and ends with the question; it fails only
      for a language without templates. */
  lemma PromptFrame(system: string, query: string, invoiceContext: string, relevantContext: string,
                    previous: seq<string>, language: string)
    ensures var r := BuildPrompt(system, query, invoiceContext, relevantContext, previous, language);
            (r.Err? <==> language != "en" && language != "de") &&
            (r.Err? ==> r.error == KeyError(language)) &&
            (r.Ok? ==> StartsWith(r.value, system) &&
                       EndsWith(r.value, "\n\nUser Question: " + query + "\nAnswer:"))
  {
    match TemplatesFor(language)
    case Err(_) =>
    case Ok(lang) =>
      PromptTextFramed(system, Join(ContextParts(invoiceContext, relevantContext, previous), "\n\n"),
                       TemplateText(lang, Format), query);
  }

  lemma PromptTextFramed(system: string, contexts: string, instruction: string, query: string)
    ensures StartsWith(PromptText(system, contexts, instruction, query), system)
    ensures EndsWith(PromptText(system, contexts, instruction, query), "\n\nUser Question: " + query + "\nAnswer:")
  {
    var mid := "\n\n" + contexts + "\n\n" + instruction;
    var tail := "\n\nUser Question: " + query + "\nAnswer:";
    assert PromptText(system, contexts, instruction, query) == system + mid + tail;
    FramedBy(system, mid, tail);
  }

  lemma FramedBy(head: string, mid: string, tail: string)
    ensures StartsWith(head + mid + tail, head) && EndsWith(head + mid + tail, tail)
  {
    var s := head + mid + tail;
    assert s[..|head|] == head;
    assert s[|s| - |tail|..] == tail;
  }

  /** The history keeps at most the last two earlier queries, drops empty ones, and ends
      with the latest one when that is not empty. */
  lemma HistoryLines(previous: seq<string>, q: string)
    requires q != ""
    ensures |UserLines(LastTwo(previous))| <= 2
    ensures var lines := UserLines(LastTwo(previous + [q]));
            lines != [] && lines[|lines| - 1] == "User: " + q
  {
    var l := LastTwo(previous + [q]);
    assert l[|l| - 1] == q;
    UserLinesLast(l);
  }

  /** On the second turn the only earlier query is the empty initial one, so the history
      is the heading alone. */
  lemma SecondTurnHistory()
    ensures History([""]) == "Recent conversation:\n"
  {
    assert LastTwo([""]) == [""];
    assert UserLines([""]) == [] + UserLines([]);
    assert Join([], "\n") == "";
  }

  lemma {:induction false} UserLinesLast(qs: seq<string>)
    requires qs != [] && qs[|qs| - 1] != ""
    ensures var lines := UserLines(qs);
            lines != [] && lines[|lines| - 1] == "User: " + qs[|qs| - 1]
    decreases |qs|
  {
    if |qs| > 1 {
      UserLinesLast(qs[1..]);
      assert qs[1..][|qs| - 2] == qs[|qs| - 1];
    }
  }

  // ---------------------------------------------------------------------------
  // Cleaning up an answer

  const MoneyBag := '💰'
  const Lightning := '⚡'
  const Scroll := '📜'
  const Bell := '🔔'

  predicate HasEmoji(s: string) {
    MoneyBag in s || Lightning in s || Scroll in s || Bell in s
  }

  /** `re.sub(r'^Answer:\s*', '', s)`. */
  function DropAnswer(s: string): (r: string)
    ensures !StartsWith(s, "Answer:") ==> r == s
    ensures StartsWith(s, "Answer:") ==> |r| <= |s| - 7 && r == s[|s| - |r|..] && (r == [] || !IsSpace(r[0])) &&
                                         forall i :: 7 <= i < |s| - |r| ==> IsSpace(s[i])
  {
    if StartsWith(s, "Answer:") then TrimStart(s[7..]) else s
  }

  /** `[\w\s-]`. */
  predicate RefChar(c: char) {
    IsWordChar(c) || IsSpace(c) || c == '-'
  }

  function RefRun(s: string): (n: nat)
    ensures n <= |s|
  {
    if s == [] || !RefChar(s[0]) then 0 else 1 + RefRun(s[1..])
  }

  /** A legal reference `§\d+[\w\s-]*` starts here. */
  predicate RefStart(s: string) {
    |s| >= 2 && s[0] == '§' && IsDigit(s[1])
  }

  /** `re.sub(r'(§\d+[\w\s-]*)', r'**\1**', s)`: every legal reference is set in bold. */
  function Highlight(s: string): string
    decreases |s|
  {
    if s == [] then []
    else if RefStart(s) then
      var n := 2 + RefRun(s[2..]);
      "**" + s[..n] + "**" + Highlight(s[n..])
    else [s[0]] + Highlight(s[1..])
  }

  /** A text without `§` has nothing to highlight. */
  lemma {:induction false} HighlightWithoutReferences(s: string)
    requires forall i :: 0 <= i < |s| ==> s[i] != '§'
    ensures Highlight(s) == s
    decreases |s|
  {
    if s != [] {
      HighlightWithoutReferences(s[1..]);
    }
  }

  /** Removing `**` afterwards undoes the highlighting, whatever precedes it. */
  lemma {:induction false} HighlightUndone(p: string, s: string)
    ensures ReplaceAll(p + Highlight(s), "**", "") == ReplaceAll(p + s, "**", "")
    decreases |s|, 1
  {
    if s == [] {
      assert p + [] == p;
    } else if RefStart(s) {
      var n := 2 + RefRun(s[2..]);
      HighlightRef(p, s, n);
    } else {
      var h := Highlight(s[1..]);
      assert Highlight(s) == [s[0]] + h;
      assert p + Highlight(s) == (p + [s[0]]) + h;
      HighlightUndone(p + [s[0]], s[1..]);
      assert (p + [s[0]]) + s[1..] == p + s;
    }
  }

  lemma {:induction false} HighlightRef(p: string, s: string, n: nat)
    requires RefStart(s) && n == 2 + RefRun(s[2..])
    ensures ReplaceAll(p + Highlight(s), "**", "") == ReplaceAll(p + s, "**", "")
    decreases |s|, 0
  {
    var a := s[..n];
    var h := Highlight(s[n..]);
    BoldSplit(p, a, h, Highlight(s));
    HighlightUndone(p + a, s[n..]);
    assert (p + a) + s[n..] == p + s;
  }

  /** The emoji prefix: none when the text already has one of the four, otherwise the
      first that fits in the order price or cost, consumption or usage, law or regulation. */
  function AddEmoji(s: string): (r: string)
    ensures HasEmoji(s) ==> r == s
    ensures r == s || (!HasEmoji(s) && |r| == |s| + 2 && r[2..] == s && r[1] == ' ' &&
                       (r[0] == MoneyBag || r[0] == Lightning || r[0] == Scroll))
    ensures !HasEmoji(s) && (Contains(LowerStr(s), "price") || Contains(LowerStr(s), "cost")) ==> r[0] == MoneyBag
  {
    var lower := LowerStr(s);
    if HasEmoji(s) then s
    else if Contains(lower, "price") || Contains(lower, "cost") then [MoneyBag, ' '] + s
    else if Contains(lower, "consumption") || Contains(lower, "usage") then [Lightning, ' '] + s
    else if Contains(lower, "law") || Contains(lower, "regulation") then [Scroll, ' '] + s
    else s
  }

  /** `format_response`, step by step. */
  function FormatText(response: string, language: string): string {
    var marked := AddEmoji(Highlight(DropAnswer(response)));
    Strip(if language == "de" then ReplaceAll(marked, "**", "") else marked)
  }

  method FormatResponse(response: string, language: string) returns (r: string)
    ensures r == FormatText(response, language)
  {
    r := DropAnswer(response);
    r := Highlight(r);
    r := AddEmoji(r);
    if language == "de" {
      r := ReplaceAll(r, "**", "");
    }
    r := Strip(r);
  }

  /** German answers carry no `**` at all: neither the highlighting nor any in the text. */
  lemma GermanWithoutMarkup(response: string)
    ensures NoDoubleStar(FormatText(response, "de"))
  {
    var marked := AddEmoji(Highlight(DropAnswer(response)));
    RemoveStarsLeavesNone(marked);
    StripNoDoubleStar(ReplaceAll(marked, "**", ""));
  }

  /** For German the highlighting leaves no trace once the stars are removed. */
  lemma GermanIgnoresHighlighting(s: string)
    ensures ReplaceAll(Highlight(s), "**", "") == ReplaceAll(s, "**", "")
  {
    HighlightUndone([], s);
    assert [] + Highlight(s) == Highlight(s) && [] + s == s;
  }
}
