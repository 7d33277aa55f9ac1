/** The chat endpoint of the older application (`ask_question` in app.py): before a
    customer ID is known, a message that is an ID registers it, a message that is
    neither a yes or no nor a greeting is answered with a request for the ID, and
    everything else goes to the assistant. */
module ChatGate {
  import opened Wrappers
  import opened Text
  import opened Errors
  import opened Json
  import opened LegacyRules
  import Service = LegacyService

  /** What the endpoint does with a message. */
  datatype Decision = Register(id: string) | AskForId | Delegate

  /** The endpoint's JSON answer: `{"response", "customer_id"}`,
      `{"response", "needs_customer_id": True}`, `{"response"}`, or HTTP 500. */
  datatype Answer =
    | Registered(response: string, customerId: string)
    | NeedsId(response: string)
    | Answered(reply: Service.Reply)
    | ServerError(detail: string)

  predicate Given(s: Option<string>) {
    s.Some? && s.value != ""
  }

  predicate IsShortAnswer(message: string) {
    LowerStr(Strip(message)) in ["yes", "no", "ja", "nein"]
  }

  predicate MentionsGreeting(message: string) {
    exists g :: g in Service.Greetings && Contains(LowerStr(message), g)
  }

  /** The rule of `ask_question`. */
  function Decide(message: string, customerId: Option<string>): Decision {
    if !Given(customerId) && IsCustomerIdInput(message) && ExtractCustomerId(message).Some? then
      Register(ExtractCustomerId(message).value)
    else if !Given(customerId) && !IsShortAnswer(message) && !MentionsGreeting(message) then AskForId
    else Delegate
  }

  /** An ID is registered exactly when none is known and one can be extracted, and the
      request for an ID is only made while none is known. */
  lemma DecideCases(message: string, customerId: Option<string>)
    ensures Decide(message, customerId).Register? <==> !Given(customerId) && ExtractCustomerId(message).Some?
    ensures Decide(message, customerId).Register? ==> Decide(message, customerId).id == ExtractCustomerId(message).value
    ensures Decide(message, customerId) == AskForId <==>
              !Given(customerId) && ExtractCustomerId(message).None? && !IsShortAnswer(message) && !MentionsGreeting(message)
    ensures Given(customerId) ==> Decide(message, customerId) == Delegate
  {
    RecognisedIffExtracted(message);
  }

  /** A lone word of 4 to 20 ID characters is always taken for an ID, so "nein" and
      "hello" are registered rather than exempted as an answer or a greeting. */
  lemma WordsTakenForIds(word: string, customerId: Option<string>)
    requires IsIdToken(word) && !Given(customerId)
    ensures Decide(word, customerId).Register?
  {
    assert !IsSpace(word[0]) && !IsSpace(word[|word| - 1]);
    StripUnchanged(word);
    RecognisedIffExtracted(word);
  }

  /** The confirmation of a registered ID. */
  function Confirmation(id: string, language: string): (r: string)
    ensures Contains(r, id)
  {
    var front := if language == "de" then "Danke! Ich habe Ihre Kundennummer registriert: "
                 else "Thanks! I've registered your customer ID: ";
    var back := if language == "de" then ". Wie kann ich Ihnen heute mit Ihrer Versorgungsrechnung helfen?"
                else ". How can I help with your utility bill today?";
    ContainsSlice(id, 0, |id|);
    assert id[0..|id|] == id;
    ContainsWithin(front, id, back, id);
    front + id + back
  }

  /** `ask_question`, with the assistant's turn taken on `assistant`. */
  method AskQuestion(assistant: Service.UtilityBillAssistant, message: string, context: Json, language: string,
                     customerId: Option<string>, env: Service.Environment) returns (answer: Answer)
    modifies assistant
    ensures Decide(message, customerId).Register? ==>
              answer == Registered(Confirmation(Decide(message, customerId).id, language), Decide(message, customerId).id) &&
              unchanged(assistant)
    ensures Decide(message, customerId) == AskForId ==>
              answer == NeedsId(AskForCustomerId(language)) && unchanged(assistant)
    ensures Decide(message, customerId) == Delegate ==>
              var t := Service.Turn(old(assistant.State()), message, context, language, customerId, env);
              assistant.State() == t.1 &&
              answer == match t.0 case Ok(reply) => Answered(reply)
                                  case Err(e) => ServerError("Error processing request: " + e.Str())
  {
    var decision := Decide(message, customerId);
    if decision.Register? {
      answer := Registered(Confirmation(decision.id, language), decision.id);
    } else if decision == AskForId {
      answer := NeedsId(AskForCustomerId(language));
    } else {
      var r := assistant.GetResponse(message, context, language, customerId, env);
      if r.Ok? {
        answer := Answered(r.value);
      } else {
        answer := ServerError("Error processing request: " + r.error.Str());
      }
    }
  }
}
