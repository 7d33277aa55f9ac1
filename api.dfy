/** The HTTP layer of the backend (backend/app.py): the customer number that names the
    log location, the greeting built from the customer's invoice, and the reply the
    chat endpoint shapes from the assistant's result. */
module Api {
  import opened Wrappers
  import opened Text
  import opened Errors
  import opened Json

  // ---------------------------------------------------------------------------
  // The log location

  const LogPrefix := "https://klarbill-3de73-default-rtdb.europe-west1.firebasedatabase.app/conversations/"
  const LogSuffix := "/messages.json"

  /** `re.sub(r'[^a-zA-Z0-9_-]', '_', customer_number)`. */
  function Sanitize(s: string): (r: string)
    ensures |r| == |s|
    ensures forall i :: 0 <= i < |r| ==> IdChar(r[i])
    ensures forall i :: 0 <= i < |s| && IdChar(s[i]) ==> r[i] == s[i]
    ensures forall i :: 0 <= i < |s| && !IdChar(s[i]) ==> r[i] == '_'
  {
    if s == [] then []
    else [if IdChar(s[0]) then s[0] else '_'] + Sanitize(s[1..])
  }

  /** Sanitising twice changes nothing more, and a valid customer number is kept. */
  lemma SanitizeIdempotent(s: string)
    ensures Sanitize(Sanitize(s)) == Sanitize(s)
    ensures (forall i :: 0 <= i < |s| ==> IdChar(s[i])) ==> Sanitize(s) == s
  {
  }

  /** The log location of a customer's messages. */
  function LogPath(customerNumber: string): string {
    LogPrefix + Sanitize(customerNumber) + LogSuffix
  }

  /** Whatever the customer number, the log location stays one path segment below the
      conversations: the segment has the number's length and holds no `/` and no `.`. */
  lemma LogPathConfined(customerNumber: string)
    ensures var p := LogPath(customerNumber);
            var seg := p[|LogPrefix|..|p| - |LogSuffix|];
            StartsWith(p, LogPrefix) && EndsWith(p, LogSuffix) && |seg| == |customerNumber| &&
            forall i :: 0 <= i < |seg| ==> seg[i] != '/' && seg[i] != '.'
  {
    var seg := Sanitize(customerNumber);
    var p := LogPath(customerNumber);
    Concatenated(LogPrefix + seg, LogSuffix);
    Concatenated(LogPrefix, seg + LogSuffix);
    assert p == LogPrefix + (seg + LogSuffix);
    assert p[|LogPrefix|..|p| - |LogSuffix|] == seg;
  }

  // ---------------------------------------------------------------------------
  // The greeting

  /** `{"customer_greeting": ..., "type": ...}`. */
  datatype Greeting = Greeting(greeting: string, kind: string)

  const NoGreeting := Greeting("", "")

  predicate Given(s: Option<string>) {
    s.Some? && s.value != ""
  }

  /** `d.get(key, default)`, raising `AttributeError` when `d` is not a dictionary. */
  function Get(d: Json, key: string, default: Json): (r: Result<Json, PyError>)
    ensures r.Err? <==> !d.JObj?
  {
    match PyGet(d, key, default)
    case None => Err(AttributeError)
    case Some(v) => Ok(v)
  }

  /** `list(entry.values())[0]`. */
  function FirstValue(entry: Json): Result<Json, PyError> {
    match entry
    case JObj(fields) => if fields == [] then Err(IndexError) else Ok(fields[0].1)
    case _ => Err(AttributeError)
  }

  /** The invoice the greeting is built from, with how it was found: by invoice number
      first, and by customer number only when that found nothing. */
  function FindInvoice(invoiceNumber: Option<string>, customerNumber: Option<string>,
                       byInvoice: string -> Json, byCustomer: string -> Json): (r: Result<(Json, string), PyError>)
    ensures r.Ok? && Truthy(r.value.0) ==> r.value.1 == "invoice" || r.value.1 == "customer"
  {
    var first: Result<(Json, string), PyError> :=
      if Given(invoiceNumber) && Truthy(byInvoice(invoiceNumber.value)) then
        match FirstValue(byInvoice(invoiceNumber.value))
        case Err(e) => Err(e)
        case Ok(v) => Ok((v, "invoice"))
      else Ok((JNull, ""));
    match first
    case Err(e) => Err(e)
    case Ok((invoice, kind)) =>
      if !Truthy(invoice) && Given(customerNumber) && Truthy(byCustomer(customerNumber.value)) then
        match FirstValue(byCustomer(customerNumber.value))
        case Err(e) => Err(e)
        case Ok(v) => Ok((v, "customer"))
      else Ok((invoice, kind))
  }

  /** A `ProzessDatenElement` given as a list stands for its first element. */
  function ProcessData(element: Json): Json {
    if element.JArr? then (if element.items != [] then element.items[0] else JObj([])) else element
  }

  /** The business partner's name and salutation, read along
      `Data.ProzessDaten.ProzessDatenElement`. */
  function Partner(invoice: Json): Result<(Json, Json), PyError> {
    match Get(invoice, "Data", JObj([]))
    case Err(e) => Err(e)
    case Ok(data) =>
      match Get(data, "ProzessDaten", JObj([]))
      case Err(e) => Err(e)
      case Ok(pro) =>
        match Get(pro, "ProzessDatenElement", JObj([]))
        case Err(e) => Err(e)
        case Ok(element) => Person(ProcessData(element))
  }

  /** The name and salutation in process data, under
      `Geschaeftspartner.GeschaeftspartnerElement`, "" when missing. */
  function Person(process: Json): Result<(Json, Json), PyError> {
    match Get(process, "Geschaeftspartner", JObj([]))
    case Err(e) => Err(e)
    case Ok(partner) =>
      match Get(partner, "GeschaeftspartnerElement", JObj([]))
      case Err(e) => Err(e)
      case Ok(person) =>
        match Get(person, "name", JStr(""))
        case Err(e) => Err(e)
        case Ok(name) =>
          match Get(person, "salutation", JStr(""))
          case Err(e) => Err(e)
          case Ok(salutation) => Ok((name, salutation))
  }

  /** A value in an f-string: text as it is, anything else as `show` renders it. */
  function Render(j: Json, show: Json -> string): string {
    if j.JStr? then j.s else show(j)
  }

  /** The greeting line: in German the salutation as stored, otherwise Frau and Herr
      in any case become Ms. and Mr.; `.lower()` needs a text salutation. */
  function Salute(salutation: Json, name: Json, language: string, show: Json -> string): (r: Result<string, PyError>)
    ensures r.Ok? ==> EndsWith(r.value, " " + Render(name, show) + "!")
  {
    var tail := " " + Render(name, show) + "!";
    if language == "de" then
      Concatenated(Render(salutation, show), tail);
      Ok(Render(salutation, show) + tail)
    else if !salutation.JStr? then Err(AttributeError)
    else
      var s := salutation.s;
      var title := if LowerStr(s) == "frau" then "Ms." else if LowerStr(s) == "herr" then "Mr." else s;
      Concatenated(title, tail);
      Ok(title + tail)
  }

  /** `customer_name`: any exception gives the empty greeting. */
  function CustomerName(invoiceNumber: Option<string>, customerNumber: Option<string>, language: string,
                        byInvoice: string -> Json, byCustomer: string -> Json, show: Json -> string): (r: Greeting)
    ensures r.kind == "" || r.kind == "invoice" || r.kind == "customer"
    ensures r.greeting == "" <==> r.kind == ""
  {
    match FindInvoice(invoiceNumber, customerNumber, byInvoice, byCustomer)
    case Err(_) => NoGreeting
    case Ok((invoice, kind)) =>
      if !Truthy(invoice) then NoGreeting
      else match Partner(invoice)
        case Err(_) => NoGreeting
        case Ok((name, salutation)) =>
          if !Truthy(name) then NoGreeting
          else match Salute(salutation, name, language, show)
            case Err(_) => NoGreeting
            case Ok(g) => Greeting(g, kind)
  }

  /** An invoice found by its number settles the matter: the customer lookup is not
      consulted. */
  lemma InvoiceNumberFirst(invoiceNumber: Option<string>, customerNumber: Option<string>, language: string,
                           byInvoice: string -> Json, byCustomer: string -> Json, other: string -> Json,
                           show: Json -> string)
    requires Given(invoiceNumber)
    requires var e := byInvoice(invoiceNumber.value); e.JObj? && e.fields != [] && Truthy(e.fields[0].1)
    ensures CustomerName(invoiceNumber, customerNumber, language, byInvoice, byCustomer, show) ==
            CustomerName(invoiceNumber, customerNumber, language, byInvoice, other, show)
    ensures CustomerName(invoiceNumber, customerNumber, language, byInvoice, byCustomer, show).kind != "customer"
  {
    var e := byInvoice(invoiceNumber.value);
    assert Truthy(e);
    assert FirstValue(e) == Ok(e.fields[0].1);
    assert FindInvoice(invoiceNumber, customerNumber, byInvoice, byCustomer) == Ok((e.fields[0].1, "invoice"));
    assert FindInvoice(invoiceNumber, customerNumber, byInvoice, other) == Ok((e.fields[0].1, "invoice"));
  }

  /** Without an invoice found either way there is no greeting. */
  lemma NothingFound(invoiceNumber: Option<string>, customerNumber: Option<string>, language: string,
                     byInvoice: string -> Json, byCustomer: string -> Json, show: Json -> string)
    requires !Given(invoiceNumber) || !Truthy(byInvoice(invoiceNumber.value))
    requires !Given(customerNumber) || !Truthy(byCustomer(customerNumber.value))
    ensures CustomerName(invoiceNumber, customerNumber, language, byInvoice, byCustomer, show) == NoGreeting
  {
  }

  /** An invoice whose process data is `element`. */
  function WithProcessData(element: Json): Json {
    JObj([("Data", JObj([("ProzessDaten", JObj([("ProzessDatenElement", element)]))]))])
  }

  /** The single entry of a one-entry dictionary is found. */
  lemma GetSingle(key: string, value: Json, default: Json)
    ensures Get(JObj([(key, value)]), key, default) == Ok(value)
  {
    assert Lookup([(key, value)], key) == Some(value);
  }

  /** The greeting reads the process data of an invoice. */
  lemma PartnerOfProcessData(element: Json)
    ensures Partner(WithProcessData(element)) == Person(ProcessData(element))
  {
    var pro := JObj([("ProzessDatenElement", element)]);
    var data := JObj([("ProzessDaten", pro)]);
    GetSingle("Data", data, JObj([]));
    GetSingle("ProzessDaten", pro, JObj([]));
    GetSingle("ProzessDatenElement", element, JObj([]));
  }

  /** A list of process data counts as its first element, an empty list as `{}`, which
      has an empty name and salutation. */
  lemma ProcessDataList(first: Json, rest: seq<Json>)
    ensures Partner(WithProcessData(JArr([first] + rest))) == Person(first)
    ensures Partner(WithProcessData(JArr([]))) == Ok((JStr(""), JStr("")))
  {
    PartnerOfProcessData(JArr([first] + rest));
    PartnerOfProcessData(JArr([]));
    assert ProcessData(JArr([first] + rest)) == first;
    assert Lookup([], "Geschaeftspartner") == None;
  }

  /** The salutation mapping of the greeting. */
  lemma SalutationMapping(salutation: string, name: string, language: string, show: Json -> string)
    ensures language == "de" ==> Salute(JStr(salutation), JStr(name), language, show) == Ok(salutation + " " + name + "!")
    ensures language != "de" && LowerStr(salutation) == "frau" ==>
              Salute(JStr(salutation), JStr(name), language, show) == Ok("Ms. " + name + "!")
    ensures language != "de" && LowerStr(salutation) == "herr" ==>
              Salute(JStr(salutation), JStr(name), language, show) == Ok("Mr. " + name + "!")
    ensures language != "de" && LowerStr(salutation) != "frau" && LowerStr(salutation) != "herr" ==>
              Salute(JStr(salutation), JStr(name), language, show) == Ok(salutation + " " + name + "!")
  {
    var tail := " " + name + "!";
    assert Render(JStr(name), show) == name && Render(JStr(salutation), show) == salutation;
    assert "Ms." + tail == "Ms. " + name + "!";
    assert "Mr." + tail == "Mr. " + name + "!";
    assert salutation + tail == salutation + " " + name + "!";
  }

  // ---------------------------------------------------------------------------
  // The chat reply

  const InvoiceTrouble := "I couldn't access your invoice data. Please verify your customer or invoice number."
  const ConnectionTrouble := "There seems to be a connection issue. Please try again in a moment."
  const GeneralTrouble := "I encountered an issue processing your request. Please try again."

  /** The message chosen from the text of an exception. */
  function ErrorMessage(text: string): (r: string)
    ensures r == InvoiceTrouble <==> Contains(LowerStr(text), "invoice")
    ensures r == ConnectionTrouble <==>
              !Contains(LowerStr(text), "invoice") &&
              (Contains(LowerStr(text), "network") || Contains(LowerStr(text), "connection"))
    ensures r == InvoiceTrouble || r == ConnectionTrouble || r == GeneralTrouble
  {
    var lower := LowerStr(text);
    if Contains(lower, "invoice") then InvoiceTrouble
    else if Contains(lower, "network") || Contains(lower, "connection") then ConnectionTrouble
    else GeneralTrouble
  }

  function ErrorReply(text: string): seq<(string, Json)> {
    [("response", JStr(ErrorMessage(text))), ("structured", JObj([])), ("error", JBool(true)),
     ("error_type", JStr("processing_error"))]
  }

  /** The structured fields copied to the top level of the reply, each under its name. */
  const Copies := [("customer_name", "customer_name"), ("salutation", "customer_greeting"),
                   ("invoice_number", "invoice_number"), ("consumption", "consumption"),
                   ("invoice_amount", "invoice_amount")]

  /** The copies a structured result gives, in order: those whose value is truthy. */
  function CopiedFrom(structured: Json, pairs: seq<(string, string)>): seq<(string, Json)> {
    if pairs == [] then []
    else
      var v := Field(structured, pairs[0].0);
      (if Truthy(v) then [(pairs[0].1, v)] else []) + CopiedFrom(structured, pairs[1..])
  }

  /** Looking a key up in two joined dictionaries: the first one wins. */
  lemma {:induction false} LookupConcat(a: seq<(string, Json)>, b: seq<(string, Json)>, key: string)
    ensures Lookup(a + b, key) == if Lookup(a, key).Some? then Lookup(a, key) else Lookup(b, key)
  {
    if a != [] {
      assert (a + b)[0] == a[0] && (a + b)[1..] == a[1..] + b;
      LookupConcat(a[1..], b, key);
    } else {
      assert a + b == b;
    }
  }

  /** A name no pair gives is not among the copies. */
  lemma {:induction false} CopiedAbsent(structured: Json, pairs: seq<(string, string)>, name: string)
    requires forall j :: 0 <= j < |pairs| ==> pairs[j].1 != name
    ensures Lookup(CopiedFrom(structured, pairs), name) == None
  {
    if pairs != [] {
      var v := Field(structured, pairs[0].0);
      var head := if Truthy(v) then [(pairs[0].1, v)] else [];
      CopiedAbsent(structured, pairs[1..], name);
      LookupConcat(head, CopiedFrom(structured, pairs[1..]), name);
    }
  }

  /** A field is copied exactly when its value is truthy, and then with that value. */
  lemma {:induction false} CopiedIffTruthy(structured: Json, pairs: seq<(string, string)>, k: nat)
    requires k < |pairs|
    requires forall i, j :: 0 <= i < j < |pairs| ==> pairs[i].1 != pairs[j].1
    ensures Lookup(CopiedFrom(structured, pairs), pairs[k].1) ==
            if Truthy(Field(structured, pairs[k].0)) then Some(Field(structured, pairs[k].0)) else None
  {
    var v := Field(structured, pairs[0].0);
    var head := if Truthy(v) then [(pairs[0].1, v)] else [];
    var tail := CopiedFrom(structured, pairs[1..]);
    LookupConcat(head, tail, pairs[k].1);
    if k == 0 {
      CopiedAbsent(structured, pairs[1..], pairs[0].1);
    } else {
      assert pairs[1..][k - 1] == pairs[k];
      CopiedIffTruthy(structured, pairs[1..], k - 1);
    }
  }

  /** The session entries: the customer number when given; the invoice number of the
      request, or else the structured one when truthy. */
  function SessionEntries(structured: Json, customerNumber: Option<string>, invoiceNumber: Option<string>)
    : seq<(string, Json)>
  {
    (if Given(customerNumber) then [("session_customer_number", JStr(customerNumber.value))] else []) +
    (if Given(invoiceNumber) then [("session_invoice_number", JStr(invoiceNumber.value))]
     else if Truthy(Field(structured, "invoice_number")) then [("session_invoice_number", Field(structured, "invoice_number"))]
     else [])
  }

  /** The six entries every reply starts with. */
  function BaseEntries(result: seq<(string, Json)>, text: Json, structured: Json): seq<(string, Json)>
    requires structured.JObj?
  {
    [("response", text), ("structured", structured),
     ("needs_invoice_number", Lookup(result, "needs_invoice_number").GetOr(JBool(false))),
     ("invoice_suggestions", Lookup(result, "invoice_suggestions").GetOr(JArr([]))),
     ("query_type", Get(structured, "query_type", JStr("unknown")).value),
     ("response_format", Get(structured, "response_format", JObj([])).value)]
  }

  /** The reply to a result of the assistant, or the exception shaping it raises:
      `result["text"]` needs the text, and `.get` needs a dictionary under "structured". */
  function ShapedReply(result: seq<(string, Json)>, customerNumber: Option<string>, invoiceNumber: Option<string>)
    : (r: Result<seq<(string, Json)>, PyError>)
    ensures r.Err? <==> Lookup(result, "text").None? || !Lookup(result, "structured").GetOr(JObj([])).JObj?
  {
    var structured := Lookup(result, "structured").GetOr(JObj([]));
    match Lookup(result, "text")
    case None => Err(KeyError("text"))
    case Some(text) =>
      if !structured.JObj? then Err(AttributeError)
      else Ok(BaseEntries(result, text, structured) + CopiedFrom(structured, Copies) +
              SessionEntries(structured, customerNumber, invoiceNumber))
  }

  /** `chat_route`: `outcome` is the assistant's result, or the text of the exception it
      raised. */
  function ChatReply(outcome: Result<seq<(string, Json)>, string>, customerNumber: Option<string>,
                     invoiceNumber: Option<string>): seq<(string, Json)>
  {
    match outcome
    case Err(text) => ErrorReply(text)
    case Ok(result) =>
      match ShapedReply(result, customerNumber, invoiceNumber)
      case Err(e) => ErrorReply(e.Str())
      case Ok(reply) => reply
  }

  /** `chat_route`, building the reply entry by entry. */
  method ChatRoute(outcome: Result<seq<(string, Json)>, string>, customerNumber: Option<string>,
                   invoiceNumber: Option<string>) returns (response: seq<(string, Json)>)
    ensures response == ChatReply(outcome, customerNumber, invoiceNumber)
  {
    if outcome.Err? {
      response := ErrorReply(outcome.error);
    } else {
      var shaped := Shape(outcome.value, customerNumber, invoiceNumber);
      if shaped.Err? {
        response := ErrorReply(shaped.error.Str());
      } else {
        response := shaped.value;
      }
    }
  }

  /** The part of `chat_route` inside its `try`, up to the exception it may raise. */
  method Shape(result: seq<(string, Json)>, customerNumber: Option<string>, invoiceNumber: Option<string>)
    returns (r: Result<seq<(string, Json)>, PyError>)
    ensures r == ShapedReply(result, customerNumber, invoiceNumber)
  {
    var text := Lookup(result, "text");
    if text.None? {
      return Err(KeyError("text"));
    }
    var structured := Lookup(result, "structured").GetOr(JObj([]));
    if !structured.JObj? {
      return Err(AttributeError);
    }
    var copies := CopyFields(structured);
    var shaped := BaseEntries(result, text.value, structured) + copies;
    var session := SessionFields(structured, customerNumber, invoiceNumber);
    r := Ok(shaped + session);
  }

  /** The session entries of `chat_route`. */
  method SessionFields(structured: Json, customerNumber: Option<string>, invoiceNumber: Option<string>)
    returns (session: seq<(string, Json)>)
    ensures session == SessionEntries(structured, customerNumber, invoiceNumber)
  {
    session := [];
    if Given(customerNumber) {
      session := session + [("session_customer_number", JStr(customerNumber.value))];
    }
    if Given(invoiceNumber) {
      session := session + [("session_invoice_number", JStr(invoiceNumber.value))];
    } else if Truthy(Field(structured, "invoice_number")) {
      session := session + [("session_invoice_number", Field(structured, "invoice_number"))];
    }
  }

  /** The copying loop of `chat_route`: each truthy structured field, in order. */
  method CopyFields(structured: Json) returns (copies: seq<(string, Json)>)
    ensures copies == CopiedFrom(structured, Copies)
  {
    copies := [];
    var k := 0;
    while k < |Copies|
      invariant 0 <= k <= |Copies|
      invariant copies == CopiedFrom(structured, Copies[..k])
    {
      var value := Field(structured, Copies[k].0);
      if Truthy(value) {
        copies := copies + [(Copies[k].1, value)];
      }
      CopiedFromAppend(structured, Copies[..k], Copies[k]);
      assert Copies[..k + 1] == Copies[..k] + [Copies[k]];
      k := k + 1;
    }
    assert Copies[..k] == Copies;
  }

  lemma {:induction false} CopiedFromAppend(structured: Json, pairs: seq<(string, string)>, last: (string, string))
    ensures CopiedFrom(structured, pairs + [last]) ==
            CopiedFrom(structured, pairs) + (if Truthy(Field(structured, last.0)) then [(last.1, Field(structured, last.0))] else [])
  {
    var tail := if Truthy(Field(structured, last.0)) then [(last.1, Field(structured, last.0))] else [];
    if pairs == [] {
      assert [] + [last] == [last];
      assert CopiedFrom(structured, [last][1..]) == [];
      assert CopiedFrom(structured, [last]) == tail + [];
    } else {
      var v := Field(structured, pairs[0].0);
      var head := if Truthy(v) then [(pairs[0].1, v)] else [];
      assert (pairs + [last])[0] == pairs[0];
      assert (pairs + [last])[1..] == pairs[1..] + [last];
      assert CopiedFrom(structured, pairs + [last]) == head + CopiedFrom(structured, pairs[1..] + [last]);
      CopiedFromAppend(structured, pairs[1..], last);
      assert CopiedFrom(structured, pairs) == head + CopiedFrom(structured, pairs[1..]);
      assert head + (CopiedFrom(structured, pairs[1..]) + tail) == (head + CopiedFrom(structured, pairs[1..])) + tail;
    }
  }

  /** A consumption of 0 is not copied to the top level of the reply. */
  lemma ZeroConsumptionOmitted(structured: Json)
    requires Field(structured, "consumption") == JNum(0.0)
    ensures Lookup(CopiedFrom(structured, Copies), "consumption") == None
  {
    CopiedIffTruthy(structured, Copies, 3);
  }

  /** The request's invoice number wins for the session; otherwise the structured one. */
  lemma SessionInvoiceNumber(structured: Json, customerNumber: Option<string>, invoiceNumber: Option<string>)
    ensures var s := SessionEntries(structured, customerNumber, invoiceNumber);
            (Given(invoiceNumber) ==> s[|s| - 1] == ("session_invoice_number", JStr(invoiceNumber.value))) &&
            (!Given(invoiceNumber) && Truthy(Field(structured, "invoice_number")) ==>
               s[|s| - 1] == ("session_invoice_number", Field(structured, "invoice_number"))) &&
            (!Given(invoiceNumber) && !Truthy(Field(structured, "invoice_number")) ==>
               forall i :: 0 <= i < |s| ==> s[i].0 != "session_invoice_number")
  {
  }

  /** A result without `text` is reported with the general message: the `KeyError`
      names neither invoices nor the connection. */
  lemma MissingTextGeneral(result: seq<(string, Json)>, customerNumber: Option<string>, invoiceNumber: Option<string>)
    requires Lookup(result, "text").None?
    ensures ChatReply(Ok(result), customerNumber, invoiceNumber) == ErrorReply("'text'")
    ensures ErrorMessage("'text'") == GeneralTrouble
  {
    var lower := LowerStr("'text'");
    ContainsLonger(lower, "invoice");
    ContainsLonger(lower, "network");
    ContainsLonger(lower, "connection");
  }
}
