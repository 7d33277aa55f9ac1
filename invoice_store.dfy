/** The record filter of `fetch_invoice_data`: given the `invoices` node of the
    store, keep the records whose invoice number (or, failing that, customer
    number) equals the one asked for.  Reading the store is not modelled; its
    result is the `data` parameter. */
module InvoiceStore {
  import opened Wrappers
  import opened Text
  import opened Json

  /** A record of the store: its key and the invoice document under it. */
  type Record = (string, Json)

  const InvoicePath: seq<string> := ["Data", "ProzessDaten", "ProzessDatenElement", "invoiceNumber"]
  const CustomerPath: seq<string> :=
    ["Data", "ProzessDaten", "ProzessDatenElement", "Geschaeftspartner", "GeschaeftspartnerElement", "customerNumber"]

  /** `v.get(k0, {}).get(k1, {}) ... .get(kn)`: `None` when some step meets a value
      that is not a dictionary (Python raises `AttributeError`). */
  function GetPath(v: Json, keys: seq<string>): Option<Json>
    requires |keys| > 0
    decreases |keys|
  {
    if |keys| == 1 then PyGet(v, keys[0], JNull)
    else
      match PyGet(v, keys[0], JObj([]))
      case None => None
      case Some(w) => GetPath(w, keys[1..])
  }

  /** Whether the value at the end of `keys` equals `wanted`; `None` if the lookup raises. */
  function Matches(r: Record, keys: seq<string>, wanted: string): Option<bool>
    requires |keys| > 0
  {
    match GetPath(r.1, keys)
    case None => None
    case Some(x) => Some(x == JStr(wanted))
  }

  /** How many records match. */
  function MatchCount(records: seq<Record>, keys: seq<string>, wanted: string): nat
    requires |keys| > 0
  {
    if records == [] then 0
    else (if Matches(records[0], keys, wanted) == Some(true) then 1 else 0) + MatchCount(records[1..], keys, wanted)
  }

  /** The dictionary comprehension: the matching records in store order, or `None`
      when the lookup raises for any record. */
  function FilterRecords(records: seq<Record>, keys: seq<string>, wanted: string): (r: Option<seq<Record>>)
    requires |keys| > 0
    ensures r.None? <==> exists i :: 0 <= i < |records| && Matches(records[i], keys, wanted).None?
    ensures r.Some? ==> forall i :: 0 <= i < |r.value| ==> r.value[i] in records && Matches(r.value[i], keys, wanted) == Some(true)
    ensures r.Some? ==> forall i :: 0 <= i < |records| && Matches(records[i], keys, wanted) == Some(true) ==> records[i] in r.value
  {
    if records == [] then Some([])
    else
      var rest := FilterRecords(records[1..], keys, wanted);
      assert forall i :: 1 <= i < |records| ==> records[i] == records[1..][i - 1];
      match Matches(records[0], keys, wanted)
      case None => None
      case Some(hit) =>
        match rest
        case None => None
        case Some(rs) => Some(if hit then [records[0]] + rs else rs)
  }

  /** The filtered records keep store order: there are as many as records match, and each
      matching record sits after the matching records before it. */
  lemma {:induction false} FilterRecordsInOrder(records: seq<Record>, keys: seq<string>, wanted: string)
    requires |keys| > 0 && FilterRecords(records, keys, wanted).Some?
    ensures var r := FilterRecords(records, keys, wanted).value;
            |r| == MatchCount(records, keys, wanted) &&
            forall i :: 0 <= i < |records| && Matches(records[i], keys, wanted) == Some(true) ==>
              MatchCount(records[..i], keys, wanted) < |r| && r[MatchCount(records[..i], keys, wanted)] == records[i]
  {
    if records != [] {
      var rest := records[1..];
      FilterRecordsInOrder(rest, keys, wanted);
      var r := FilterRecords(records, keys, wanted).value;
      var rs := FilterRecords(rest, keys, wanted).value;
      var head: seq<Record> := if Matches(records[0], keys, wanted) == Some(true) then [records[0]] else [];
      assert r == head + rs;
      forall i | 0 < i < |records| && Matches(records[i], keys, wanted) == Some(true)
        ensures MatchCount(records[..i], keys, wanted) < |r| && r[MatchCount(records[..i], keys, wanted)] == records[i]
      {
        assert records[..i][1..] == rest[..i - 1];
        assert records[i] == rest[i - 1];
        var k := MatchCount(rest[..i - 1], keys, wanted);
        assert MatchCount(records[..i], keys, wanted) == |head| + k;
        assert k < |rs| && rs[k] == records[i];
        assert r[|head| + k] == rs[k];
      }
    }
  }

  /** `(bool(filtered), filtered)`, with any exception turned into `(False, {})`. */
  function Outcome(r: Option<seq<Record>>): (bool, seq<Record>) {
    match r
    case None => (false, [])
    case Some(rs) => (rs != [], rs)
  }

  /** A number that was given: Python's `x and x.strip()`. */
  predicate Given(x: Option<string>) {
    x.Some? && Strip(x.value) != []
  }

  /** `fetch_invoice_data` after the store read. */
  function FetchInvoiceData(data: Json, customerNumber: Option<string>, invoiceNumber: Option<string>): (r: (bool, seq<Record>))
    ensures r.0 <==> r.1 != []
    ensures !data.JObj? || (!Given(invoiceNumber) && !Given(customerNumber)) ==> r == (false, [])
  {
    if !data.JObj? then (false, [])
    else if Given(invoiceNumber) then Outcome(FilterRecords(data.fields, InvoicePath, invoiceNumber.value))
    else if Given(customerNumber) then Outcome(FilterRecords(data.fields, CustomerPath, customerNumber.value))
    else (false, [])
  }

  /** A given invoice number takes precedence: the customer number is then not consulted. */
  lemma InvoiceNumberFirst(data: Json, c1: Option<string>, c2: Option<string>, inv: Option<string>)
    requires Given(inv)
    ensures FetchInvoiceData(data, c1, inv) == FetchInvoiceData(data, c2, inv)
  {
  }

  /** Every record returned for an invoice number carries exactly that number. */
  lemma FetchByInvoice(data: Json, customerNumber: Option<string>, inv: string)
    requires data.JObj? && Strip(inv) != []
    ensures var r := FetchInvoiceData(data, customerNumber, Some(inv));
            forall rec :: rec in r.1 ==> rec in data.fields && GetPath(rec.1, InvoicePath) == Some(JStr(inv))
  {
    var r := FetchInvoiceData(data, customerNumber, Some(inv));
    var f := FilterRecords(data.fields, InvoicePath, inv);
    forall rec | rec in r.1
      ensures rec in data.fields && GetPath(rec.1, InvoicePath) == Some(JStr(inv))
    {
      var i :| 0 <= i < |f.value| && f.value[i] == rec;
    }
  }

  /** When the lookup succeeds, every record of the store that carries the invoice number
      is returned. */
  lemma FetchByInvoiceComplete(data: Json, customerNumber: Option<string>, inv: string)
    requires data.JObj? && Strip(inv) != []
    ensures var r := FetchInvoiceData(data, customerNumber, Some(inv));
            r.0 ==> forall rec :: rec in data.fields && GetPath(rec.1, InvoicePath) == Some(JStr(inv)) ==> rec in r.1
  {
    var r := FetchInvoiceData(data, customerNumber, Some(inv));
    if r.0 {
      forall rec | rec in data.fields && GetPath(rec.1, InvoicePath) == Some(JStr(inv))
        ensures rec in r.1
      {
        var i :| 0 <= i < |data.fields| && data.fields[i] == rec;
        assert Matches(data.fields[i], InvoicePath, inv) == Some(true);
      }
    }
  }
}
