/** `compare_with_previous_invoice`: find the latest invoice dated before the current
    one and explain how the two differ.  Dates are read with
    `datetime.strptime(text, "%d.%m.%Y")`. */
module Comparison {
  import opened Wrappers
  import opened Text
  import opened Json
  import opened Errors
  import opened InvoiceAnalyzer

  // ---------------------------------------------------------------------------
  // Dates

  datatype Date = Date(year: nat, month: nat, day: nat)

  /** Dates compare as (year, month, day) triples. */
  predicate Before(a: Date, b: Date) {
    a.year < b.year || (a.year == b.year && (a.month < b.month || (a.month == b.month && a.day < b.day)))
  }

  predicate LeapYear(y: nat) {
    (y % 4 == 0 && y % 100 != 0) || y % 400 == 0
  }

  function DaysInMonth(y: nat, m: nat): nat
    requires 1 <= m <= 12
  {
    if m == 2 then (if LeapYear(y) then 29 else 28)
    else if m == 4 || m == 6 || m == 9 || m == 11 then 30
    else 31
  }

  predicate InRange(c: char, lo: char, hi: char) { lo <= c <= hi }

  /** The day field `%d`: `3[01]|[12]\d|0[1-9]|[1-9]| [1-9]`. */
  predicate DayText(d: string) {
    (|d| == 1 && InRange(d[0], '1', '9')) ||
    (|d| == 2 &&
      ((d[0] == '3' && InRange(d[1], '0', '1')) ||
       (InRange(d[0], '1', '2') && IsDigit(d[1])) ||
       (d[0] == '0' && InRange(d[1], '1', '9')) ||
       (d[0] == ' ' && InRange(d[1], '1', '9'))))
  }

  /** The month field `%m`: `1[0-2]|0[1-9]|[1-9]`. */
  predicate MonthText(m: string) {
    (|m| == 1 && InRange(m[0], '1', '9')) ||
    (|m| == 2 && ((m[0] == '1' && InRange(m[1], '0', '2')) || (m[0] == '0' && InRange(m[1], '1', '9'))))
  }

  predicate AllDigits(s: string) {
    forall i :: 0 <= i < |s| ==> IsDigit(s[i])
  }

  /** The value of a day or month field; a leading space counts as nothing. */
  function FieldValue(f: string): nat
    requires f != [] && AllDigits(if f[0] == ' ' then f[1..] else f)
  {
    if f[0] == ' ' then DigitsValue(f[1..]) else DigitsValue(f)
  }

  function CharValue(c: char): int { c as int - '0' as int }

  lemma ShortDigitsValue(f: string)
    requires 1 <= |f| <= 2 && AllDigits(f)
    ensures |f| == 1 ==> DigitsValue(f) == CharValue(f[0])
    ensures |f| == 2 ==> DigitsValue(f) == 10 * CharValue(f[0]) + CharValue(f[1])
  {
    if |f| == 2 {
      assert f[..1][..0] == [];
    } else {
      assert f[..0] == [];
    }
  }

  lemma DayTextRange(d: string)
    requires DayText(d)
    ensures d != [] && AllDigits(if d[0] == ' ' then d[1..] else d) && 1 <= FieldValue(d) <= 31
  {
    ShortDigitsValue(if d[0] == ' ' then d[1..] else d);
  }

  lemma MonthTextRange(m: string)
    requires MonthText(m)
    ensures m != [] && m[0] != ' ' && AllDigits(m) && 1 <= FieldValue(m) <= 12
  {
    ShortDigitsValue(m);
  }

  function NoMatch(s: string): PyError {
    ValueError("time data '" + s + "' does not match format '%d.%m.%Y'")
  }

  /** `datetime.strptime(s, "%d.%m.%Y")`: the day and month fields end at the first and
      second dot, the year is exactly four digits, and nothing may follow it. */
  function ParseDate(s: string): (r: Result<Date, PyError>)
    ensures r.Ok? ==> 1 <= r.value.month <= 12 && 1 <= r.value.day <= DaysInMonth(r.value.year, r.value.month)
    ensures r.Ok? ==> 1 <= r.value.year <= 9999
  {
    var d := BeforeFirst(s, '.');
    if |d| == |s| then Err(NoMatch(s))
    else
      var rest := s[|d| + 1..];
      var m := BeforeFirst(rest, '.');
      if |m| == |rest| then Err(NoMatch(s))
      else DateFields(s, d, m, rest[|m| + 1..])
  }

  /** The fields of `s` once split at its first two dots: `d`, `m` and `tail`. */
  function DateFields(s: string, d: string, m: string, tail: string): (r: Result<Date, PyError>)
    ensures r.Ok? ==> 1 <= r.value.month <= 12 && 1 <= r.value.day <= DaysInMonth(r.value.year, r.value.month)
    ensures r.Ok? ==> 1 <= r.value.year <= 9999
  {
    if !DayText(d) || !MonthText(m) || |tail| < 4 || !AllDigits(tail[..4]) then Err(NoMatch(s))
    else if |tail| > 4 then Err(ValueError("unconverted data remains: " + tail[4..]))
    else
      DayTextRange(d);
      MonthTextRange(m);
      assert tail[..4] == tail;
      var year := DigitsValue(tail);
      assert year <= 9999 by { DigitsValueBound(tail); }
      var month := FieldValue(m);
      var day := FieldValue(d);
      if year == 0 then Err(ValueError("year 0 is out of range"))
      else if day > DaysInMonth(year, month) then Err(ValueError("day is out of range for month"))
      else Ok(Date(year, month, day))
  }

  lemma {:induction false} DigitsValueBound(ds: string)
    requires AllDigits(ds)
    ensures DigitsValue(ds) < Pow10(|ds|)
  {
    if ds != [] {
      DigitsValueBound(ds[..|ds| - 1]);
    }
  }

  /** `n` written with exactly `k` digits, zero-padded (the low `k` digits when it has more). */
  function Digits(n: nat, k: nat): (r: string)
    ensures |r| == k && AllDigits(r)
  {
    if k == 0 then [] else Digits(n / 10, k - 1) + [DigitChar(n % 10)]
  }

  lemma {:induction false} DigitsRoundTrip(n: nat, k: nat)
    requires n < Pow10(k)
    ensures DigitsValue(Digits(n, k)) == n
  {
    if k > 0 {
      DigitsRoundTrip(n / 10, k - 1);
      var r := Digits(n, k);
      assert r[..|r| - 1] == Digits(n / 10, k - 1);
    }
  }

  /** A date written the way the invoices write it: `dd.mm.yyyy`. */
  function FormatDate(d: Date): string {
    Digits(d.day, 2) + "." + Digits(d.month, 2) + "." + Digits(d.year, 4)
  }

  lemma BeforeFirstDot(a: string, b: string)
    requires forall i :: 0 <= i < |a| ==> a[i] != '.'
    ensures BeforeFirst(a + "." + b, '.') == a
    decreases |a|
  {
    if a != [] {
      assert (a + "." + b)[1..] == a[1..] + "." + b;
      BeforeFirstDot(a[1..], b);
    }
  }

  /** Every calendar date of a four-digit year reads back from its `dd.mm.yyyy` form. */
  lemma ParseFormatRoundTrip(d: Date)
    requires 1 <= d.year <= 9999 && 1 <= d.month <= 12 && 1 <= d.day <= DaysInMonth(d.year, d.month)
    ensures ParseDate(FormatDate(d)) == Ok(d)
  {
    var dd, mm, yy := Digits(d.day, 2), Digits(d.month, 2), Digits(d.year, 4);
    SplitAtDots(dd, mm, yy);
    FieldsRoundTrip(FormatDate(d), d);
  }

  /** A text built from dot-free fields splits back into them. */
  lemma SplitAtDots(a: string, b: string, c: string)
    requires forall i :: 0 <= i < |a| ==> a[i] != '.'
    requires forall i :: 0 <= i < |b| ==> b[i] != '.'
    ensures var s := a + "." + b + "." + c;
            ParseDate(s) == DateFields(s, a, b, c)
  {
    var s := a + "." + b + "." + c;
    assert s == a + "." + (b + "." + c);
    BeforeFirstDot(a, b + "." + c);
    assert s[|a| + 1..] == b + "." + c;
    BeforeFirstDot(b, c);
    assert (b + "." + c)[|b| + 1..] == c;
  }

  lemma FieldsRoundTrip(s: string, d: Date)
    requires 1 <= d.year <= 9999 && 1 <= d.month <= 12 && 1 <= d.day <= DaysInMonth(d.year, d.month)
    ensures DateFields(s, Digits(d.day, 2), Digits(d.month, 2), Digits(d.year, 4)) == Ok(d)
  {
    var dd, mm, yy := Digits(d.day, 2), Digits(d.month, 2), Digits(d.year, 4);
    DigitsRoundTrip(d.day, 2);
    DigitsRoundTrip(d.month, 2);
    DigitsRoundTrip(d.year, 4);
    TwoDigitDay(d.day);
    TwoDigitMonth(d.month);
    assert yy[..4] == yy;
  }

  lemma TwoDigitDay(n: nat)
    requires 1 <= n <= 31
    ensures DayText(Digits(n, 2))
  {
    assert Digits(n / 100, 0) == [];
    assert n / 10 % 10 == n / 10;
    assert Digits(n, 2) == [DigitChar(n / 10), DigitChar(n % 10)];
  }

  lemma TwoDigitMonth(n: nat)
    requires 1 <= n <= 12
    ensures MonthText(Digits(n, 2))
  {
    assert Digits(n / 100, 0) == [];
    assert n / 10 % 10 == n / 10;
    assert Digits(n, 2) == [DigitChar(n / 10), DigitChar(n % 10)];
  }

  // ---------------------------------------------------------------------------
  // Reasons

  /** The reasons offered for a difference between two bills. */
  datatype Reason =
    | HigherConsumption(kwhMore: real)
    | LowerConsumption(kwhLess: real)
    | PriceIncrease
    | BonusDifference(euros: real)

  /** The reasons, in their fixed order: the consumption change, a price increase the
      consumption does not explain, the bonus change. */
  function ReasonsFor(consumptionDiff: real, amountDiff: real, currentBonus: real, previousBonus: real): (r: seq<Reason>)
    ensures HigherConsumption(consumptionDiff) in r <==> consumptionDiff > 0.0
    ensures LowerConsumption(-consumptionDiff) in r <==> consumptionDiff < 0.0
    ensures PriceIncrease in r <==> amountDiff > 0.0 && consumptionDiff <= 0.0
    ensures BonusDifference(currentBonus - previousBonus) in r <==> currentBonus != previousBonus
    // A consumption reason, if any, comes first; a bonus reason, if any, comes last.
    ensures forall k :: 0 < k < |r| ==> !r[k].HigherConsumption? && !r[k].LowerConsumption?
    ensures forall k :: 0 <= k < |r| - 1 ==> !r[k].BonusDifference?
    // Nothing else is listed, and nothing twice.
    ensures forall k :: 0 <= k < |r| ==>
              r[k] in [HigherConsumption(consumptionDiff), LowerConsumption(-consumptionDiff), PriceIncrease,
                       BonusDifference(currentBonus - previousBonus)]
    ensures forall j, k :: 0 <= j < k < |r| ==> r[j] != r[k]
  {
    (if consumptionDiff > 0.0 then [HigherConsumption(consumptionDiff)]
     else if consumptionDiff < 0.0 then [LowerConsumption(-consumptionDiff)]
     else []) +
    (if amountDiff > 0.0 && consumptionDiff <= 0.0 then [PriceIncrease] else []) +
    (if currentBonus != previousBonus then [BonusDifference(currentBonus - previousBonus)] else [])
  }

  // ---------------------------------------------------------------------------
  // The comparison

  datatype Outcome =
    | NotFound
    | Found(previousAmount: real, currentAmount: real, difference: real, consumptionDifference: real,
            reasons: seq<Reason>, previousPeriod: string)

  /** The date of an invoice document, as `strptime` reads its `invoiceDate`. */
  function DateOf(invoice: Json): Result<Date, PyError> {
    ParseDate(InvoiceDate(NewAnalyzer(invoice)))
  }

  /** The date of a store record's invoice: `record.get("Data", {})` raises on a record
      that is not a dictionary. */
  function RecordDate(record: Json): Result<Date, PyError> {
    if record.JObj? then DateOf(Field(record, "Data")) else Err(AttributeError)
  }

  /** The values of `rs` in order, or the first error among them. */
  function Collect<T, E>(rs: seq<Result<T, E>>): Result<seq<T>, E> {
    if rs == [] then Ok([])
    else
      match Collect(rs[..|rs| - 1])
      case Err(e) => Err(e)
      case Ok(vs) =>
        match rs[|rs| - 1]
        case Err(e) => Err(e)
        case Ok(v) => Ok(vs + [v])
  }

  /** Without an error, `Collect` is every value, in order. */
  lemma {:induction false} CollectOk<T, E>(rs: seq<Result<T, E>>)
    requires Collect(rs).Ok?
    ensures |Collect(rs).value| == |rs|
    ensures forall i :: 0 <= i < |rs| ==> rs[i] == Ok(Collect(rs).value[i])
  {
    if rs != [] {
      var init := rs[..|rs| - 1];
      CollectOk(init);
      assert forall i :: 0 <= i < |init| ==> init[i] == rs[i];
    }
  }

  /** An error from `Collect` is the first error in `rs`. */
  lemma {:induction false} CollectErr<T, E>(rs: seq<Result<T, E>>)
    requires Collect(rs).Err?
    ensures exists i :: 0 <= i < |rs| && rs[i] == Err(Collect(rs).error) && forall j :: 0 <= j < i ==> rs[j].Ok?
  {
    var init := rs[..|rs| - 1];
    assert forall i :: 0 <= i < |init| ==> init[i] == rs[i];
    if Collect(init).Err? {
      CollectErr(init);
      var i :| 0 <= i < |init| && init[i] == Err(Collect(init).error) && forall j :: 0 <= j < i ==> init[j].Ok?;
      assert rs[i] == Err(Collect(rs).error);
    } else {
      CollectOk(init);
      assert rs[|rs| - 1] == Err(Collect(rs).error);
    }
  }

  /** Once a prefix fails, later entries change nothing. */
  /** One more successful result extends the collected values. */
  lemma CollectStep<T, E>(rs: seq<Result<T, E>>, i: nat)
    requires i < |rs| && Collect(rs[..i]).Ok? && rs[i].Ok?
    ensures Collect(rs[..i + 1]) == Ok(Collect(rs[..i]).value + [rs[i].value])
  {
    assert rs[..i + 1][..i] == rs[..i];
  }

  lemma CollectStepErr<T, E>(rs: seq<Result<T, E>>, i: nat)
    requires i < |rs| && Collect(rs[..i]).Ok? && rs[i].Err?
    ensures Collect(rs[..i + 1]) == Err(rs[i].error)
  {
    assert rs[..i + 1][..i] == rs[..i];
  }

  lemma CollectPrefixErr<T, E>(rs: seq<Result<T, E>>, n: nat)
    requires n <= |rs| && Collect(rs[..n]).Err?
    ensures Collect(rs) == Collect(rs[..n])
    decreases |rs| - n
  {
    if n < |rs| {
      assert rs[..n + 1][..n] == rs[..n];
      CollectPrefixErr(rs, n + 1);
    } else {
      assert rs[..n] == rs;
    }
  }

  /** What `strptime` makes of each record's date, in store order. */
  function RecordDateResults(records: seq<(string, Json)>): (r: seq<Result<Date, PyError>>)
    ensures |r| == |records| && forall i :: 0 <= i < |records| ==> r[i] == RecordDate(records[i].1)
  {
    seq(|records|, i requires 0 <= i < |records| => RecordDate(records[i].1))
  }

  /** The dates of all records in store order, or the error of the first record whose
      date cannot be read. */
  function RecordDates(records: seq<(string, Json)>): Result<seq<Date>, PyError> {
    Collect(RecordDateResults(records))
  }

  /** Index `p` holds the previous date: before `current`, no date before `current` is
      later, and every earlier index before `current` is strictly earlier (ties keep the
      first). */
  predicate IsPrevious(dates: seq<Date>, current: Date, p: int) {
    0 <= p < |dates| && Before(dates[p], current) &&
    (forall j :: 0 <= j < |dates| && Before(dates[j], current) ==> !Before(dates[p], dates[j])) &&
    (forall j :: 0 <= j < p && Before(dates[j], current) ==> Before(dates[j], dates[p]))
  }

  /** There is at most one previous index. */
  lemma PreviousUnique(dates: seq<Date>, current: Date, p: int, q: int)
    requires IsPrevious(dates, current, p) && IsPrevious(dates, current, q)
    ensures p == q
  {
  }

  /** The index of the latest date before `current`, as a value: the first such date among
      equals. */
  function PreviousIndex(dates: seq<Date>, current: Date): (r: Option<nat>)
    ensures r.None? <==> forall j :: 0 <= j < |dates| ==> !Before(dates[j], current)
    ensures r.Some? ==> IsPrevious(dates, current, r.value)
  {
    if dates == [] then None
    else
      var n := |dates| - 1;
      var prev := PreviousIndex(dates[..n], current);
      assert forall j :: 0 <= j < n ==> dates[..n][j] == dates[j];
      if Before(dates[n], current) && (prev.None? || Before(dates[prev.value], dates[n])) then Some(n)
      else prev
  }

  /** The scan for the latest date before `current`. */
  method LatestBefore(dates: seq<Date>, current: Date) returns (previous: Option<nat>)
    ensures previous.None? <==> forall j :: 0 <= j < |dates| ==> !Before(dates[j], current)
    ensures previous.Some? ==> IsPrevious(dates, current, previous.value)
    ensures previous == PreviousIndex(dates, current)
  {
    previous := None;
    var i := 0;
    while i < |dates|
      invariant 0 <= i <= |dates|
      invariant previous.None? ==> forall j :: 0 <= j < i ==> !Before(dates[j], current)
      invariant previous.Some? ==> IsPrevious(dates[..i], current, previous.value)
    {
      if Before(dates[i], current) && (previous.None? || Before(dates[previous.value], dates[i])) {
        previous := Some(i);
      }
      i := i + 1;
    }
    assert dates[..i] == dates;
    if previous.Some? {
      PreviousUnique(dates, current, previous.value, PreviousIndex(dates, current).value);
    }
  }

  /** The comparison of the current invoice with the previous one. */
  function Compare(current: Json, previous: Json): Outcome {
    var cur, prev := NewAnalyzer(current), NewAnalyzer(previous);
    var amountDiff := InvoiceAmount(cur) - InvoiceAmount(prev);
    var consumptionDiff := TotalConsumption(cur).0 - TotalConsumption(prev).0;
    var period := TotalConsumption(prev);
    Found(InvoiceAmount(prev), InvoiceAmount(cur), amountDiff, consumptionDiff,
          ReasonsFor(consumptionDiff, amountDiff, BonusAmount(cur), BonusAmount(prev)),
          period.1 + " to " + period.2)
  }

  /** What `compare_with_previous_invoice` returns, as a value. */
  function PreviousComparison(current: Json, records: seq<(string, Json)>): (r: Result<Outcome, PyError>)
    ensures DateOf(current).Err? ==> r == Err(DateOf(current).error)
    ensures DateOf(current).Ok? && RecordDates(records).Err? ==> r == Err(RecordDates(records).error)
    ensures DateOf(current).Ok? && RecordDates(records).Ok? ==>
              var dates, now := RecordDates(records).value, DateOf(current).value;
              r.Ok? &&
              (r.value == NotFound <==> forall j :: 0 <= j < |dates| ==> !Before(dates[j], now)) &&
              (r.value != NotFound ==>
                 exists p :: IsPrevious(dates, now, p) && p < |records| && r.value == Compare(current, Field(records[p].1, "Data")))
  {
    match DateOf(current)
    case Err(e) => Err(e)
    case Ok(now) =>
      match RecordDates(records)
      case Err(e) => Err(e)
      case Ok(dates) =>
        CollectOk(RecordDateResults(records));
        match PreviousIndex(dates, now)
        case None => Ok(NotFound)
        case Some(p) =>
          var o := Compare(current, Field(records[p].1, "Data"));
          assert o != NotFound;
          Ok(o)
  }

  /** `compare_with_previous_invoice`, given the store's records in order. */
  method CompareWithPreviousInvoice(current: Json, records: seq<(string, Json)>) returns (r: Result<Outcome, PyError>)
    // The current invoice's date is read first; then each record's, and the first failure raises.
    ensures DateOf(current).Err? ==> r == Err(DateOf(current).error)
    ensures DateOf(current).Ok? && RecordDates(records).Err? ==> r == Err(RecordDates(records).error)
    // With every date read, the previous invoice is the latest one dated before the current one.
    ensures DateOf(current).Ok? && RecordDates(records).Ok? ==>
              var dates, now := RecordDates(records).value, DateOf(current).value;
              r.Ok? &&
              (r.value == NotFound <==> forall j :: 0 <= j < |dates| ==> !Before(dates[j], now)) &&
              (r.value != NotFound ==>
                 exists p :: IsPrevious(dates, now, p) && p < |records| && r.value == Compare(current, Field(records[p].1, "Data")))
    ensures r == PreviousComparison(current, records)
  {
    var currentDate := ParseDate(InvoiceDate(NewAnalyzer(current)));
    if currentDate.Err? {
      return Err(currentDate.error);
    }
    var dates := ReadDates(records);
    if dates.Err? {
      return Err(dates.error);
    }
    CollectOk(RecordDateResults(records));
    var previous := LatestBefore(dates.value, currentDate.value);
    if previous.None? {
      return Ok(NotFound);
    }
    r := Ok(Compare(current, Field(records[previous.value].1, "Data")));
  }

  /** One record's date: `record.get("Data", {})` needs a dictionary. */
  method ReadDate(record: Json) returns (date: Result<Date, PyError>)
    ensures date == RecordDate(record)
  {
    if record.JObj? {
      date := ParseDate(InvoiceDate(NewAnalyzer(Field(record, "Data"))));
    } else {
      date := Err(AttributeError);
    }
  }

  /** The loop over the store's records, reading each one's date. */
  method ReadDates(records: seq<(string, Json)>) returns (r: Result<seq<Date>, PyError>)
    ensures r == RecordDates(records)
  {
    ghost var results := RecordDateResults(records);
    var dates := [];
    var i := 0;
    while i < |records|
      invariant 0 <= i <= |records|
      invariant Collect(results[..i]) == Ok(dates)
    {
      var date := ReadDate(records[i].1);
      assert date == results[i];
      if date.Err? {
        CollectStepErr(results, i);
        CollectPrefixErr(results, i + 1);
        return Err(date.error);
      }
      CollectStep(results, i);
      dates := dates + [date.value];
      i := i + 1;
    }
    assert results[..i] == results;
    r := Ok(dates);
  }
}
