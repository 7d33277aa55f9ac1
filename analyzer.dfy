/** `IntelligentInvoiceAnalyzer`: the facts the assistant reads off one invoice
    document — consumption, prices, the five named levies, anomalies and the
    cost breakdown.  Document access is lenient: a missing node reads as 0, ""
    or an empty list. */
module InvoiceAnalyzer {
  import opened Wrappers
  import opened Text
  import opened Json

  /** The analyzer's view of an invoice, fixed when it is constructed. */
  datatype Analyzer = Analyzer(
    invoice: Json,
    processData: Json,
    consumptionData: seq<Json>,
    billingItems: seq<Json>,
    partnerData: Json,
    costBlocks: seq<Json>)

  function NewAnalyzer(invoice: Json): Analyzer {
    var process := Path(invoice, ["ProzessDaten", "ProzessDatenElement"]);
    Analyzer(
      invoice,
      process,
      AsList(Path(invoice, ["Abrechnungsmengen", "AbrechnungsmengenElement"])),
      AsList(Path(invoice, ["Abrechnungspositionen", "AbrechnungspositionenElement"])),
      Path(process, ["Geschaeftspartner", "GeschaeftspartnerElement"]),
      AsList(Path(invoice, ["Kostenblock", "KostenblockElement"])))
  }

  // ---------------------------------------------------------------------------
  // Consumption

  function ConsumptionOf(item: Json): real {
    NumberAt(item, "consumption")
  }

  /** Sum of the `consumption` fields, in item order. */
  function SumConsumption(items: seq<Json>): real {
    if items == [] then 0.0 else ConsumptionOf(items[0]) + SumConsumption(items[1..])
  }

  lemma {:induction false} SumConsumptionAppend(items: seq<Json>, item: Json)
    ensures SumConsumption(items + [item]) == SumConsumption(items) + ConsumptionOf(item)
  {
    if items != [] {
      assert (items + [item])[1..] == items[1..] + [item];
      SumConsumptionAppend(items[1..], item);
    }
  }

  /** The bill's total consumption and its period, taken from the process data only. */
  function TotalConsumption(a: Analyzer): (r: (real, string, string))
    ensures r.0 == SumConsumption(a.consumptionData)
    ensures r.1 == TextAt(a.processData, "invoicePeriodFrom")
    ensures r.2 == TextAt(a.processData, "invoicePeriodTo")
  {
    (SumConsumption(a.consumptionData), TextAt(a.processData, "invoicePeriodFrom"), TextAt(a.processData, "invoicePeriodTo"))
  }

  predicate IsZeroConsumptionBill(a: Analyzer) {
    TotalConsumption(a).0 == 0.0
  }

  /** With no negative readings, a bill has zero consumption exactly when every reading is 0. */
  lemma {:induction false} ZeroConsumptionMeansNoReadings(items: seq<Json>)
    requires forall i :: 0 <= i < |items| ==> ConsumptionOf(items[i]) >= 0.0
    ensures SumConsumption(items) >= 0.0
    ensures SumConsumption(items) == 0.0 <==> forall i :: 0 <= i < |items| ==> ConsumptionOf(items[i]) == 0.0
  {
    if items != [] {
      var rest := items[1..];
      assert forall i :: 0 <= i < |rest| ==> rest[i] == items[i + 1];
      ZeroConsumptionMeansNoReadings(rest);
      assert SumConsumption(items) == ConsumptionOf(items[0]) + SumConsumption(rest);
      if SumConsumption(items) == 0.0 {
        assert ConsumptionOf(items[0]) == 0.0 && SumConsumption(rest) == 0.0;
        forall i | 0 <= i < |items|
          ensures ConsumptionOf(items[i]) == 0.0
        {
          if i > 0 {
            assert items[i] == rest[i - 1];
          }
        }
      }
    }
  }

  // ---------------------------------------------------------------------------
  // Simple getters

  function InvoiceAmount(a: Analyzer): real { NumberAt(a.processData, "invoiceAmount") }
  function BonusAmount(a: Analyzer): real { NumberAt(a.processData, "bonus") }
  function TaxAmount(a: Analyzer): real { NumberAt(a.processData, "taxAmount") }
  function NetAmount(a: Analyzer): real { NumberAt(a.processData, "netInvoiceAmount") }
  function InvoiceDate(a: Analyzer): string { TextAt(a.processData, "invoiceDate") }
  function InvoiceNumber(a: Analyzer): string { TextAt(a.processData, "invoiceNumber") }

  /** The working price in €/kWh: the tariff's `currentWorkPrice`, given in ct/kWh. */
  function WorkingPrice(a: Analyzer): (r: real)
    ensures r * 100.0 == NumberAt(a.processData, "currentWorkPrice")
  {
    NumberAt(a.processData, "currentWorkPrice") / 100.0
  }

  // ---------------------------------------------------------------------------
  // Base price

  /** A billing item for the basic charge ("Grundkosten" at the basic rate). */
  predicate IsBaseCharge(item: Json) {
    Field(item, "priceType") == JStr("BASIC_RATE") && Field(item, "name") == JStr("Grundkosten")
  }

  /** Index of the first basic-charge item. */
  function FirstBaseCharge(items: seq<Json>): (r: Option<nat>)
    ensures r.Some? ==> r.value < |items| && IsBaseCharge(items[r.value]) &&
                        forall j :: 0 <= j < r.value ==> !IsBaseCharge(items[j])
    ensures r.None? ==> forall j :: 0 <= j < |items| ==> !IsBaseCharge(items[j])
  {
    if items == [] then None
    else if IsBaseCharge(items[0]) then Some(0)
    else
      match FirstBaseCharge(items[1..])
      case None => None
      case Some(k) => Some(k + 1)
  }

  /** The first basic-charge item is the one with no basic-charge item before it. */
  lemma FirstBaseChargeAt(items: seq<Json>, i: nat)
    requires i < |items| && IsBaseCharge(items[i])
    requires forall j :: 0 <= j < i ==> !IsBaseCharge(items[j])
    ensures FirstBaseCharge(items) == Some(i)
  {
  }

  /** The net base price: the amount of the first basic-charge item, 0 without one. */
  function BaseNet(items: seq<Json>): real {
    match FirstBaseCharge(items)
    case Some(i) => NumberAt(items[i], "amount")
    case None => 0.0
  }

  /** `get_base_price`: the net amount of the first basic-charge item (0 without one)
      and the gross base price of the tariff. */
  method BasePrice(a: Analyzer) returns (net: real, gross: real)
    ensures net == BaseNet(a.billingItems)
    ensures gross == NumberAt(a.processData, "currentBasePrice")
  {
    net := 0.0;
    var i := 0;
    while i < |a.billingItems|
      invariant 0 <= i <= |a.billingItems|
      invariant forall j :: 0 <= j < i ==> !IsBaseCharge(a.billingItems[j])
      invariant net == 0.0
    {
      var item := a.billingItems[i];
      if IsBaseCharge(item) {
        FirstBaseChargeAt(a.billingItems, i);
        net := NumberAt(item, "amount");
        break;
      }
      i := i + 1;
    }
    gross := NumberAt(a.processData, "currentBasePrice");
  }

  // ---------------------------------------------------------------------------
  // Levies

  /** The detailed positions of a billing item; none when the item has no truthy detail block. */
  function DetailsOf(item: Json): seq<Json> {
    var block := Field(item, "Abrechnungspositionen-Detailliert");
    if Truthy(block) then AsList(Field(block, "Abrechnungspositionen-DetailliertElement")) else []
  }

  /** All detailed positions of the billing items, in order. */
  function AllDetails(items: seq<Json>): seq<Json> {
    if items == [] then [] else AllDetails(items[..|items| - 1]) + DetailsOf(items[|items| - 1])
  }

  function DetailName(d: Json): string { TextAt(d, "name") }
  function DetailAmount(d: Json): real { NumberAt(d, "amount") }

  /** The five levies, in the order their keywords are tried. */
  datatype Levy = Kwkg | Offshore | Concession | Nev | ElectricityTax {
    /** The key under which the levy is reported. */
    function Name(): string {
      match this
      case Kwkg => "KWKG-Umlage"
      case Offshore => "Offshore-Netzumlage"
      case Concession => "Konzessionsabgabe"
      case Nev => "NEV-Umlage"
      case ElectricityTax => "Stromsteuer"
    }
  }

  const AllLevies: set<Levy> := {Kwkg, Offshore, Concession, Nev, ElectricityTax}

  lemma EveryLevyListed(l: Levy)
    ensures l in AllLevies
  {
    match l
    case Kwkg =>
    case Offshore =>
    case Concession =>
    case Nev =>
    case ElectricityTax =>
  }

  /** The levy a position's name is booked to: the first whose keyword occurs in it. */
  function LevyOf(name: string): Option<Levy> {
    if Contains(name, "KWKG") then Some(Kwkg)
    else if Contains(name, "Offshore") then Some(Offshore)
    else if Contains(name, "Konzessionsabgabe") then Some(Concession)
    else if Contains(name, "NEV") then Some(Nev)
    else if Contains(name, "Stromsteuer") then Some(ElectricityTax)
    else None
  }

  /** The amount booked to `levy` from the positions `ds`. */
  function LevySum(ds: seq<Json>, levy: Levy): real {
    if ds == [] then 0.0
    else
      var d := ds[|ds| - 1];
      LevySum(ds[..|ds| - 1], levy) + (if LevyOf(DetailName(d)) == Some(levy) then DetailAmount(d) else 0.0)
  }

  lemma LevySumAppend(ds: seq<Json>, d: Json, levy: Levy)
    ensures LevySum(ds + [d], levy) == LevySum(ds, levy) + (if LevyOf(DetailName(d)) == Some(levy) then DetailAmount(d) else 0.0)
  {
    assert (ds + [d])[..|ds|] == ds;
  }

  /** Sum of the positions whose name contains "KWKG". */
  function KwkgSum(ds: seq<Json>): real {
    if ds == [] then 0.0
    else
      var d := ds[|ds| - 1];
      KwkgSum(ds[..|ds| - 1]) + (if Contains(DetailName(d), "KWKG") then DetailAmount(d) else 0.0)
  }

  lemma KwkgSumAppend(ds: seq<Json>, d: Json)
    ensures KwkgSum(ds + [d]) == KwkgSum(ds) + (if Contains(DetailName(d), "KWKG") then DetailAmount(d) else 0.0)
  {
    assert (ds + [d])[..|ds|] == ds;
  }

  lemma AllDetailsStep(items: seq<Json>, i: nat)
    requires i < |items|
    ensures AllDetails(items[..i + 1]) == AllDetails(items[..i]) + DetailsOf(items[i])
  {
    assert items[..i + 1][..i] == items[..i];
  }

  /** The inner loop of `get_kwkg_amount`: add the KWKG positions of one detail block. */
  method AddKwkgPositions(total0: real, ghost before: seq<Json>, details: seq<Json>) returns (total: real)
    requires total0 == KwkgSum(before)
    ensures total == KwkgSum(before + details)
  {
    total := total0;
    assert before + details[..0] == before;
    for j := 0 to |details|
      invariant total == KwkgSum(before + details[..j])
    {
      total := AddKwkgPosition(total, before, details, j);
    }
    assert details[..|details|] == details;
    assert before + details[..|details|] == before + details;
  }

  /** One position of the inner loop of `get_kwkg_amount`. */
  method AddKwkgPosition(total0: real, ghost before: seq<Json>, details: seq<Json>, j: nat) returns (total: real)
    requires j < |details| && total0 == KwkgSum(before + details[..j])
    ensures total == KwkgSum(before + details[..j + 1])
  {
    var d := details[j];
    assert before + details[..j + 1] == (before + details[..j]) + [d];
    KwkgSumAppend(before + details[..j], d);
    total := total0;
    if Contains(DetailName(d), "KWKG") {
      total := total + DetailAmount(d);
    }
  }

  /** `get_kwkg_amount`. */
  method KwkgAmount(a: Analyzer) returns (total: real)
    ensures total == KwkgSum(AllDetails(a.billingItems))
  {
    var items := a.billingItems;
    total := 0.0;
    var i := 0;
    while i < |items|
      invariant 0 <= i <= |items|
      invariant total == KwkgSum(AllDetails(items[..i]))
    {
      var item := items[i];
      AllDetailsStep(items, i);
      if Truthy(Field(item, "Abrechnungspositionen-Detailliert")) {
        var details := AsList(Field(Field(item, "Abrechnungspositionen-Detailliert"), "Abrechnungspositionen-DetailliertElement"));
        total := AddKwkgPositions(total, AllDetails(items[..i]), details);
      } else {
        assert AllDetails(items[..i]) + [] == AllDetails(items[..i]);
      }
      i := i + 1;
    }
    assert items[..i] == items;
  }

  /** The levy table: exactly the five levies, each with the amount booked to it. */
  predicate IsLevyTable(levies: map<Levy, real>, ds: seq<Json>) {
    levies.Keys == AllLevies &&
    forall l :: l in levies ==> levies[l] == LevySum(ds, l)
  }

  /** The levy table of a list of positions. */
  function LevyTable(ds: seq<Json>): (m: map<Levy, real>)
    ensures IsLevyTable(m, ds)
  {
    map l | l in AllLevies :: LevySum(ds, l)
  }

  /** There is only one levy table for a list of positions. */
  lemma LevyTableUnique(m: map<Levy, real>, ds: seq<Json>)
    requires IsLevyTable(m, ds)
    ensures m == LevyTable(ds)
  {
  }

  /** `levies[name] += amount` for the levy `l`. */
  lemma LevyTableStep(levies0: map<Levy, real>, ds: seq<Json>, d: Json, levy: Option<Levy>, levies: map<Levy, real>)
    requires IsLevyTable(levies0, ds) && levy == LevyOf(DetailName(d))
    requires levy.Some? ==> levy.value in levies0 && levies == levies0[levy.value := levies0[levy.value] + DetailAmount(d)]
    requires levy.None? ==> levies == levies0
    ensures IsLevyTable(levies, ds + [d])
  {
    assert levies.Keys == levies0.Keys;
    forall k | k in levies
      ensures levies[k] == LevySum(ds + [d], k)
    {
      LevySumAppend(ds, d, k);
    }
  }

  /** The inner loop of `get_specific_levy_amounts`: book the positions of one detail block. */
  method BookLevyPositions(levies0: map<Levy, real>, ghost before: seq<Json>, details: seq<Json>)
    returns (levies: map<Levy, real>)
    requires IsLevyTable(levies0, before)
    ensures IsLevyTable(levies, before + details)
  {
    levies := levies0;
    assert before + details[..0] == before;
    for j := 0 to |details|
      invariant IsLevyTable(levies, before + details[..j])
    {
      levies := BookLevyPosition(levies, before, details, j);
    }
    assert details[..|details|] == details;
    assert before + details[..|details|] == before + details;
  }

  /** One position of the inner loop of `get_specific_levy_amounts`. */
  method BookLevyPosition(levies0: map<Levy, real>, ghost before: seq<Json>, details: seq<Json>, j: nat)
    returns (levies: map<Levy, real>)
    requires j < |details| && IsLevyTable(levies0, before + details[..j])
    ensures IsLevyTable(levies, before + details[..j + 1])
  {
    var d := details[j];
    ghost var seen := before + details[..j];
    assert before + details[..j + 1] == seen + [d];
    var levy := LevyOf(DetailName(d));
    levies := levies0;
    if levy.Some? {
      EveryLevyListed(levy.value);
      levies := levies[levy.value := levies[levy.value] + DetailAmount(d)];
    }
    LevyTableStep(levies0, seen, d, levy, levies);
  }

  /** `get_specific_levy_amounts`. */
  method SpecificLevyAmounts(a: Analyzer) returns (levies: map<Levy, real>)
    ensures IsLevyTable(levies, AllDetails(a.billingItems))
  {
    var items := a.billingItems;
    levies := map[Kwkg := 0.0, Offshore := 0.0, Concession := 0.0, Nev := 0.0, ElectricityTax := 0.0];
    var i := 0;
    while i < |items|
      invariant 0 <= i <= |items|
      invariant IsLevyTable(levies, AllDetails(items[..i]))
    {
      var item := items[i];
      AllDetailsStep(items, i);
      if Truthy(Field(item, "Abrechnungspositionen-Detailliert")) {
        var details := AsList(Field(Field(item, "Abrechnungspositionen-Detailliert"), "Abrechnungspositionen-DetailliertElement"));
        levies := BookLevyPositions(levies, AllDetails(items[..i]), details);
      } else {
        assert AllDetails(items[..i]) + [] == AllDetails(items[..i]);
      }
      i := i + 1;
    }
    assert items[..i] == items;
  }

  /** The KWKG levy and `get_kwkg_amount` agree: "KWKG" is the first keyword tried. */
  lemma {:induction false} KwkgLevyIsKwkgAmount(ds: seq<Json>)
    ensures LevySum(ds, Kwkg) == KwkgSum(ds)
  {
    if ds != [] {
      var d := ds[|ds| - 1];
      KwkgLevyIsKwkgAmount(ds[..|ds| - 1]);
      assert LevyOf(DetailName(d)) == Some(Kwkg) <==> Contains(DetailName(d), "KWKG");
    }
  }

  /** Sum of all position amounts that some levy keyword claims. */
  function ClaimedSum(ds: seq<Json>): real {
    if ds == [] then 0.0
    else
      var d := ds[|ds| - 1];
      ClaimedSum(ds[..|ds| - 1]) + (if LevyOf(DetailName(d)).Some? then DetailAmount(d) else 0.0)
  }

  /** The five levies partition the claimed positions: each amount is counted exactly once. */
  lemma {:induction false} LeviesPartition(ds: seq<Json>)
    ensures LevySum(ds, Kwkg) + LevySum(ds, Offshore) + LevySum(ds, Concession)
            + LevySum(ds, Nev) + LevySum(ds, ElectricityTax) == ClaimedSum(ds)
  {
    if ds != [] {
      LeviesPartition(ds[..|ds| - 1]);
    }
  }

  /** A levy that no position claims stays at 0. */
  lemma {:induction false} UnclaimedLevyIsZero(ds: seq<Json>, levy: Levy)
    requires forall i :: 0 <= i < |ds| ==> LevyOf(DetailName(ds[i])) != Some(levy)
    ensures LevySum(ds, levy) == 0.0
  {
    if ds != [] {
      UnclaimedLevyIsZero(ds[..|ds| - 1], levy);
    }
  }

  // ---------------------------------------------------------------------------
  // Unusual charges

  /** An anomaly reported by `analyze_unusual_charges`. */
  datatype Anomaly = HighBasicCharge(amount: real) | ZeroUsageCharges {
    function Explanation(): string {
      match this
      case HighBasicCharge(_) =>
        "Higher than typical basic charge, possibly due to new contract setup or tariff change"
      case ZeroUsageCharges =>
        "No usage charges applied - this typically occurs in initial/setup bills or when consumption is covered by prepayments"
    }
  }

  function PriceType(item: Json): Json { Field(item, "priceType") }
  function ItemAmount(item: Json): real { NumberAt(item, "amount") }

  /** A basic-rate item above 100. */
  predicate IsHighBasic(item: Json) {
    PriceType(item) == JStr("BASIC_RATE") && ItemAmount(item) > 100.0
  }

  /** How many items are basic-rate items above 100. */
  function HighBasicCount(items: seq<Json>): nat {
    if items == [] then 0
    else HighBasicCount(items[..|items| - 1]) + (if IsHighBasic(items[|items| - 1]) then 1 else 0)
  }

  /** One `high_basic_charge` per basic-rate item above 100, in item order. */
  function HighBasicCharges(items: seq<Json>): (r: seq<Anomaly>)
    ensures forall k :: 0 <= k < |r| ==> r[k].HighBasicCharge? && r[k].amount > 100.0
    ensures |r| <= |items|
  {
    if items == [] then []
    else
      var item := items[|items| - 1];
      HighBasicCharges(items[..|items| - 1]) + (if IsHighBasic(item) then [HighBasicCharge(ItemAmount(item))] else [])
  }

  /** Every reported charge is that of a basic-rate item above 100. */
  lemma {:induction false} HighBasicChargesSound(items: seq<Json>, k: int)
    requires 0 <= k < |HighBasicCharges(items)|
    ensures exists i :: 0 <= i < |items| && IsHighBasic(items[i]) && HighBasicCharges(items)[k] == HighBasicCharge(ItemAmount(items[i]))
  {
    var n := |items| - 1;
    var init := items[..n];
    if k < |HighBasicCharges(init)| {
      HighBasicChargesSound(init, k);
      var i :| 0 <= i < |init| && IsHighBasic(init[i]) && HighBasicCharges(init)[k] == HighBasicCharge(ItemAmount(init[i]));
      assert items[i] == init[i];
    } else {
      assert IsHighBasic(items[n]) && HighBasicCharges(items)[k] == HighBasicCharge(ItemAmount(items[n]));
    }
  }

  /** Every basic-rate item above 100 is reported, in item order: there are as many
      charges as such items, and each such item's charge sits after those of the items
      before it. */
  lemma {:induction false} HighBasicChargesComplete(items: seq<Json>)
    ensures |HighBasicCharges(items)| == HighBasicCount(items)
    ensures forall i :: 0 <= i < |items| && IsHighBasic(items[i]) ==>
              HighBasicCount(items[..i]) < |HighBasicCharges(items)| &&
              HighBasicCharges(items)[HighBasicCount(items[..i])] == HighBasicCharge(ItemAmount(items[i]))
  {
    if items != [] {
      var n := |items| - 1;
      var init := items[..n];
      HighBasicChargesComplete(init);
      var r, r0 := HighBasicCharges(items), HighBasicCharges(init);
      assert r[..|r0|] == r0;
      assert |r| == |r0| + (if IsHighBasic(items[n]) then 1 else 0);
      forall i | 0 <= i < |items| && IsHighBasic(items[i])
        ensures HighBasicCount(items[..i]) < |r| && r[HighBasicCount(items[..i])] == HighBasicCharge(ItemAmount(items[i]))
      {
        if i < n {
          assert init[..i] == items[..i] && init[i] == items[i];
          var k := HighBasicCount(items[..i]);
          assert k < |r0| && r0[k] == HighBasicCharge(ItemAmount(items[i]));
          assert r[k] == r[..|r0|][k];
        } else {
          assert items[..i] == init;
        }
      }
    }
  }

  /** Every usage-rate item is charged 0 (vacuously so when there are none). */
  predicate AllUsageZero(items: seq<Json>) {
    forall i :: 0 <= i < |items| ==> !ChargedUsage(items[i])
  }

  /** A usage-rate item with a non-zero amount. */
  predicate ChargedUsage(item: Json) {
    PriceType(item) == JStr("USAGE_RATE") && ItemAmount(item) != 0.0
  }

  /** `analyze_unusual_charges`. */
  method UnusualCharges(a: Analyzer) returns (r: seq<Anomaly>)
    ensures r == HighBasicCharges(a.billingItems) + (if AllUsageZero(a.billingItems) then [ZeroUsageCharges] else [])
  {
    r := ScanBasicCharges(a.billingItems);
    var allZero := ScanUsageCharges(a.billingItems);
    if allZero {
      r := r + [ZeroUsageCharges];
    }
  }

  /** The first loop of `analyze_unusual_charges`: the basic-rate items above 100. */
  method ScanBasicCharges(items: seq<Json>) returns (r: seq<Anomaly>)
    ensures r == HighBasicCharges(items)
  {
    r := [];
    var i := 0;
    while i < |items|
      invariant 0 <= i <= |items|
      invariant r == HighBasicCharges(items[..i])
    {
      assert items[..i + 1][..i] == items[..i];
      if Field(items[i], "priceType") == JStr("BASIC_RATE") {
        var amount := NumberAt(items[i], "amount");
        if amount > 100.0 {
          r := r + [HighBasicCharge(amount)];
        }
      }
      i := i + 1;
    }
    assert items[..i] == items;
  }

  /** The second check of `analyze_unusual_charges`: whether every usage-rate item is 0
      (`all` stops at the first one that is not). */
  method ScanUsageCharges(items: seq<Json>) returns (allZero: bool)
    ensures allZero <==> AllUsageZero(items)
  {
    var i := 0;
    while i < |items|
      invariant 0 <= i <= |items|
      invariant forall k :: 0 <= k < i ==> !ChargedUsage(items[k])
    {
      if ChargedUsage(items[i]) {
        return false;
      }
      i := i + 1;
    }
    return true;
  }

  /** The zero-usage anomaly is reported at most once, last, and exactly when every usage
      charge is 0; all other anomalies are basic charges above 100. */
  lemma ZeroUsageReportedLast(items: seq<Json>)
    ensures var r := HighBasicCharges(items) + (if AllUsageZero(items) then [ZeroUsageCharges] else []);
            (ZeroUsageCharges in r <==> AllUsageZero(items)) &&
            (AllUsageZero(items) ==> r[|r| - 1] == ZeroUsageCharges) &&
            forall k :: 0 <= k < |r| && r[k] != ZeroUsageCharges ==> r[k].HighBasicCharge? && r[k].amount > 100.0
  {
  }

  /** A bill with zero consumption can still carry usage charges, and then reports no
      zero-usage anomaly: the two notions are independent. */
  lemma ZeroConsumptionWithUsageCharge()
    ensures var usage := JObj([("priceType", JStr("USAGE_RATE")), ("amount", JNum(5.0))]);
            var a := NewAnalyzer(JObj([("Abrechnungspositionen", JObj([("AbrechnungspositionenElement", JArr([usage]))]))]));
            IsZeroConsumptionBill(a) && !AllUsageZero(a.billingItems)
  {
    var usage := JObj([("priceType", JStr("USAGE_RATE")), ("amount", JNum(5.0))]);
    var a := NewAnalyzer(JObj([("Abrechnungspositionen", JObj([("AbrechnungspositionenElement", JArr([usage]))]))]));
    assert a.billingItems == [usage];
    assert a.consumptionData == [];
    assert ItemAmount(a.billingItems[0]) == 5.0;
  }

  // ---------------------------------------------------------------------------
  // Cost breakdown

  datatype CostCategory = GridAndMetering | TaxesAndLevies | EnergySupply

  /** The bucket a cost block is filed under: grid/metering first, then taxes/levies, then supply. */
  function CategoryOf(name: string): Option<CostCategory> {
    if Contains(name, "Netz") || Contains(name, "Messung") then Some(GridAndMetering)
    else if Contains(name, "Steuer") || Contains(name, "Umlage") then Some(TaxesAndLevies)
    else if Contains(name, "Beschaffung") || Contains(name, "Vertrieb") then Some(EnergySupply)
    else None
  }

  datatype Bucket = Bucket(amount: real, percentage: real)

  /** The breakdown dictionary; its `components` lists are always empty and are not modelled. */
  datatype Breakdown = Breakdown(grid: Bucket, taxes: Bucket, supply: Bucket, bonus: real)

  function BlockName(b: Json): string { TextAt(b, "printItemName") }
  function BlockBucket(b: Json): Bucket { Bucket(NumberAt(b, "amount"), NumberAt(b, "percentageAmount")) }

  /** The bucket a category ends with: the last block filed under it, or zeros. */
  function LastInCategory(blocks: seq<Json>, c: CostCategory): Bucket {
    if blocks == [] then Bucket(0.0, 0.0)
    else
      var b := blocks[|blocks| - 1];
      if CategoryOf(BlockName(b)) == Some(c) then BlockBucket(b) else LastInCategory(blocks[..|blocks| - 1], c)
  }

  /** `get_detailed_cost_breakdown`. */
  method CostBreakdown(a: Analyzer) returns (b: Breakdown)
    ensures b.grid == LastInCategory(a.costBlocks, GridAndMetering)
    ensures b.taxes == LastInCategory(a.costBlocks, TaxesAndLevies)
    ensures b.supply == LastInCategory(a.costBlocks, EnergySupply)
    ensures b.bonus == BonusAmount(a)
  {
    var blocks := a.costBlocks;
    b := Breakdown(Bucket(0.0, 0.0), Bucket(0.0, 0.0), Bucket(0.0, 0.0), 0.0);
    var i := 0;
    while i < |blocks|
      invariant 0 <= i <= |blocks|
      invariant b.grid == LastInCategory(blocks[..i], GridAndMetering)
      invariant b.taxes == LastInCategory(blocks[..i], TaxesAndLevies)
      invariant b.supply == LastInCategory(blocks[..i], EnergySupply)
      invariant b.bonus == 0.0
    {
      assert blocks[..i + 1][..i] == blocks[..i];
      var name := TextAt(blocks[i], "printItemName");
      var amount := NumberAt(blocks[i], "amount");
      var percentage := NumberAt(blocks[i], "percentageAmount");
      if Contains(name, "Netz") || Contains(name, "Messung") {
        b := b.(grid := Bucket(amount, percentage));
      } else if Contains(name, "Steuer") || Contains(name, "Umlage") {
        b := b.(taxes := Bucket(amount, percentage));
      } else if Contains(name, "Beschaffung") || Contains(name, "Vertrieb") {
        b := b.(supply := Bucket(amount, percentage));
      }
      i := i + 1;
    }
    assert blocks[..i] == blocks;
    var bonus := NumberAt(a.processData, "bonus");
    if bonus != 0.0 {
      b := b.(bonus := bonus);
    }
  }

  /** Without a block filed under it, a category stays at zero. */
  lemma {:induction false} EmptyCategoryIsZero(blocks: seq<Json>, c: CostCategory)
    requires forall i :: 0 <= i < |blocks| ==> CategoryOf(BlockName(blocks[i])) != Some(c)
    ensures LastInCategory(blocks, c) == Bucket(0.0, 0.0)
  {
    if blocks != [] {
      EmptyCategoryIsZero(blocks[..|blocks| - 1], c);
    }
  }

  /** A category holds the amounts of its last block; earlier blocks are overwritten. */
  lemma {:induction false} LastBlockWins(blocks: seq<Json>, c: CostCategory, i: nat)
    requires i < |blocks| && CategoryOf(BlockName(blocks[i])) == Some(c)
    requires forall j :: i < j < |blocks| ==> CategoryOf(BlockName(blocks[j])) != Some(c)
    ensures LastInCategory(blocks, c) == BlockBucket(blocks[i])
  {
    if i < |blocks| - 1 {
      LastBlockWins(blocks[..|blocks| - 1], c, i);
    }
  }
}
