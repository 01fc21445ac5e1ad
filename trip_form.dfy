// The trip entry form (src/components/TripForm.jsx): the fields it derives
// while the user types, the fuel list handlers, the save sequence and the
// cash amounts it displays.

/**
 * One pass of the recalculation effect is a function of the form as it was
 * when the pass began; the class `Form` runs the same pass as the source's
 * sequence of updates and is proved to reach that function's result. Remote
 * calls are recorded as requests, and whether the trip was saved is an
 * input outcome.
 */
module TripForm {
  import opened Wrappers
  import opened Money
  import opened Trips
  import opened Calculations

  const UberEarningKey: string := "uber"
  const UberCommissionKey: string := "uber_commission"
  const YatriCommissionKey: string := "yatri_commission"
  /** The fixed Uber commission, in rupees. */
  const UberFee: real := 117.0
  /** The Yatri commission per trip, in rupees. */
  const YatriFeePerTrip: real := 10.0

  /** `parseFloat(x)`, with `None` for NaN (a blank field or text that does not parse). */
  function ParseNumber(r: Raw): Option<real> {
    if r.Num? then Some(r.value) else None
  }

  // ------------------------------------------- one pass of the derivation

  /** The distance the km step writes: endKm - startKm when both are filled in and it is not negative. */
  function KmUpdate(f: Trip): Option<Raw> {
    if Truthy(f.startKm) && Truthy(f.endKm) && f.startKm.Num? && f.endKm.Num? && f.endKm.value - f.startKm.value >= 0.0
    then Some(Num(f.endKm.value - f.startKm.value))
    else None
  }

  /** The Uber commission the Uber step writes: 117 when the flag is on and an Uber earning is entered, blank when it is off. */
  function UberUpdate(f: Trip): Option<Raw> {
    if f.hasUberCommission && Truthy(Lookup(f.platformEarnings, UberEarningKey)) then Some(Num(UberFee))
    else if !f.hasUberCommission then Some(Blank)
    else None
  }

  /** The Yatri commission the Yatri step writes: ten rupees a trip for a positive trip count. */
  function YatriUpdate(f: Trip): Option<Raw> {
    if Truthy(f.yatriTrips) && f.yatriTrips.Num? && f.yatriTrips.value > 0.0
    then Some(Num(f.yatriTrips.value * YatriFeePerTrip))
    else None
  }

  /** The cash collected the total step writes: the sum of the platform earnings when it is positive. */
  function TotalCashUpdate(f: Trip): Option<Raw> {
    if PlatformEarningsSum(f) > 0.0 then Some(Num(PlatformEarningsSum(f))) else None
  }

  /** `{ ...m, [k]: v }` when the step writes `v`, else `m`. */
  function PutIf(m: Amounts, k: string, v: Option<Raw>): Amounts {
    if v.Some? then Put(m, k, v.value) else m
  }

  function UberCommissionStep(f: Trip, m: Amounts): Amounts {
    PutIf(m, UberCommissionKey, UberUpdate(f))
  }

  function YatriCommissionStep(f: Trip, m: Amounts): Amounts {
    PutIf(m, YatriCommissionKey, YatriUpdate(f))
  }

  function DerivedCommissions(f: Trip): Amounts {
    YatriCommissionStep(f, UberCommissionStep(f, f.commissions))
  }

  /** Cash in the driver's hand before clamping: no fuel or other expense is deducted. */
  function HandCashBase(f: Trip, salary: real): real {
    Coerce(f.totalCashCollected) - Coerce(f.onlinePayments) - (if f.driverTookSalary then salary else 0.0)
  }

  /** The cash step: with a cash total entered, the clamped cash in hand at two decimals and the total as cash collected. */
  function WithHandCash(f: Trip, g: Trip, salary: real): Trip {
    if Truthy(f.totalCashCollected)
    then g.(cashInDriverHand := Num(Round2(Max0(HandCashBase(f, salary)))), cashCollected := Num(Coerce(f.totalCashCollected)))
    else g
  }

  /**
   * One pass of the effect at lines 73-142 of the form, given the breakdown
   * `b` the pass computes for `f` (`calc.driverSalary || 0` is its salary).
   */
  function EffectPass(f: Trip, b: Breakdown): Trip {
    var g := f.(totalKm := KmUpdate(f).GetOr(f.totalKm), commissions := DerivedCommissions(f),
                totalCashCollected := TotalCashUpdate(f).GetOr(f.totalCashCollected));
    WithHandCash(f, g, b.driverSalary)
  }

  // ------------------------------------------------------- fuel handlers

  datatype FuelChange = SetType(fuelType: FuelType) | SetAmount(amount: Raw)

  /** `{ ...fuel, [field]: value }` */
  function ApplyChange(e: FuelEntry, c: FuelChange): FuelEntry {
    match c
    case SetType(ft) => e.(fuelType := ft)
    case SetAmount(a) => e.(amount := a)
  }

  /** `addFuelEntry`: one blank petrol entry at the end. */
  function WithFuelAdded(es: seq<FuelEntry>): (r: seq<FuelEntry>)
    ensures |r| == |es| + 1 && r[..|es|] == es
    ensures r[|es|] == FuelEntry(Petrol, Blank)
  {
    es + [FuelEntry(Petrol, Blank)]
  }

  /** `updateFuelEntry(index, field, value)`: the entry at `index` changes, every other stays. */
  function WithFuelUpdated(es: seq<FuelEntry>, index: int, c: FuelChange): (r: seq<FuelEntry>)
    ensures |r| == |es|
    ensures forall j :: 0 <= j < |es| ==> r[j] == (if j == index then ApplyChange(es[j], c) else es[j])
    decreases |es|
  {
    if es == [] then []
    else [if index == 0 then ApplyChange(es[0], c) else es[0]] + WithFuelUpdated(es[1..], index - 1, c)
  }

  /** `removeFuelEntry(index)`: the entry at `index` goes, the rest keep their order. */
  function WithFuelRemoved(es: seq<FuelEntry>, index: int): (r: seq<FuelEntry>)
    ensures 0 <= index < |es| ==> r == es[..index] + es[index + 1..]
    ensures !(0 <= index < |es|) ==> r == es
    decreases |es|
  {
    if es == [] then []
    else (if index == 0 then [] else [es[0]]) + WithFuelRemoved(es[1..], index - 1)
  }

  /** Removing from a list grown by one entry: the new entry stays unless it is the one removed. */
  lemma RemovedSnoc(es: seq<FuelEntry>, e: FuelEntry, index: int)
    ensures WithFuelRemoved(es + [e], index) == WithFuelRemoved(es, index) + (if index == |es| then [] else [e])
  {
    var s := es + [e];
    if 0 <= index < |es| {
      assert s[..index] == es[..index];
      assert s[index + 1..] == es[index + 1..] + [e];
    } else if index == |es| {
      assert s[..index] == es;
    }
  }

  /** The `map` over the entries in `updateFuelEntry`, one entry at a time. */
  method UpdateFuelLoop(es: seq<FuelEntry>, index: int, c: FuelChange) returns (updated: seq<FuelEntry>)
    ensures updated == WithFuelUpdated(es, index, c)
  {
    updated := [];
    var i := 0;
    while i < |es|
      invariant 0 <= i <= |es|
      invariant updated == WithFuelUpdated(es, index, c)[..i]
    {
      updated := updated + [if i == index then ApplyChange(es[i], c) else es[i]];
      i := i + 1;
    }
  }

  /** The `filter` over the entries in `removeFuelEntry`, one entry at a time. */
  method RemoveFuelLoop(es: seq<FuelEntry>, index: int) returns (kept: seq<FuelEntry>)
    ensures kept == WithFuelRemoved(es, index)
  {
    kept := [];
    var i := 0;
    while i < |es|
      invariant 0 <= i <= |es|
      invariant kept == WithFuelRemoved(es[..i], index)
    {
      RemovedSnoc(es[..i], es[i], index);
      assert es[..i + 1] == es[..i] + [es[i]];
      if i != index {
        kept := kept + [es[i]];
      }
      i := i + 1;
    }
    assert es[..i] == es;
  }

  // ------------------------------------------------------ save sequence

  /** A call to the remote sheet service. */
  datatype Request =
    | AddTrip(trip: Trip)
    | UpdateDriverSalary(driverName: string, salaryAmount: real, wasPaid: bool)
    | AddCashierTransaction(date: string, driverName: string, amount: Option<real>, transactionType: string, notes: string)

  /** Whether the cashier step runs: the flag is set and a cashier amount was entered. */
  predicate CashierStepApplies(f: Trip) {
    f.cashGivenToCashier && Truthy(f.cashToCashier)
  }

  /**
   * The calls `handleSubmit` makes, in order, for form `f`, the breakdown
   * last computed, and whether the trip was saved. Reading the salary of a
   * missing breakdown throws before the salary call is made.
   */
  function SubmitRequests(f: Trip, last: Option<Breakdown>, saved: bool): seq<Request> {
    if !Accepted(f) then []
    else
      var salary := if saved && last.Some? then [UpdateDriverSalary(f.driverName, last.value.driverSalary, f.driverTookSalary)] else [];
      var cashier := if saved && CashierStepApplies(f)
                     then [AddCashierTransaction(f.date, f.driverName, ParseNumber(f.cashToCashier), "received", "Cash from trip")]
                     else [];
      [AddTrip(f.(calculations := last))] + salary + cashier
  }

  // ------------------------------------------------ displayed cash amounts

  /** "Remaining with Driver": shown only for a positive cashier amount; `None` when not shown. */
  function RemainingWithDriver(last: Option<Breakdown>, f: Trip): Option<real> {
    if f.cashGivenToCashier && Truthy(f.cashToCashier) && f.cashToCashier.Num? && f.cashToCashier.value > 0.0
    then Some(if last.Some? then Round2(Max0(last.value.cashInHand - f.cashToCashier.value)) else 0.0)
    else None
  }

  /** "Cash in Hand" of the live panel; `None` is the text NaN that unparsable input shows. */
  function LiveCashInHand(cashInHand: real, f: Trip): Option<real> {
    var c := f.cashToCashier;
    if f.cashGivenToCashier && Truthy(c) && c.Num? && c.value >= cashInHand then Some(Round2(Max0(0.0)))
    else match c
      case Blank => Some(Round2(Max0(cashInHand - 0.0)))
      case Num(x) => Some(Round2(Max0(cashInHand - x)))
      case Garbage(_) => None
  }

  /** The form's initial state and the state `resetForm` restores. */
  function InitialForm(today: string): Trip {
    var blank5 := [Entry("uber", Blank), Entry("indrive", Blank), Entry("yatri", Blank), Entry("rapido", Blank), Entry("offline", Blank)];
    Trip(today, "", Blank, Blank, Blank, blank5, blank5,
         [Entry(UberCommissionKey, Blank), Entry(YatriCommissionKey, Blank)],
         false, Blank, [], Blank, Blank, Blank, false, false, Blank, Blank, Blank, None)
  }

  // ---------------------------------------------------------------- lemmas

  /** A pass writes only the derived fields; what the user typed is kept. */
  lemma EffectKeepsTypedFields(f: Trip, b: Breakdown)
    ensures var r := EffectPass(f, b);
            && r.date == f.date && r.driverName == f.driverName
            && r.startKm == f.startKm && r.endKm == f.endKm
            && r.platformEarnings == f.platformEarnings && r.platformCash == f.platformCash
            && r.hasUberCommission == f.hasUberCommission && r.yatriTrips == f.yatriTrips
            && r.fuelEntries == f.fuelEntries && r.onlinePayments == f.onlinePayments
            && r.otherExpenses == f.otherExpenses && r.driverTookSalary == f.driverTookSalary
            && r.cashGivenToCashier == f.cashGivenToCashier && r.cashToCashier == f.cashToCashier
            && r.calculations == f.calculations
  {
  }

  /** The distance is end minus start when both readings parse and end is not below start; otherwise it is kept. */
  lemma EffectKmRule(f: Trip, b: Breakdown)
    ensures f.startKm.Num? && f.endKm.Num? && f.endKm.value >= f.startKm.value ==>
              EffectPass(f, b).totalKm == Num(f.endKm.value - f.startKm.value)
    ensures !(f.startKm.Num? && f.endKm.Num? && f.endKm.value >= f.startKm.value) ==>
              EffectPass(f, b).totalKm == f.totalKm
  {
  }

  /** The Uber step writes only the Uber commission: 117, blank, or what it was. */
  lemma UberStepRule(f: Trip, m: Amounts, k: string)
    ensures f.hasUberCommission && Truthy(Lookup(f.platformEarnings, UberEarningKey)) ==>
              Lookup(UberCommissionStep(f, m), UberCommissionKey) == Num(117.0)
    ensures !f.hasUberCommission ==> Lookup(UberCommissionStep(f, m), UberCommissionKey) == Blank
    ensures f.hasUberCommission && !Truthy(Lookup(f.platformEarnings, UberEarningKey)) ==>
              UberCommissionStep(f, m) == m
    ensures k != UberCommissionKey ==> Lookup(UberCommissionStep(f, m), k) == Lookup(m, k)
  {
    if f.hasUberCommission && Truthy(Lookup(f.platformEarnings, UberEarningKey)) {
      PutLookupSame(m, UberCommissionKey, Num(UberFee));
      if k != UberCommissionKey {
        PutLookupOther(m, UberCommissionKey, Num(UberFee), k);
      }
    } else if !f.hasUberCommission {
      PutLookupSame(m, UberCommissionKey, Blank);
      if k != UberCommissionKey {
        PutLookupOther(m, UberCommissionKey, Blank, k);
      }
    }
  }

  /** The Yatri step writes only the Yatri commission: ten per trip, or what it was. */
  lemma YatriStepRule(f: Trip, m: Amounts, k: string)
    ensures f.yatriTrips.Num? && f.yatriTrips.value > 0.0 ==>
              Lookup(YatriCommissionStep(f, m), YatriCommissionKey) == Num(f.yatriTrips.value * 10.0)
    ensures !(f.yatriTrips.Num? && f.yatriTrips.value > 0.0) ==> YatriCommissionStep(f, m) == m
    ensures k != YatriCommissionKey ==> Lookup(YatriCommissionStep(f, m), k) == Lookup(m, k)
  {
    if f.yatriTrips.Num? && f.yatriTrips.value > 0.0 {
      var v := Num(f.yatriTrips.value * YatriFeePerTrip);
      PutLookupSame(m, YatriCommissionKey, v);
      if k != YatriCommissionKey {
        PutLookupOther(m, YatriCommissionKey, v, k);
      }
    }
  }

  /**
   * The Uber commission is 117 when its flag is on and an Uber earning is
   * entered, blank when the flag is off, and kept otherwise; the Yatri
   * commission is ten per trip for a positive trip count and kept otherwise;
   * every other commission key reads as before.
   */
  lemma EffectCommissionRule(f: Trip, b: Breakdown, k: string)
    ensures var m := EffectPass(f, b).commissions;
            && (f.hasUberCommission && Truthy(Lookup(f.platformEarnings, UberEarningKey)) ==> Lookup(m, UberCommissionKey) == Num(117.0))
            && (!f.hasUberCommission ==> Lookup(m, UberCommissionKey) == Blank)
            && (f.hasUberCommission && !Truthy(Lookup(f.platformEarnings, UberEarningKey)) ==>
                  Lookup(m, UberCommissionKey) == Lookup(f.commissions, UberCommissionKey))
            && (f.yatriTrips.Num? && f.yatriTrips.value > 0.0 ==> Lookup(m, YatriCommissionKey) == Num(f.yatriTrips.value * 10.0))
            && (!(f.yatriTrips.Num? && f.yatriTrips.value > 0.0) ==> Lookup(m, YatriCommissionKey) == Lookup(f.commissions, YatriCommissionKey))
            && (k != UberCommissionKey && k != YatriCommissionKey ==> Lookup(m, k) == Lookup(f.commissions, k))
  {
    var u := UberCommissionStep(f, f.commissions);
    assert EffectPass(f, b).commissions == YatriCommissionStep(f, u);
    UberStepRule(f, f.commissions, k);
    UberStepRule(f, f.commissions, YatriCommissionKey);
    YatriStepRule(f, u, k);
    YatriStepRule(f, u, UberCommissionKey);
  }

  /** The cash collected follows the earnings total whenever that total is positive. */
  lemma EffectTotalCashRule(f: Trip, b: Breakdown)
    ensures PlatformEarningsSum(f) > 0.0 ==> EffectPass(f, b).totalCashCollected == Num(PlatformEarningsSum(f))
    ensures PlatformEarningsSum(f) <= 0.0 ==> EffectPass(f, b).totalCashCollected == f.totalCashCollected
  {
  }

  /**
   * Once a cash total is entered, the cash in the driver's hand is a
   * non-negative amount with two decimals, within half a paisa of total cash
   * minus online payments minus the salary when taken, clamped at zero.
   */
  lemma EffectCashRule(f: Trip, b: Breakdown)
    ensures Truthy(f.totalCashCollected) ==>
              && EffectPass(f, b).cashInDriverHand.Num?
              && EffectPass(f, b).cashInDriverHand.value >= 0.0
              && TwoDecimals(EffectPass(f, b).cashInDriverHand.value)
              && -0.005 <= EffectPass(f, b).cashInDriverHand.value - Max0(HandCashBase(f, b.driverSalary)) <= 0.005
              && EffectPass(f, b).cashCollected == Num(Coerce(f.totalCashCollected))
    ensures !Truthy(f.totalCashCollected) ==>
              EffectPass(f, b).cashInDriverHand == f.cashInDriverHand && EffectPass(f, b).cashCollected == f.cashCollected
  {
    Round2Bounds(Max0(HandCashBase(f, b.driverSalary)));
  }

  /**
   * Unlike the primary calculation's own cash in hand, the form's figure
   * does not move when fuel or other expenses are entered.
   */
  lemma EffectCashIgnoresExpenses(f: Trip, fuel: seq<FuelEntry>, other: Raw)
    ensures var u := f.(fuelEntries := fuel, otherExpenses := other);
            EffectPass(u, CalculateTripEarnings(Primary, u)).cashInDriverHand
            == EffectPass(f, CalculateTripEarnings(Primary, f)).cashInDriverHand
  {
    PrimaryEarningsIgnoreExpenses(f, fuel, other);
  }

  /** Removing an entry just added restores the list; updating an index past the end changes nothing. */
  lemma FuelHandlersRoundTrip(es: seq<FuelEntry>, c: FuelChange)
    ensures WithFuelRemoved(WithFuelAdded(es), |es|) == es
    ensures WithFuelUpdated(es, |es|, c) == es
    ensures |WithFuelRemoved(es, 0)| == if es == [] then 0 else |es| - 1
  {
    assert WithFuelAdded(es)[..|es|] == es;
    assert WithFuelUpdated(es, |es|, c) == es;
  }

  /** An invalid form sends nothing; a valid one sends the trip first, and only a saved trip goes further. */
  lemma SubmitOrder(f: Trip, last: Option<Breakdown>, saved: bool)
    ensures !Accepted(f) ==> SubmitRequests(f, last, saved) == []
    ensures Accepted(f) ==> |SubmitRequests(f, last, saved)| >= 1 && SubmitRequests(f, last, saved)[0] == AddTrip(f.(calculations := last))
    ensures Accepted(f) && !saved ==> SubmitRequests(f, last, saved) == [AddTrip(f.(calculations := last))]
  {
  }

  /** The cashier transaction is sent exactly for a saved, valid trip with both cashier fields set. */
  lemma SubmitCashierRule(f: Trip, last: Option<Breakdown>, saved: bool)
    ensures (exists r :: r in SubmitRequests(f, last, saved) && r.AddCashierTransaction?)
            <==> Accepted(f) && saved && CashierStepApplies(f)
    ensures (exists r :: r in SubmitRequests(f, last, saved) && r.UpdateDriverSalary?)
            <==> Accepted(f) && saved && last.Some?
  {
    var rs := SubmitRequests(f, last, saved);
    if Accepted(f) && saved && CashierStepApplies(f) {
      assert rs[|rs| - 1].AddCashierTransaction?;
    }
    if Accepted(f) && saved && last.Some? {
      assert rs[1].UpdateDriverSalary?;
    }
  }

  /**
   * The live cash in hand is cash in hand minus the cashier amount, clamped
   * at zero, whether or not the cashier flag is set; it is zero once the
   * cashier takes all of it, and agrees with "Remaining with Driver".
   */
  lemma LiveCashRule(b: Breakdown, f: Trip)
    requires b.cashInHand >= 0.0
    ensures f.cashToCashier.Num? ==> LiveCashInHand(b.cashInHand, f) == Some(Round2(Max0(b.cashInHand - f.cashToCashier.value)))
    ensures f.cashToCashier.Num? && f.cashToCashier.value >= b.cashInHand ==> LiveCashInHand(b.cashInHand, f) == Some(0.0)
    ensures f.cashToCashier.Blank? ==> LiveCashInHand(b.cashInHand, f) == Some(Round2(b.cashInHand))
    ensures f.cashToCashier.Garbage? ==> LiveCashInHand(b.cashInHand, f).None?
    ensures RemainingWithDriver(Some(b), f).Some? ==> RemainingWithDriver(Some(b), f) == LiveCashInHand(b.cashInHand, f)
  {
    Round2Zero();
  }

  /** The form as first shown is refused: no driver, no distance and no earning. */
  lemma InitialFormRejected(today: string)
    ensures !Accepted(InitialForm(today))
    ensures Fails(InitialForm(today), DriverNameField) && Fails(InitialForm(today), TotalKmField)
    ensures Fails(InitialForm(today), EarningsField)
    ensures today != "" ==> !Fails(InitialForm(today), DateField)
  {
    assert Fails(InitialForm(today), DriverNameField);
  }

  // ----------------------------------------------------------------- class

  /** The form component's state; `requests` records the calls made to the sheet service. */
  class Form {
    var form: Trip
    var calculations: Option<Breakdown>
    var isSubmitting: bool
    var showSummary: bool
    var errors: map<ErrorField, string>
    var requests: seq<Request>

    constructor(today: string)
      ensures form == InitialForm(today) && calculations == None
      ensures !isSubmitting && !showSummary && errors == map[] && requests == []
    {
      form := InitialForm(today);
      calculations := None;
      isSubmitting := false;
      showSummary := false;
      errors := map[];
      requests := [];
    }

    /**
     * One run of the recalculation effect, as its sequence of updates: each
     * step reads its conditions from the form as it stood when the run began.
     */
    method Recalculate()
      modifies this
      ensures calculations == Some(CalculateTripEarnings(Primary, old(form)))
      ensures form == EffectPass(old(form), calculations.value)
      ensures isSubmitting == old(isSubmitting) && showSummary == old(showSummary)
      ensures errors == old(errors) && requests == old(requests)
    {
      var snapshot := form;
      DeriveKm(snapshot);
      DeriveUberCommission(snapshot);
      DeriveYatriCommission(snapshot);
      DeriveTotalCash(snapshot);
      var last := CalculateTripEarnings(Primary, snapshot);
      calculations := Some(last);
      WriteHandCash(snapshot, last.driverSalary);
    }

    /** The km step of the effect. */
    method DeriveKm(snapshot: Trip)
      modifies this`form
      ensures form == old(form).(totalKm := KmUpdate(snapshot).GetOr(old(form).totalKm))
    {
      if Truthy(snapshot.startKm) && Truthy(snapshot.endKm) {
        var start := ParseNumber(snapshot.startKm);
        var end := ParseNumber(snapshot.endKm);
        if start.Some? && end.Some? && end.value - start.value >= 0.0 {
          form := form.(totalKm := Num(end.value - start.value));
        }
      }
    }

    /** The Uber commission step of the effect. */
    method DeriveUberCommission(snapshot: Trip)
      modifies this`form
      ensures form == old(form).(commissions := UberCommissionStep(snapshot, old(form).commissions))
    {
      if snapshot.hasUberCommission && Truthy(Lookup(snapshot.platformEarnings, UberEarningKey)) {
        form := form.(commissions := Put(form.commissions, UberCommissionKey, Num(UberFee)));
      } else if !snapshot.hasUberCommission {
        form := form.(commissions := Put(form.commissions, UberCommissionKey, Blank));
      }
    }

    /** The Yatri commission step of the effect. */
    method DeriveYatriCommission(snapshot: Trip)
      modifies this`form
      ensures form == old(form).(commissions := YatriCommissionStep(snapshot, old(form).commissions))
    {
      var trips := ParseNumber(snapshot.yatriTrips);
      if Truthy(snapshot.yatriTrips) && trips.Some? && trips.value > 0.0 {
        form := form.(commissions := Put(form.commissions, YatriCommissionKey, Num(trips.value * YatriFeePerTrip)));
      }
    }

    /** The cash-total step of the effect. */
    method DeriveTotalCash(snapshot: Trip)
      modifies this`form
      ensures form == old(form).(totalCashCollected := TotalCashUpdate(snapshot).GetOr(old(form).totalCashCollected))
    {
      var earningsTotal := PlatformEarningsSum(snapshot);
      if earningsTotal > 0.0 {
        form := form.(totalCashCollected := Num(earningsTotal));
      }
    }

    /** The last step of the effect: cash in hand and cash collected follow the cash total. */
    method WriteHandCash(snapshot: Trip, salary: real)
      modifies this`form
      ensures form == WithHandCash(snapshot, old(form), salary)
    {
      if Truthy(snapshot.totalCashCollected) {
        var totalCash := Coerce(snapshot.totalCashCollected);
        var online := Coerce(snapshot.onlinePayments);
        var inHand := totalCash - online - (if snapshot.driverTookSalary then salary else 0.0);
        form := form.(cashInDriverHand := Num(Round2(Max0(inHand))), cashCollected := Num(totalCash));
      }
    }

    /** `addFuelEntry` */
    method AddFuelEntry()
      modifies this`form
      ensures form == old(form).(fuelEntries := WithFuelAdded(old(form).fuelEntries))
    {
      form := form.(fuelEntries := form.fuelEntries + [FuelEntry(Petrol, Blank)]);
    }

    /** `updateFuelEntry(index, field, value)` */
    method UpdateFuelEntry(index: int, c: FuelChange)
      modifies this`form
      ensures form == old(form).(fuelEntries := WithFuelUpdated(old(form).fuelEntries, index, c))
    {
      var updated := UpdateFuelLoop(form.fuelEntries, index, c);
      form := form.(fuelEntries := updated);
    }

    /** `removeFuelEntry(index)` */
    method RemoveFuelEntry(index: int)
      modifies this`form
      ensures form == old(form).(fuelEntries := WithFuelRemoved(old(form).fuelEntries, index))
    {
      var kept := RemoveFuelLoop(form.fuelEntries, index);
      form := form.(fuelEntries := kept);
    }

    /**
     * `handleSubmit`: an invalid form only records its errors. A valid one
     * sends the trip with the last breakdown; once it is saved, the salary
     * and cashier calls follow, their failures only warn, and the summary is
     * shown. The returned trip is what `onTripAdded` receives.
     */
    method HandleSubmit(saved: bool) returns (added: Option<Trip>)
      modifies this`errors, this`isSubmitting, this`showSummary, this`requests
      ensures requests == old(requests) + SubmitRequests(form, calculations, saved)
      ensures !Accepted(form) ==> (forall f :: f in errors <==> Fails(form, f))
      ensures !Accepted(form) ==> isSubmitting == old(isSubmitting) && showSummary == old(showSummary)
      ensures Accepted(form) ==> errors == old(errors) && !isSubmitting
      ensures Accepted(form) ==> showSummary == (saved || old(showSummary))
      ensures added == if Accepted(form) && saved then Some(form.(calculations := calculations)) else None
    {
      var f, last := form, calculations;
      var validation := ValidateTripData(f);
      if !validation.isValid {
        errors := validation.errors;
        added := None;
        return;
      }
      isSubmitting := true;
      var trip := f.(calculations := last);
      var sent := [AddTrip(trip)];
      added := None;
      if saved {
        if last.Some? {
          sent := sent + [UpdateDriverSalary(f.driverName, last.value.driverSalary, f.driverTookSalary)];
        }
        if f.cashGivenToCashier && Truthy(f.cashToCashier) {
          sent := sent + [AddCashierTransaction(f.date, f.driverName, ParseNumber(f.cashToCashier), "received", "Cash from trip")];
        }
        showSummary := true;
        added := Some(trip);
      }
      requests := requests + sent;
      isSubmitting := false;
    }

    /** `resetForm` */
    method ResetForm(today: string)
      modifies this`form, this`showSummary, this`errors, this`isSubmitting
      ensures form == InitialForm(today) && !showSummary && errors == map[] && !isSubmitting
    {
      form := InitialForm(today);
      showSummary := false;
      errors := map[];
      isSubmitting := false;
    }
  }
}
