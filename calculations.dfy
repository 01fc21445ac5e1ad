/**
 * The trip-money engine: per-trip breakdown, validation, the monthly salary
 * fold and the line structure of the shareable trip summary.
 *
 * The repository holds two versions of the engine that disagree on policy,
 * and both are kept, as `Policy`:
 *  - `Primary` (src/utils/calculations.js): every driver gets 35%; only
 *    commissions reduce the earnings the salary is computed on; fuel and
 *    other expenses are taken out of the cash the driver holds.
 *  - `Alternate` (calc-test.js): the percentage comes from that file's own
 *    driver table (35 when the name is not found); fuel and other expenses
 *    reduce the earnings, not the cash; an owner share is also reported.
 */
module Calculations {
  import opened Wrappers
  import opened Money
  import opened Dates
  import opened Trips
  import Drivers

  datatype Policy = Primary | Alternate

  const DefaultPercentage: int := 35

  /** The driver table that calc-test.js carries for its own lookup. */
  datatype TestDriver = TestDriver(id: int, name: string, salaryPercentage: int)

  const TestDriverTable: seq<TestDriver> := [
    TestDriver(1, "Vivek Bali", 30),
    TestDriver(2, "Ramesh Kumar", 35),
    TestDriver(3, "Suresh Singh", 35),
    TestDriver(4, "Mukesh Sharma", 35)
  ]

  /** `drivers.find(d => d.name === name)`, falling back to 35. */
  function FindPercentage(table: seq<TestDriver>, name: string): int {
    if table == [] then DefaultPercentage
    else if table[0].name == name then table[0].salaryPercentage
    else FindPercentage(table[1..], name)
  }

  /** `getDriverSalaryPercentage` of each version. */
  function DriverPercentage(p: Policy, name: string): int {
    match p
    case Primary => DefaultPercentage
    case Alternate => FindPercentage(TestDriverTable, name)
  }

  // ---------------------------------------------------------------- totals

  function PlatformEarningsSum(t: Trip): real {
    SumRaw(Values(t.platformEarnings))
  }

  function PlatformCashSum(t: Trip): real {
    SumRaw(Values(t.platformCash))
  }

  function CommissionsSum(t: Trip): real {
    SumRaw(Values(t.commissions))
  }

  function FuelAmounts(fs: seq<FuelEntry>): (r: seq<Raw>)
    ensures |r| == |fs|
    ensures forall i :: 0 <= i < |fs| ==> r[i] == fs[i].amount
  {
    if fs == [] then [] else [fs[0].amount] + FuelAmounts(fs[1..])
  }

  function FuelSum(t: Trip): real {
    SumRaw(FuelAmounts(t.fuelEntries))
  }

  /** `totalEarnings` before rounding. */
  function EarningsBase(p: Policy, t: Trip): real {
    match p
    case Primary => PlatformEarningsSum(t) - CommissionsSum(t)
    case Alternate => PlatformEarningsSum(t) - CommissionsSum(t) - Coerce(t.otherExpenses) - FuelSum(t)
  }

  /** `driverSalary` before rounding. */
  function SalaryBase(p: Policy, t: Trip): real {
    Share(EarningsBase(p, t), DriverPercentage(p, t.driverName))
  }

  /** `amount * (percentage / 100)` */
  function Share(amount: real, percentage: int): real {
    amount * (percentage as real / 100.0)
  }

  /** `ownerShare` before rounding (alternate version only). */
  function OwnerShareBase(t: Trip): real {
    Share(EarningsBase(Alternate, t), 100 - DriverPercentage(Alternate, t.driverName))
  }

  /** `calculatedTotalCash || parseFloat(totalCashCollected) || 0` */
  function TotalCash(t: Trip): real {
    if PlatformCashSum(t) != 0.0 then PlatformCashSum(t) else Coerce(t.totalCashCollected)
  }

  /** `cashInHand` before clamping and rounding. */
  function CashInHandBase(p: Policy, t: Trip): real {
    var salaryTaken := if t.driverTookSalary then SalaryBase(p, t) else 0.0;
    match p
    case Primary => TotalCash(t) - Coerce(t.onlinePayments) - (FuelSum(t) + Coerce(t.otherExpenses)) - salaryTaken
    case Alternate => TotalCash(t) - Coerce(t.onlinePayments) - salaryTaken
  }

  /**
   * `calculateTripEarnings`: cash-in-hand is never negative, the salary is
   * within half a paisa of its share of the earnings, and only the alternate
   * version reports the owner's split.
   */
  function CalculateTripEarnings(p: Policy, t: Trip): (b: Breakdown)
    ensures b.cashInHand >= 0.0
    ensures -0.005 <= b.driverSalary - SalaryBase(p, t) <= 0.005
    ensures b.owner.Some? <==> p == Alternate
  {
    var pct := DriverPercentage(p, t.driverName);
    Round2Bounds(SalaryBase(p, t));
    Round2Bounds(Max0(CashInHandBase(p, t)));
    Breakdown(
      Round2(PlatformEarningsSum(t)),
      Round2(TotalCash(t)),
      Round2(CommissionsSum(t)),
      Round2(FuelSum(t)),
      Round2(EarningsBase(p, t)),
      Round2(SalaryBase(p, t)),
      Round2(Max0(CashInHandBase(p, t))),
      pct,
      if p == Alternate then Some(OwnerSplit(Round2(OwnerShareBase(t)), 100 - pct)) else None)
  }

  // ------------------------------------------------------ breakdown lemmas

  /** Every amount of the breakdown is a whole number of paise. */
  lemma BreakdownInPaise(p: Policy, t: Trip)
    ensures var b := CalculateTripEarnings(p, t);
            && TwoDecimals(b.totalPlatformEarnings) && TwoDecimals(b.totalCashCollected)
            && TwoDecimals(b.totalCommissions) && TwoDecimals(b.totalFuelExpenses)
            && TwoDecimals(b.totalEarnings) && TwoDecimals(b.driverSalary) && TwoDecimals(b.cashInHand)
            && (b.owner.Some? ==> TwoDecimals(b.owner.value.ownerShare))
  {
    Round2Bounds(PlatformEarningsSum(t));
    Round2Bounds(TotalCash(t));
    Round2Bounds(CommissionsSum(t));
    Round2Bounds(FuelSum(t));
    Round2Bounds(EarningsBase(p, t));
    Round2Bounds(SalaryBase(p, t));
    Round2Bounds(Max0(CashInHandBase(p, t)));
    Round2Bounds(OwnerShareBase(t));
  }

  /**
   * With no parsable earning, commission or fuel amount (and, for the
   * alternate version, no parsable other expenses), every total and the
   * salary are 0.
   */
  lemma EmptyTripIsZero(p: Policy, t: Trip)
    requires forall e :: e in t.platformEarnings ==> !e.amount.Num?
    requires forall e :: e in t.commissions ==> !e.amount.Num?
    requires forall f :: f in t.fuelEntries ==> !f.amount.Num?
    requires p == Alternate ==> !t.otherExpenses.Num?
    ensures CalculateTripEarnings(p, t).totalPlatformEarnings == 0.0
    ensures CalculateTripEarnings(p, t).totalCommissions == 0.0
    ensures CalculateTripEarnings(p, t).totalFuelExpenses == 0.0
    ensures CalculateTripEarnings(p, t).totalEarnings == 0.0
    ensures CalculateTripEarnings(p, t).driverSalary == 0.0
  {
    var ve, vc, vf := Values(t.platformEarnings), Values(t.commissions), FuelAmounts(t.fuelEntries);
    assert forall i :: 0 <= i < |ve| ==> t.platformEarnings[i] in t.platformEarnings;
    assert forall i :: 0 <= i < |vc| ==> t.commissions[i] in t.commissions;
    assert forall i :: 0 <= i < |vf| ==> t.fuelEntries[i] in t.fuelEntries;
    SumRawNoNumbers(ve);
    SumRawNoNumbers(vc);
    SumRawNoNumbers(vf);
    assert EarningsBase(p, t) == 0.0;
    assert SalaryBase(p, t) == 0.0 * (DriverPercentage(p, t.driverName) as real / 100.0) == 0.0;
    Round2Zero();
  }

  /**
   * Primary policy: the earnings are the platform total less the commissions,
   * and neither fuel nor other expenses change them or the salary.
   */
  lemma PrimaryEarningsIgnoreExpenses(t: Trip, fuel: seq<FuelEntry>, other: Raw)
    ensures CalculateTripEarnings(Primary, t).totalEarnings == Round2(PlatformEarningsSum(t) - CommissionsSum(t))
    ensures CalculateTripEarnings(Primary, t.(fuelEntries := fuel, otherExpenses := other)).totalEarnings
         == CalculateTripEarnings(Primary, t).totalEarnings
    ensures CalculateTripEarnings(Primary, t.(fuelEntries := fuel, otherExpenses := other)).driverSalary
         == CalculateTripEarnings(Primary, t).driverSalary
  {
    var u := t.(fuelEntries := fuel, otherExpenses := other);
    assert EarningsBase(Primary, u) == EarningsBase(Primary, t);
    assert SalaryBase(Primary, u) == SalaryBase(Primary, t);
  }

  /** Alternate policy: fuel and other expenses come off the earnings, and the two policies differ by exactly that. */
  lemma AlternateEarningsNetExpenses(t: Trip)
    ensures CalculateTripEarnings(Alternate, t).totalEarnings
         == Round2(PlatformEarningsSum(t) - CommissionsSum(t) - Coerce(t.otherExpenses) - FuelSum(t))
    ensures EarningsBase(Primary, t) - EarningsBase(Alternate, t) == FuelSum(t) + Coerce(t.otherExpenses)
  {
  }

  /** The primary version pays 35% to everyone, whatever the name. */
  lemma PrimaryPercentageConstant(t: Trip)
    ensures CalculateTripEarnings(Primary, t).driverPercentage == 35
    ensures CalculateTripEarnings(Primary, t).driverSalary == Round2(EarningsBase(Primary, t) * 0.35)
  {
  }

  /** The alternate lookup: an exact name match gives the table value, any other name 35. */
  lemma AlternatePercentageLookup(name: string)
    ensures name == "Vivek Bali" ==> DriverPercentage(Alternate, name) == 30
    ensures (forall d :: d in TestDriverTable ==> d.name != name) ==> DriverPercentage(Alternate, name) == 35
    ensures 0 <= DriverPercentage(Alternate, name) <= 100
  {
    var tbl := TestDriverTable;
    assert tbl[1..][1..][1..][1..] == [];
    assert FindPercentage(tbl, name) == FindPercentage(tbl[1..], name)
        || FindPercentage(tbl, name) == tbl[0].salaryPercentage;
    if forall d :: d in tbl ==> d.name != name {
      assert tbl[0] in tbl && tbl[1] in tbl && tbl[2] in tbl && tbl[3] in tbl;
      calc {
        FindPercentage(tbl, name);
        FindPercentage(tbl[1..], name);
        FindPercentage(tbl[1..][1..], name);
        FindPercentage(tbl[1..][1..][1..], name);
        FindPercentage(tbl[1..][1..][1..][1..], name);
        DefaultPercentage;
      }
    }
  }

  /**
   * The alternate table and the registry in src/data/drivers.js agree for every
   * registered driver (through the fallback for the three names the test
   * table does not list), while the primary version gives Vivek Bali 35, not
   * the registry's 30.
   */
  lemma PoliciesAgainstRegistry()
    ensures forall d :: d in Drivers.DriverTable ==> DriverPercentage(Alternate, d.name) == d.salaryPercentage
    ensures DriverPercentage(Primary, "Vivek Bali") != Drivers.DriverTable[0].salaryPercentage
  {
    forall d | d in Drivers.DriverTable
      ensures DriverPercentage(Alternate, d.name) == d.salaryPercentage
    {
      if d.name != "Vivek Bali" {
        AlternatePercentageLookup(d.name);
      }
    }
  }

  /** A salary is negative whenever commissions exceed the platform earnings, and it is not clamped. */
  lemma SalaryNegativeWhenCommissionsExceed(p: Policy, t: Trip)
    requires CommissionsSum(t) > PlatformEarningsSum(t)
    requires p == Alternate ==> Coerce(t.otherExpenses) + FuelSum(t) >= 0.0
    ensures SalaryBase(p, t) <= 0.0
    ensures CalculateTripEarnings(p, t).driverSalary <= 0.0
    ensures CalculateTripEarnings(p, t).totalEarnings <= 0.0
  {
    BasesNegative(p, t);
    Round2Bounds(EarningsBase(p, t));
    Round2Bounds(SalaryBase(p, t));
  }

  lemma BasesNegative(p: Policy, t: Trip)
    requires CommissionsSum(t) > PlatformEarningsSum(t)
    requires p == Alternate ==> Coerce(t.otherExpenses) + FuelSum(t) >= 0.0
    ensures EarningsBase(p, t) < 0.0
    ensures SalaryBase(p, t) <= 0.0
  {
    AlternatePercentageLookup(t.driverName);
    NegativeShare(EarningsBase(p, t), DriverPercentage(p, t.driverName));
  }

  /** A non-negative percentage of a loss is not a gain. */
  lemma NegativeShare(e: real, pct: int)
    requires e <= 0.0 && pct >= 0
    ensures Share(e, pct) <= 0.0
  {
    var r := pct as real / 100.0;
    assert r >= 0.0;
    assert e * r <= 0.0;
  }

  /** The cash total: the per-platform cash if it is not zero, else the typed total, else 0. */
  lemma CashFallbackChain(p: Policy, t: Trip)
    ensures PlatformCashSum(t) != 0.0 ==> CalculateTripEarnings(p, t).totalCashCollected == Round2(PlatformCashSum(t))
    ensures PlatformCashSum(t) == 0.0 ==> CalculateTripEarnings(p, t).totalCashCollected == Round2(Coerce(t.totalCashCollected))
    ensures PlatformCashSum(t) == 0.0 && !t.totalCashCollected.Num? ==> CalculateTripEarnings(p, t).totalCashCollected == 0.0
  {
  }

  /** Before rounding, the alternate version splits the earnings exactly between driver and owner. */
  lemma AlternateOwnerSplit(t: Trip)
    ensures SalaryBase(Alternate, t) + OwnerShareBase(t) == EarningsBase(Alternate, t)
    ensures CalculateTripEarnings(Alternate, t).owner.value.ownerPercentage
         == 100 - CalculateTripEarnings(Alternate, t).driverPercentage
  {
    ShareSplit(EarningsBase(Alternate, t), DriverPercentage(Alternate, t.driverName));
  }

  /** A percentage and its complement share an amount out exactly. */
  lemma ShareSplit(e: real, pct: int)
    ensures Share(e, pct) + Share(e, 100 - pct) == e
  {
    var r := pct as real / 100.0;
    assert (100 - pct) as real / 100.0 == 1.0 - r;
    assert e * r + e * (1.0 - r) == e * (r + (1.0 - r));
  }

  /**
   * Each version's cash in hand: what was collected, less online payments,
   * less the salary when the driver took it; the primary version also takes
   * off fuel and other expenses. A shortfall shows as 0.
   */
  lemma CashInHandRule(p: Policy, t: Trip)
    ensures var salary := if t.driverTookSalary then SalaryBase(p, t) else 0.0;
            var expenses := if p == Primary then FuelSum(t) + Coerce(t.otherExpenses) else 0.0;
            CalculateTripEarnings(p, t).cashInHand
              == Round2(Max0(TotalCash(t) - Coerce(t.onlinePayments) - expenses - salary))
    ensures TotalCash(t) - Coerce(t.onlinePayments) <= 0.0 && SalaryBase(p, t) >= 0.0
            && (p == Primary ==> FuelSum(t) + Coerce(t.otherExpenses) >= 0.0)
            ==> CalculateTripEarnings(p, t).cashInHand == 0.0
  {
  }

  /** Taking a non-negative salary out of the cash never leaves the driver with more cash. */
  lemma TakingSalaryLowersCash(p: Policy, t: Trip)
    requires SalaryBase(p, t) >= 0.0
    ensures CalculateTripEarnings(p, t.(driverTookSalary := true)).cashInHand
         <= CalculateTripEarnings(p, t.(driverTookSalary := false)).cashInHand
  {
    var taken, kept := t.(driverTookSalary := true), t.(driverTookSalary := false);
    assert SalaryBase(p, taken) == SalaryBase(p, t) == SalaryBase(p, kept);
    assert CashInHandBase(p, taken) <= CashInHandBase(p, kept);
    Round2Monotone(Max0(CashInHandBase(p, taken)), Max0(CashInHandBase(p, kept)));
  }

  /** Without fuel or other expenses, and for a 35% driver, the two versions agree field by field. */
  lemma PoliciesAgreeWithoutExpenses(t: Trip)
    requires FuelSum(t) == 0.0 && Coerce(t.otherExpenses) == 0.0
    requires DriverPercentage(Alternate, t.driverName) == 35
    ensures CalculateTripEarnings(Alternate, t) == CalculateTripEarnings(Primary, t).(owner := CalculateTripEarnings(Alternate, t).owner)
  {
    assert EarningsBase(Alternate, t) == EarningsBase(Primary, t);
    assert SalaryBase(Alternate, t) == SalaryBase(Primary, t);
    assert CashInHandBase(Alternate, t) == CashInHandBase(Primary, t);
  }

  /** A trip with only the given earning and commission maps, a typed cash total and an online amount. */
  function SimpleTrip(earnings: Amounts, commissions: Amounts, cash: real, online: real, took: bool): Trip {
    Trip("2024-05-01", "Driver", Blank, Blank, Num(50.0), earnings, [], commissions, true, Blank, [],
         Num(online), Blank, Blank, took, false, Num(cash), Blank, Blank, None)
  }

  /**
   * Uber 1000, the fixed commission 117, cash 1000 and 200 paid online: the
   * earnings are 883.00 and the salary 309.05; the driver holds 490.95 after
   * taking the salary, and 800.00 when the salary is left pending.
   */
  lemma WorkedExample()
    ensures var t := SimpleTrip([Entry("uber", Num(1000.0))], [Entry("uber_commission", Num(117.0))], 1000.0, 200.0, true);
            var b := CalculateTripEarnings(Primary, t);
            b.totalEarnings == 883.0 && b.driverSalary == 309.05 && b.cashInHand == 490.95
    ensures CalculateTripEarnings(Primary, SimpleTrip([Entry("uber", Num(1000.0))], [Entry("uber_commission", Num(117.0))], 1000.0, 200.0, false)).cashInHand == 800.0
  {
    var t := SimpleTrip([Entry("uber", Num(1000.0))], [Entry("uber_commission", Num(117.0))], 1000.0, 200.0, true);
    assert Values(t.platformEarnings) == [Num(1000.0)];
    assert Values(t.commissions) == [Num(117.0)];
    assert Values(t.platformCash) == [];
    assert FuelAmounts(t.fuelEntries) == [];
    assert SumRaw([Num(1000.0)]) == 1000.0;
    assert SumRaw([Num(117.0)]) == 117.0;
    assert EarningsBase(Primary, t) == 883.0;
    assert SalaryBase(Primary, t) == 309.05;
    FloorOfWhole(88300);
    FloorOfWhole(30905);
    FloorOfWhole(49095);
    FloorOfWhole(80000);
    assert RoundCents(883.0) == 88300;
    assert RoundCents(309.05) == 30905;
    assert CashInHandBase(Primary, t) == 490.95;
    assert RoundCents(490.95) == 49095;
    var u := t.(driverTookSalary := false);
    assert CashInHandBase(Primary, u) == 800.0;
    assert RoundCents(800.0) == 80000;
  }

  // ------------------------------------------------------------ validation

  datatype ErrorField = DateField | DriverNameField | TotalKmField | EarningsField
  datatype Validation = Validation(isValid: bool, errors: map<ErrorField, string>)

  /** `!totalKm || totalKm <= 0`: unparsable text is truthy and `NaN <= 0` is false, so it passes. */
  predicate KmInvalid(r: Raw) {
    match r
    case Blank => true
    case Num(x) => x <= 0.0
    case Garbage(_) => false
  }

  /** `Object.values(platformEarnings).some(e => parseFloat(e) > 0)` */
  predicate HasEarnings(m: Amounts) {
    exists i :: 0 <= i < |m| && Coerce(m[i].amount) > 0.0
  }

  /** The rule a field breaks, one per error the validation can record. */
  predicate Fails(t: Trip, f: ErrorField) {
    match f
    case DateField => t.date == ""
    case DriverNameField => t.driverName == ""
    case TotalKmField => KmInvalid(t.totalKm)
    case EarningsField => !HasEarnings(t.platformEarnings)
  }

  /** A form that breaks none of the rules. */
  predicate Accepted(t: Trip) {
    forall f :: !Fails(t, f)
  }

  /** An error map with one entry per broken rule is empty exactly when the form is accepted. */
  lemma ErrorsFollowRules(t: Trip, errors: map<ErrorField, string>)
    requires DateField in errors <==> t.date == ""
    requires DriverNameField in errors <==> t.driverName == ""
    requires TotalKmField in errors <==> KmInvalid(t.totalKm)
    requires EarningsField in errors <==> !HasEarnings(t.platformEarnings)
    ensures forall f :: f in errors <==> Fails(t, f)
    ensures |errors| == 0 <==> Accepted(t)
  {
    forall f ensures f in errors <==> Fails(t, f) {
      match f
      case DateField =>
      case DriverNameField =>
      case TotalKmField =>
      case EarningsField =>
    }
    if Accepted(t) {
      assert errors.Keys == {};
    } else {
      var f :| Fails(t, f);
      assert f in errors;
    }
  }

  /**
   * `validateTripData` (the same in both versions): the four rules are
   * checked independently and every failure is recorded; the trip is valid
   * exactly when no error was recorded.
   */
  method ValidateTripData(t: Trip) returns (v: Validation)
    ensures DateField in v.errors <==> t.date == ""
    ensures DriverNameField in v.errors <==> t.driverName == ""
    ensures TotalKmField in v.errors <==> KmInvalid(t.totalKm)
    ensures EarningsField in v.errors <==> !HasEarnings(t.platformEarnings)
    ensures DateField in v.errors ==> v.errors[DateField] == "Date is required"
    ensures DriverNameField in v.errors ==> v.errors[DriverNameField] == "Driver name is required"
    ensures TotalKmField in v.errors ==> v.errors[TotalKmField] == "Total kilometers must be greater than 0"
    ensures EarningsField in v.errors ==> v.errors[EarningsField] == "At least one platform earning is required"
    ensures v.isValid <==> |v.errors| == 0
    ensures forall f :: f in v.errors <==> Fails(t, f)
    ensures v.isValid <==> Accepted(t)
  {
    var errors: map<ErrorField, string> := map[];
    if t.date == "" {
      errors := errors[DateField := "Date is required"];
    }
    if t.driverName == "" {
      errors := errors[DriverNameField := "Driver name is required"];
    }
    if KmInvalid(t.totalKm) {
      errors := errors[TotalKmField := "Total kilometers must be greater than 0"];
    }
    if !HasEarnings(t.platformEarnings) {
      errors := errors[EarningsField := "At least one platform earning is required"];
    }
    ErrorsFollowRules(t, errors);
    v := Validation(|errors| == 0, errors);
  }

  // --------------------------------------------------------- monthly fold

  datatype MonthlySummary = MonthlySummary(
    totalEarningsThisMonth: real,
    totalSalaryEarned: real,
    totalSalaryPaid: real,
    salaryRemaining: real,
    tripsCount: nat)

  /** `new Date(trip.date)` falls in the given month and year; an invalid date never does. */
  predicate InMonth(date: string, ym: YearMonth) {
    var d := ParseIsoDate(date);
    d.Some? && d.value.year == ym.year && d.value.month == ym.month
  }

  function MonthlyTrips(trips: seq<Trip>, ym: YearMonth): (r: seq<Trip>)
    ensures |r| <= |trips|
  {
    if trips == [] then []
    else MonthlyTrips(trips[..|trips| - 1], ym)
         + (if InMonth(trips[|trips| - 1].date, ym) then [trips[|trips| - 1]] else [])
  }

  function EarnedSum(p: Policy, ts: seq<Trip>): real {
    if ts == [] then 0.0 else EarnedSum(p, ts[..|ts| - 1]) + CalculateTripEarnings(p, ts[|ts| - 1]).totalEarnings
  }

  function SalarySum(p: Policy, ts: seq<Trip>): real {
    if ts == [] then 0.0 else SalarySum(p, ts[..|ts| - 1]) + CalculateTripEarnings(p, ts[|ts| - 1]).driverSalary
  }

  function PaidSum(p: Policy, ts: seq<Trip>): real {
    if ts == [] then 0.0
    else PaidSum(p, ts[..|ts| - 1])
         + (if ts[|ts| - 1].driverTookSalary then CalculateTripEarnings(p, ts[|ts| - 1]).driverSalary else 0.0)
  }

  /** The salaries of the trips where the driver did not take the salary. */
  function UnpaidSum(p: Policy, ts: seq<Trip>): real {
    if ts == [] then 0.0
    else UnpaidSum(p, ts[..|ts| - 1])
         + (if ts[|ts| - 1].driverTookSalary then 0.0 else CalculateTripEarnings(p, ts[|ts| - 1]).driverSalary)
  }

  /** The returned record: each total rounded, the remaining salary taken before rounding. */
  function Summarize(earned: real, salary: real, paid: real, count: nat): MonthlySummary {
    MonthlySummary(Round2(earned), Round2(salary), Round2(paid), Round2(salary - paid), count)
  }

  /** What `calculateMonthlySalarySummary` returns, as sums over the trips of the month. */
  function MonthlySummaryOf(p: Policy, trips: seq<Trip>, current: YearMonth): MonthlySummary {
    var mt := MonthlyTrips(trips, current);
    Summarize(EarnedSum(p, mt), SalarySum(p, mt), PaidSum(p, mt), |mt|)
  }

  /** The `forEach` over the month's trips: three running totals, left to right. */
  method FoldMonth(p: Policy, monthly: seq<Trip>) returns (earned: real, salary: real, paid: real)
    ensures earned == EarnedSum(p, monthly)
    ensures salary == SalarySum(p, monthly)
    ensures paid == PaidSum(p, monthly)
  {
    earned, salary, paid := 0.0, 0.0, 0.0;
    var i := 0;
    while i < |monthly|
      invariant 0 <= i <= |monthly|
      invariant earned == EarnedSum(p, monthly[..i])
      invariant salary == SalarySum(p, monthly[..i])
      invariant paid == PaidSum(p, monthly[..i])
    {
      var c := CalculateTripEarnings(p, monthly[i]);
      FoldStep(p, monthly, i);
      earned := earned + c.totalEarnings;
      salary := salary + c.driverSalary;
      if monthly[i].driverTookSalary {
        paid := paid + c.driverSalary;
      }
      i := i + 1;
    }
    assert monthly[..i] == monthly;
  }

  /**
   * `calculateMonthlySalarySummary(driverName, trips)`: `driverName` is not
   * used; the trips of the current month are folded into three running
   * totals, rounded once at the end.
   */
  method CalculateMonthlySalarySummary(p: Policy, driverName: string, trips: seq<Trip>, current: YearMonth)
    returns (s: MonthlySummary)
    ensures s == MonthlySummaryOf(p, trips, current)
  {
    var monthly := MonthlyTrips(trips, current);
    var earned, salary, paid := FoldMonth(p, monthly);
    s := Summarize(earned, salary, paid, |monthly|);
  }

  /** One step of the fold: the totals over one more trip add that trip's rounded amounts. */
  lemma FoldStep(p: Policy, ts: seq<Trip>, i: int)
    requires 0 <= i < |ts|
    ensures EarnedSum(p, ts[..i + 1]) == EarnedSum(p, ts[..i]) + CalculateTripEarnings(p, ts[i]).totalEarnings
    ensures SalarySum(p, ts[..i + 1]) == SalarySum(p, ts[..i]) + CalculateTripEarnings(p, ts[i]).driverSalary
    ensures PaidSum(p, ts[..i + 1])
         == PaidSum(p, ts[..i]) + (if ts[i].driverTookSalary then CalculateTripEarnings(p, ts[i]).driverSalary else 0.0)
  {
    assert ts[..i + 1][..i] == ts[..i];
  }

  /** The month filter keeps exactly the trips dated in that month. */
  lemma {:induction false} MonthlyTripsMembers(trips: seq<Trip>, ym: YearMonth)
    ensures forall t :: t in MonthlyTrips(trips, ym) <==> t in trips && InMonth(t.date, ym)
    decreases |trips|
  {
    if trips != [] {
      MonthlyTripsMembers(trips[..|trips| - 1], ym);
      assert trips == trips[..|trips| - 1] + [trips[|trips| - 1]];
    }
  }

  /** Filtering by month distributes over concatenation. */
  lemma {:induction false} MonthlyTripsAppend(a: seq<Trip>, b: seq<Trip>, ym: YearMonth)
    ensures MonthlyTrips(a + b, ym) == MonthlyTrips(a, ym) + MonthlyTrips(b, ym)
    decreases |b|
  {
    if b == [] {
      assert a + b == a;
    } else {
      assert (a + b)[..|a + b| - 1] == a + b[..|b| - 1];
      MonthlyTripsAppend(a, b[..|b| - 1], ym);
    }
  }

  /** The three running totals are additive: the fold of a concatenation is the sum of the folds. */
  lemma {:induction false} MonthlySumsAppend(p: Policy, a: seq<Trip>, b: seq<Trip>)
    ensures EarnedSum(p, a + b) == EarnedSum(p, a) + EarnedSum(p, b)
    ensures SalarySum(p, a + b) == SalarySum(p, a) + SalarySum(p, b)
    ensures PaidSum(p, a + b) == PaidSum(p, a) + PaidSum(p, b)
    decreases |b|
  {
    if b == [] {
      assert a + b == a;
    } else {
      assert (a + b)[..|a + b| - 1] == a + b[..|b| - 1];
      MonthlySumsAppend(p, a, b[..|b| - 1]);
    }
  }

  /** Salary still owed is the salary of the trips where it was not taken; it is not clamped at 0. */
  lemma {:induction false} RemainingIsUnpaid(p: Policy, ts: seq<Trip>)
    ensures SalarySum(p, ts) - PaidSum(p, ts) == UnpaidSum(p, ts)
    decreases |ts|
  {
    if ts != [] {
      RemainingIsUnpaid(p, ts[..|ts| - 1]);
    }
  }

  /** The remaining salary reported is the rounded salary of the month's trips where it was not taken. */
  lemma SummaryRemainingIsUnpaid(p: Policy, trips: seq<Trip>, current: YearMonth)
    ensures MonthlySummaryOf(p, trips, current).salaryRemaining == Round2(UnpaidSum(p, MonthlyTrips(trips, current)))
    ensures MonthlySummaryOf(p, trips, current).tripsCount == |MonthlyTrips(trips, current)|
  {
    var mt := MonthlyTrips(trips, current);
    RemainingIsUnpaid(p, mt);
    assert MonthlySummaryOf(p, trips, current) == Summarize(EarnedSum(p, mt), SalarySum(p, mt), PaidSum(p, mt), |mt|);
  }

  /** If no trip of the month had its salary taken, nothing is paid and everything earned remains. */
  lemma {:induction false} NothingTakenNothingPaid(p: Policy, ts: seq<Trip>)
    requires forall t :: t in ts ==> !t.driverTookSalary
    ensures PaidSum(p, ts) == 0.0
    decreases |ts|
  {
    if ts != [] {
      assert forall t :: t in ts[..|ts| - 1] ==> t in ts;
      NothingTakenNothingPaid(p, ts[..|ts| - 1]);
    }
  }

  /** Trips outside the current month change nothing in the summary. */
  lemma OtherMonthsIgnored(p: Policy, trips: seq<Trip>, others: seq<Trip>, current: YearMonth)
    requires forall t :: t in others ==> !InMonth(t.date, current)
    ensures MonthlySummaryOf(p, trips + others, current) == MonthlySummaryOf(p, trips, current)
  {
    MonthlyTripsAppend(trips, others, current);
    MonthlyTripsNone(others, current);
    assert MonthlyTrips(trips + others, current) == MonthlyTrips(trips, current) + [] == MonthlyTrips(trips, current);
  }

  /** No trip of the month, no monthly trips. */
  lemma {:induction false} MonthlyTripsNone(ts: seq<Trip>, ym: YearMonth)
    requires forall t :: t in ts ==> !InMonth(t.date, ym)
    ensures MonthlyTrips(ts, ym) == []
    decreases |ts|
  {
    if ts != [] {
      assert ts[|ts| - 1] in ts;
      assert forall t :: t in ts[..|ts| - 1] ==> t in ts;
      MonthlyTripsNone(ts[..|ts| - 1], ym);
    }
  }

  // ------------------------------------------------------------ summary

  /** The lines of the shareable trip summary; their exact emoji text is not modelled. */
  datatype SummaryLine =
    | Title(date: string)
    | DriverLine(name: string)
    | KmLine(totalKm: Raw, startKm: Raw, endKm: Raw)
    | EarningsLine(totalEarnings: real)
    | PlatformHeader
    | PlatformLine(platformName: string, amount: real)
    | CashSplit(online: Raw, totalCash: real)
    | FuelHeader
    | FuelLine(fuelType: FuelType, fuelAmount: Raw)
    | FuelTotal(total: real)
    | CommissionLine(uber: bool, yatriTrips: Option<real>)
    | OtherExpensesLine(amount: real)
    | DriverPay(percentage: int, salary: real, paid: bool)
    | CashInHandLine(amount: real)
    | CashierLine(typed: Raw)   // printed as `parseFloat(x).toFixed(2)`: "NaN" for text that does not parse
    | Footer

  function UpperAscii(c: char): char {
    if 'a' <= c <= 'z' then (c as int - 32) as char else c
  }

  /** `platform.charAt(0).toUpperCase() + platform.slice(1)` for ASCII keys. */
  function Capitalize(k: string): string {
    if k == "" then "" else [UpperAscii(k[0])] + k[1..]
  }

  /** One line per platform whose amount is greater than 0, in the object's order. */
  function PlatformLines(m: Amounts): (r: seq<SummaryLine>)
    ensures forall l :: l in r ==> l.PlatformLine? && l.amount > 0.0
  {
    if m == [] then []
    else PlatformLines(m[..|m| - 1])
         + (var e := m[|m| - 1]; if Coerce(e.amount) > 0.0 then [PlatformLine(Capitalize(e.key), Coerce(e.amount))] else [])
  }

  function FuelLines(fs: seq<FuelEntry>): (r: seq<SummaryLine>)
    ensures |r| == |fs|
    ensures forall l :: l in r ==> l.FuelLine?
  {
    if fs == [] then [] else FuelLines(fs[..|fs| - 1]) + [FuelLine(fs[|fs| - 1].fuelType, fs[|fs| - 1].amount)]
  }

  function YatriPart(t: Trip): Option<real> {
    if Truthy(t.yatriTrips) && Coerce(t.yatriTrips) > 0.0 then Some(Coerce(t.yatriTrips)) else None
  }

  /** The lines after the fuel block: commissions, other expenses, pay, cash, cashier, footer. */
  function TailLines(t: Trip, b: Breakdown): seq<SummaryLine> {
    (if b.totalCommissions > 0.0 then [CommissionLine(t.hasUberCommission, YatriPart(t))] else [])
    + (if Coerce(t.otherExpenses) > 0.0 then [OtherExpensesLine(Coerce(t.otherExpenses))] else [])
    + [DriverPay(b.driverPercentage, b.driverSalary, t.driverTookSalary), CashInHandLine(b.cashInHand)]
    + (if t.cashGivenToCashier && Truthy(t.cashToCashier) then [CashierLine(t.cashToCashier)] else [])
    + [Footer]
  }

  function HeadLines(t: Trip, b: Breakdown): seq<SummaryLine> {
    [Title(t.date), DriverLine(t.driverName), KmLine(t.totalKm, t.startKm, t.endKm), EarningsLine(b.totalEarnings), PlatformHeader]
  }

  function FuelBlock(t: Trip, b: Breakdown): seq<SummaryLine> {
    if |t.fuelEntries| > 0 then [FuelHeader] + FuelLines(t.fuelEntries) + [FuelTotal(b.totalFuelExpenses)] else []
  }

  /** The summary `generateWhatsAppSummary` builds, line by line, from a trip and its breakdown. */
  function SummaryLines(t: Trip, b: Breakdown): seq<SummaryLine> {
    HeadLines(t, b) + PlatformLines(t.platformEarnings) + [CashSplit(t.onlinePayments, b.totalCashCollected)]
    + FuelBlock(t, b) + TailLines(t, b)
  }

  /** `generateWhatsAppSummary`: the trip's breakdown is computed, then the text is written. */
  method GenerateSummary(p: Policy, t: Trip) returns (lines: seq<SummaryLine>)
    ensures lines == SummaryLines(t, CalculateTripEarnings(p, t))
  {
    var b := CalculateTripEarnings(p, t);
    lines := WriteSummary(t, b);
  }

  /** The text is appended to step by step: head, platforms, cash, fuel block, tail. */
  method WriteSummary(t: Trip, b: Breakdown) returns (lines: seq<SummaryLine>)
    ensures lines == SummaryLines(t, b)
  {
    lines := HeadLines(t, b);
    lines := AppendPlatformLines(lines, t.platformEarnings);
    lines := lines + [CashSplit(t.onlinePayments, b.totalCashCollected)];
    if |t.fuelEntries| > 0 {
      lines := AppendFuelLines(lines + [FuelHeader], t.fuelEntries);
      lines := lines + [FuelTotal(b.totalFuelExpenses)];
    }
    lines := lines + TailLines(t, b);
  }

  /** The `Object.entries(...).forEach` over the platforms, skipping amounts that are not above 0. */
  method AppendPlatformLines(acc: seq<SummaryLine>, m: Amounts) returns (lines: seq<SummaryLine>)
    ensures lines == acc + PlatformLines(m)
  {
    lines := acc;
    var i := 0;
    while i < |m|
      invariant 0 <= i <= |m|
      invariant lines == acc + PlatformLines(m[..i])
    {
      if Coerce(m[i].amount) > 0.0 {
        lines := lines + [PlatformLine(Capitalize(m[i].key), Coerce(m[i].amount))];
      }
      assert m[..i + 1][..i] == m[..i];
      i := i + 1;
    }
    assert m[..i] == m;
  }

  /** The `fuelEntries.forEach`: one line per entry, in order. */
  method AppendFuelLines(acc: seq<SummaryLine>, fs: seq<FuelEntry>) returns (lines: seq<SummaryLine>)
    ensures lines == acc + FuelLines(fs)
  {
    lines := acc;
    var j := 0;
    while j < |fs|
      invariant 0 <= j <= |fs|
      invariant lines == acc + FuelLines(fs[..j])
    {
      lines := lines + [FuelLine(fs[j].fuelType, fs[j].amount)];
      assert fs[..j + 1][..j] == fs[..j];
      j := j + 1;
    }
    assert fs[..j] == fs;
  }

  /** A platform line stands for exactly each platform with an amount above 0. */
  lemma {:induction false} PlatformLinePresence(m: Amounts)
    ensures forall i :: 0 <= i < |m| && Coerce(m[i].amount) > 0.0
              ==> PlatformLine(Capitalize(m[i].key), Coerce(m[i].amount)) in PlatformLines(m)
    ensures forall l :: l in PlatformLines(m)
              ==> exists i :: 0 <= i < |m| && Coerce(m[i].amount) > 0.0 && l == PlatformLine(Capitalize(m[i].key), Coerce(m[i].amount))
    decreases |m|
  {
    if m != [] {
      var init := m[..|m| - 1];
      PlatformLinePresence(init);
      forall l | l in PlatformLines(m)
        ensures exists i :: 0 <= i < |m| && Coerce(m[i].amount) > 0.0 && l == PlatformLine(Capitalize(m[i].key), Coerce(m[i].amount))
      {
        if l in PlatformLines(init) {
          var i :| 0 <= i < |init| && Coerce(init[i].amount) > 0.0 && l == PlatformLine(Capitalize(init[i].key), Coerce(init[i].amount));
          assert m[i] == init[i];
        } else {
          assert l == PlatformLine(Capitalize(m[|m| - 1].key), Coerce(m[|m| - 1].amount));
        }
      }
      forall i | 0 <= i < |m| && Coerce(m[i].amount) > 0.0
        ensures PlatformLine(Capitalize(m[i].key), Coerce(m[i].amount)) in PlatformLines(m)
      {
        if i < |m| - 1 {
          assert m[i] == init[i];
        }
      }
    }
  }

  /** Where a summary line can come from: the head, a platform, the cash split, the fuel block or the tail. */
  lemma SummaryParts(t: Trip, b: Breakdown, l: SummaryLine)
    ensures l in SummaryLines(t, b)
            <==> l in HeadLines(t, b) || l in PlatformLines(t.platformEarnings)
                 || l == CashSplit(t.onlinePayments, b.totalCashCollected)
                 || l in FuelBlock(t, b) || l in TailLines(t, b)
  {
  }

  /** The fuel block, and its header, appear exactly when there are fuel entries. */
  lemma SummaryFuelRule(t: Trip, b: Breakdown)
    ensures FuelHeader in SummaryLines(t, b) <==> |t.fuelEntries| > 0
  {
    SummaryParts(t, b, FuelHeader);
    if |t.fuelEntries| > 0 {
      assert FuelBlock(t, b)[0] == FuelHeader;
    }
  }

  /**
   * The commissions line appears exactly when the commissions total is above
   * 0, and it carries the trip's Uber flag and its positive Yatri trip count.
   */
  lemma SummaryCommissionRule(t: Trip, b: Breakdown)
    ensures (exists l :: l in SummaryLines(t, b) && l.CommissionLine?)
            <==> b.totalCommissions > 0.0
    ensures forall l :: l in SummaryLines(t, b) && l.CommissionLine? ==>
              l.uber == t.hasUberCommission && l.yatriTrips == YatriPart(t)
  {
    forall l | l in SummaryLines(t, b) && l.CommissionLine?
      ensures l.uber == t.hasUberCommission && l.yatriTrips == YatriPart(t)
    {
      SummaryParts(t, b, l);
    }
    var c := CommissionLine(t.hasUberCommission, YatriPart(t));
    if b.totalCommissions > 0.0 {
      assert TailLines(t, b)[0] == c;
      SummaryParts(t, b, c);
    } else {
      forall l | l in SummaryLines(t, b)
        ensures !l.CommissionLine?
      {
        SummaryParts(t, b, l);
      }
    }
  }

  /** The pay line carries the percentage and salary of the breakdown, marked paid exactly when the salary was taken. */
  lemma SummaryPayRule(t: Trip, b: Breakdown)
    ensures DriverPay(b.driverPercentage, b.driverSalary, t.driverTookSalary) in SummaryLines(t, b)
    ensures forall l :: l in SummaryLines(t, b) && l.DriverPay? ==> l.paid == t.driverTookSalary
  {
    SummaryParts(t, b, DriverPay(b.driverPercentage, b.driverSalary, t.driverTookSalary));
    forall l | l in SummaryLines(t, b) && l.DriverPay?
      ensures l.paid == t.driverTookSalary
    {
      SummaryParts(t, b, l);
    }
  }

  /**
   * The cashier line appears exactly when the hand-over flag is set and an
   * amount was typed, and it shows the typed text, not its `|| 0` value.
   */
  lemma SummaryCashierRule(t: Trip, b: Breakdown)
    ensures (exists l :: l in SummaryLines(t, b) && l.CashierLine?)
            <==> t.cashGivenToCashier && Truthy(t.cashToCashier)
    ensures forall l :: l in SummaryLines(t, b) && l.CashierLine? ==> l.typed == t.cashToCashier
  {
    forall l | l in SummaryLines(t, b) && l.CashierLine?
      ensures l.typed == t.cashToCashier
    {
      SummaryParts(t, b, l);
    }
    if t.cashGivenToCashier && Truthy(t.cashToCashier) {
      var c := CashierLine(t.cashToCashier);
      assert c in TailLines(t, b);
      SummaryParts(t, b, c);
    } else {
      forall l | l in SummaryLines(t, b)
        ensures !l.CashierLine?
      {
        SummaryParts(t, b, l);
      }
    }
  }
}
