/**
 * The sheet service (`src/services/sheetdb.js`): the row a trip becomes in
 * the `trips` worksheet, and the record `updateDriverSalary` posts to the
 * `driver_salaries` worksheet. The HTTP calls are not modelled; the rows a
 * query returns and the worksheet a post appends to are values here.
 */
module Sheets {
  import opened Wrappers
  import opened Money
  import opened Trips

  // ------------------------------------------------------------ trip row

  /** A cell written to the sheet: text, a form field kept as typed, or a number. */
  datatype Cell = Text(s: string) | Field(raw: Raw) | Amount(value: real)

  /** The number the sheet holds in a cell; text holds none. */
  function CellNumber(c: Cell): real {
    match c
    case Text(_) => 0.0
    case Field(r) => Coerce(r)
    case Amount(v) => v
  }

  /** `x || 0` on a form field: only an empty field is falsy, and it becomes the number 0. */
  function FieldOrZero(r: Raw): (c: Cell)
    ensures c != Field(Blank) && c != Text("")
    ensures CellNumber(c) == Coerce(r)
    ensures r != Blank ==> c == Field(r)
  {
    if r.Blank? then Amount(0.0) else Field(r)
  }

  function YesNo(b: bool): string {
    if b then "Yes" else "No"
  }

  /** Reading a Yes/No cell back. */
  predicate IsYes(c: Cell) {
    c == Text("Yes")
  }

  /**
   * The object `createTripData` builds, one field per column of the `trips`
   * worksheet, in column order: `date`, `driver_name`, `total_km`,
   * `start_km`, `end_km`, the five `*_earnings`, `uber_commission`,
   * `yatri_commission`, `fuel_type_1` .. `fuel_amount_3`,
   * `online_payments`, `total_cash_collected`, `other_expenses`,
   * `driver_took_salary`, `cash_given_to_cashier`, `cash_to_cashier`,
   * `total_earnings`, `driver_salary`, `cash_in_hand`, `created_at`.
   */
  datatype TripRow = TripRow(
    date: Cell, driverName: Cell,
    totalKm: Cell, startKm: Cell, endKm: Cell,
    uberEarnings: Cell, indriveEarnings: Cell, yatriEarnings: Cell, rapidoEarnings: Cell, offlineEarnings: Cell,
    uberCommission: Cell, yatriCommission: Cell,
    fuelType1: Cell, fuelAmount1: Cell, fuelType2: Cell, fuelAmount2: Cell, fuelType3: Cell, fuelAmount3: Cell,
    onlinePayments: Cell, totalCashCollected: Cell, otherExpenses: Cell,
    driverTookSalary: Cell, cashGivenToCashier: Cell, cashToCashier: Cell,
    totalEarnings: Cell, driverSalary: Cell, cashInHand: Cell,
    createdAt: Cell)

  /** `fuelEntries?.[i]?.type || ''`: a missing slot has no type. */
  function FuelTypeSlot(es: seq<FuelEntry>, i: nat): Cell {
    if i < |es| then Text(FuelTypeName(es[i].fuelType)) else Text("")
  }

  /** `fuelEntries?.[i]?.amount || 0` */
  function FuelAmountSlot(es: seq<FuelEntry>, i: nat): Cell {
    if i < |es| then FieldOrZero(es[i].amount) else Amount(0.0)
  }

  /** `calculations?.x || 0`: a trip without a breakdown stores 0. */
  function BreakdownCell(b: Option<Breakdown>, x: Breakdown -> real): Cell {
    if b.Some? then Amount(x(b.value)) else Amount(0.0)
  }

  /** `createTripData(tripData)`; `createdAt` is the clock's ISO time. */
  function CreateTripData(t: Trip, createdAt: string): TripRow {
    var pe, cm, fe, b := t.platformEarnings, t.commissions, t.fuelEntries, t.calculations;
    TripRow(
      Text(t.date), Text(t.driverName),
      FieldOrZero(t.totalKm), FieldOrZero(t.startKm), FieldOrZero(t.endKm),
      FieldOrZero(Lookup(pe, "uber")), FieldOrZero(Lookup(pe, "indrive")), FieldOrZero(Lookup(pe, "yatri")),
      FieldOrZero(Lookup(pe, "rapido")), FieldOrZero(Lookup(pe, "offline")),
      FieldOrZero(Lookup(cm, "uber_commission")), FieldOrZero(Lookup(cm, "yatri_commission")),
      FuelTypeSlot(fe, 0), FuelAmountSlot(fe, 0), FuelTypeSlot(fe, 1), FuelAmountSlot(fe, 1),
      FuelTypeSlot(fe, 2), FuelAmountSlot(fe, 2),
      FieldOrZero(t.onlinePayments), FieldOrZero(t.totalCashCollected), FieldOrZero(t.otherExpenses),
      Text(YesNo(t.driverTookSalary)), Text(YesNo(t.cashGivenToCashier)), FieldOrZero(t.cashToCashier),
      BreakdownCell(b, (x: Breakdown) => x.totalEarnings), BreakdownCell(b, (x: Breakdown) => x.driverSalary),
      BreakdownCell(b, (x: Breakdown) => x.cashInHand),
      Text(createdAt))
  }

  /** Both flags are written as Yes/No, and reading the cell back gives the flag. */
  lemma TripRowFlags(t: Trip, createdAt: string)
    ensures var r := CreateTripData(t, createdAt);
            && (r.driverTookSalary == Text("Yes") || r.driverTookSalary == Text("No"))
            && (r.cashGivenToCashier == Text("Yes") || r.cashGivenToCashier == Text("No"))
            && (IsYes(r.driverTookSalary) <==> t.driverTookSalary)
            && (IsYes(r.cashGivenToCashier) <==> t.cashGivenToCashier)
  {
  }

  /** Every numeric column holds the value the trip's field parses to, and none is left empty. */
  lemma TripRowNumbers(t: Trip, createdAt: string)
    ensures var r := CreateTripData(t, createdAt);
            && CellNumber(r.totalKm) == Coerce(t.totalKm) && r.totalKm != Field(Blank)
            && CellNumber(r.startKm) == Coerce(t.startKm) && CellNumber(r.endKm) == Coerce(t.endKm)
            && CellNumber(r.uberEarnings) == Coerce(Lookup(t.platformEarnings, "uber"))
            && CellNumber(r.offlineEarnings) == Coerce(Lookup(t.platformEarnings, "offline"))
            && CellNumber(r.uberCommission) == Coerce(Lookup(t.commissions, "uber_commission"))
            && CellNumber(r.yatriCommission) == Coerce(Lookup(t.commissions, "yatri_commission"))
            && CellNumber(r.onlinePayments) == Coerce(t.onlinePayments)
            && CellNumber(r.otherExpenses) == Coerce(t.otherExpenses)
            && CellNumber(r.cashToCashier) == Coerce(t.cashToCashier) && r.cashToCashier != Field(Blank)
  {
  }

  /** A trip with no breakdown stores 0 in the three computed columns; one with a breakdown stores its amounts. */
  lemma TripRowBreakdown(t: Trip, createdAt: string)
    ensures var r := CreateTripData(t, createdAt);
            t.calculations.None? ==> r.totalEarnings == Amount(0.0) && r.driverSalary == Amount(0.0) && r.cashInHand == Amount(0.0)
    ensures var r := CreateTripData(t, createdAt);
            t.calculations.Some? ==>
              && r.totalEarnings == Amount(t.calculations.value.totalEarnings)
              && r.driverSalary == Amount(t.calculations.value.driverSalary)
              && r.cashInHand == Amount(t.calculations.value.cashInHand)
  {
  }

  /** The row has three fuel slots: a slot past the end of the list is `''` and 0. */
  lemma TripRowFuelSlots(t: Trip, createdAt: string)
    ensures var r := CreateTripData(t, createdAt);
            |t.fuelEntries| == 0 ==> r.fuelType1 == Text("") && r.fuelAmount1 == Amount(0.0)
    ensures var r := CreateTripData(t, createdAt);
            |t.fuelEntries| <= 1 ==> r.fuelType2 == Text("") && r.fuelAmount2 == Amount(0.0)
    ensures var r := CreateTripData(t, createdAt);
            |t.fuelEntries| <= 2 ==> r.fuelType3 == Text("") && r.fuelAmount3 == Amount(0.0)
    ensures var r := CreateTripData(t, createdAt);
            |t.fuelEntries| >= 1 ==> r.fuelType1 == Text(FuelTypeName(t.fuelEntries[0].fuelType))
                                     && CellNumber(r.fuelAmount1) == Coerce(t.fuelEntries[0].amount)
  {
  }

  /** Only the first three fuel entries reach the sheet: the rest are dropped. */
  lemma TripRowKeepsThreeFuelEntries(t: Trip, createdAt: string)
    requires |t.fuelEntries| >= 3
    ensures CreateTripData(t, createdAt) == CreateTripData(t.(fuelEntries := t.fuelEntries[..3]), createdAt)
  {
    var u := t.(fuelEntries := t.fuelEntries[..3]);
    forall i: nat | i < 3
      ensures FuelTypeSlot(t.fuelEntries, i) == FuelTypeSlot(u.fuelEntries, i)
      ensures FuelAmountSlot(t.fuelEntries, i) == FuelAmountSlot(u.fuelEntries, i)
    {
      assert u.fuelEntries[i] == t.fuelEntries[i];
    }
  }

  // ------------------------------------------------------- salary ledger

  /** A record of the `driver_salaries` worksheet. */
  datatype SalaryRecord = SalaryRecord(
    driverName: string,
    month: string,
    totalTrips: int,
    totalEarnings: real,
    totalSalaryEarned: real,
    totalSalaryPaid: real,
    salaryPending: real,
    lastUpdated: string)

  /** A record as a query returns it: the sheet hands its numbers back as text. */
  datatype StoredSalary = StoredSalary(totalTrips: Raw, totalEarnings: Raw, totalSalaryEarned: Raw, totalSalaryPaid: Raw)

  function ReadBack(r: SalaryRecord): StoredSalary {
    StoredSalary(Num(r.totalTrips as real), Num(r.totalEarnings), Num(r.totalSalaryEarned), Num(r.totalSalaryPaid))
  }

  /** `parseInt(x) || 0`: the number's integer part, truncated toward zero. */
  function ParseIntOrZero(r: Raw): (n: int)
    ensures r.Num? && r.value == r.value.Floor as real ==> n == r.value.Floor
    ensures !r.Num? ==> n == 0
  {
    if !r.Num? then 0
    else if r.value >= 0.0 then r.value.Floor
    else -((-r.value).Floor)
  }

  /** `new Date().toISOString().substring(0, 7)`: the `YYYY-MM` of the clock. */
  function MonthOf(nowIso: string): string {
    if |nowIso| >= 7 then nowIso[..7] else nowIso
  }

  /** The GET with `driver_name` and `month` as query parameters: the matching records, in sheet order. */
  function Matching(rows: seq<SalaryRecord>, driverName: string, month: string): (r: seq<SalaryRecord>)
    ensures |r| <= |rows|
    ensures forall x :: x in r ==> x in rows && x.driverName == driverName && x.month == month
  {
    if rows == [] then []
    else
      var last := rows[|rows| - 1];
      Matching(rows[..|rows| - 1], driverName, month) + (if last.driverName == driverName && last.month == month then [last] else [])
  }

  /**
   * The record `updateDriverSalary` builds from the existing record (when the
   * query found one): counts and amounts carried over and increased, with
   * the pending salary filled in afterwards as earned minus paid.
   */
  method BuildSalaryRecord(existing: Option<StoredSalary>, driverName: string, salaryAmount: real, wasPaid: bool, nowIso: string)
    returns (record: SalaryRecord)
    ensures record == SalaryRecordFrom(existing, driverName, salaryAmount, wasPaid, nowIso)
  {
    var paidNow := if wasPaid then salaryAmount else 0.0;
    match existing {
      case None =>
        record := SalaryRecord(driverName, MonthOf(nowIso), 1, salaryAmount, salaryAmount, paidNow, 0.0, nowIso);
      case Some(e) =>
        record := SalaryRecord(driverName, MonthOf(nowIso), ParseIntOrZero(e.totalTrips) + 1,
                               Coerce(e.totalEarnings) + salaryAmount,
                               Coerce(e.totalSalaryEarned) + salaryAmount,
                               Coerce(e.totalSalaryPaid) + paidNow, 0.0, nowIso);
    }
    record := record.(salaryPending := record.totalSalaryEarned - record.totalSalaryPaid);
  }

  /** The record as a value. */
  function SalaryRecordFrom(existing: Option<StoredSalary>, driverName: string, salaryAmount: real, wasPaid: bool, nowIso: string)
    : SalaryRecord
  {
    var paidNow := if wasPaid then salaryAmount else 0.0;
    var trips := if existing.Some? then ParseIntOrZero(existing.value.totalTrips) + 1 else 1;
    var total := if existing.Some? then Coerce(existing.value.totalEarnings) else 0.0;
    var earned := if existing.Some? then Coerce(existing.value.totalSalaryEarned) else 0.0;
    var paid := if existing.Some? then Coerce(existing.value.totalSalaryPaid) else 0.0;
    SalaryRecord(driverName, MonthOf(nowIso), trips, total + salaryAmount, earned + salaryAmount,
                 paid + paidNow, (earned + salaryAmount) - (paid + paidNow), nowIso)
  }

  /** `existingResponse.data[0]`: the first record the query returns, as written. */
  function FirstMatch(rows: seq<SalaryRecord>, driverName: string, month: string): Option<StoredSalary> {
    var m := Matching(rows, driverName, month);
    if |m| > 0 then Some(ReadBack(m[0])) else None
  }

  /** The most recently posted record: the running total the ledger means to continue. */
  function LatestMatch(rows: seq<SalaryRecord>, driverName: string, month: string): Option<StoredSalary> {
    var m := Matching(rows, driverName, month);
    if |m| > 0 then Some(ReadBack(m[|m| - 1])) else None
  }

  /**
   * `updateDriverSalary` on the worksheet, as written: whether a record was
   * found or not, the new record is appended; nothing is updated in place.
   */
  function PostSalary(rows: seq<SalaryRecord>, driverName: string, salaryAmount: real, wasPaid: bool, nowIso: string)
    : seq<SalaryRecord>
  {
    var existing := FirstMatch(rows, driverName, MonthOf(nowIso));
    if existing.Some? then rows + [SalaryRecordFrom(existing, driverName, salaryAmount, wasPaid, nowIso)]
    else rows + [SalaryRecordFrom(existing, driverName, salaryAmount, wasPaid, nowIso)]
  }

  /** The same post continuing from the latest record instead of the first. */
  function PostSalaryCorrected(rows: seq<SalaryRecord>, driverName: string, salaryAmount: real, wasPaid: bool, nowIso: string)
    : seq<SalaryRecord>
  {
    rows + [SalaryRecordFrom(LatestMatch(rows, driverName, MonthOf(nowIso)), driverName, salaryAmount, wasPaid, nowIso)]
  }

  /** The pending salary is earned minus paid, and the total counts the salary, not the trip earnings. */
  lemma SalaryRecordRules(existing: Option<StoredSalary>, driverName: string, salaryAmount: real, wasPaid: bool, nowIso: string)
    ensures var r := SalaryRecordFrom(existing, driverName, salaryAmount, wasPaid, nowIso);
            && r.salaryPending == r.totalSalaryEarned - r.totalSalaryPaid
            && r.driverName == driverName && r.month == MonthOf(nowIso)
            && r.totalSalaryEarned == (if existing.Some? then Coerce(existing.value.totalSalaryEarned) else 0.0) + salaryAmount
            && r.totalSalaryPaid == (if existing.Some? then Coerce(existing.value.totalSalaryPaid) else 0.0)
                                    + (if wasPaid then salaryAmount else 0.0)
            && r.totalTrips == (if existing.Some? then ParseIntOrZero(existing.value.totalTrips) else 0) + 1
    ensures var r := SalaryRecordFrom(existing, driverName, salaryAmount, wasPaid, nowIso);
            existing.None? ==> r.totalTrips == 1 && r.totalEarnings == salaryAmount
                               && r.salaryPending == (if wasPaid then 0.0 else salaryAmount)
    ensures var r := SalaryRecordFrom(existing, driverName, salaryAmount, wasPaid, nowIso);
            existing.Some? && existing.value.totalEarnings == existing.value.totalSalaryEarned ==>
              r.totalEarnings == r.totalSalaryEarned
  {
  }

  /** Both branches of the post append exactly one record, for this driver and month. */
  lemma PostAppendsOne(rows: seq<SalaryRecord>, driverName: string, salaryAmount: real, wasPaid: bool, nowIso: string)
    ensures var after := PostSalary(rows, driverName, salaryAmount, wasPaid, nowIso);
            && |after| == |rows| + 1 && after[..|rows|] == rows
            && after[|rows|].driverName == driverName && after[|rows|].month == MonthOf(nowIso)
            && after[|rows|] == SalaryRecordFrom(FirstMatch(rows, driverName, MonthOf(nowIso)), driverName, salaryAmount, wasPaid, nowIso)
  {
  }

  /** A record read back and parsed gives its own numbers. */
  lemma ReadBackParses(r: SalaryRecord)
    ensures ParseIntOrZero(ReadBack(r).totalTrips) == r.totalTrips
    ensures Coerce(ReadBack(r).totalSalaryEarned) == r.totalSalaryEarned
    ensures Coerce(ReadBack(r).totalSalaryPaid) == r.totalSalaryPaid
    ensures Coerce(ReadBack(r).totalEarnings) == r.totalEarnings
  {
  }

  /** A record posted for this driver and month is the last match afterwards. */
  lemma {:induction false} MatchingAppend(rows: seq<SalaryRecord>, r: SalaryRecord, driverName: string, month: string)
    ensures Matching(rows + [r], driverName, month)
            == Matching(rows, driverName, month) + (if r.driverName == driverName && r.month == month then [r] else [])
  {
    assert (rows + [r])[..|rows + [r]| - 1] == rows;
  }

  /** One salary call of a run: the amount and whether it was paid out. */
  datatype SalaryCall = SalaryCall(amount: real, wasPaid: bool)

  function Posted(calls: seq<SalaryCall>): real {
    if calls == [] then 0.0 else Posted(calls[..|calls| - 1]) + calls[|calls| - 1].amount
  }

  function PaidOut(calls: seq<SalaryCall>): real {
    if calls == [] then 0.0
    else PaidOut(calls[..|calls| - 1]) + (if calls[|calls| - 1].wasPaid then calls[|calls| - 1].amount else 0.0)
  }

  /** The worksheet after a run of calls for one driver within one month, as written. */
  function RunPosts(rows: seq<SalaryRecord>, driverName: string, nowIso: string, calls: seq<SalaryCall>): seq<SalaryRecord> {
    if calls == [] then rows
    else
      var c := calls[|calls| - 1];
      PostSalary(RunPosts(rows, driverName, nowIso, calls[..|calls| - 1]), driverName, c.amount, c.wasPaid, nowIso)
  }

  /** The worksheet after a run of calls, each continuing from the latest record. */
  function RunPostsCorrected(rows: seq<SalaryRecord>, driverName: string, nowIso: string, calls: seq<SalaryCall>): seq<SalaryRecord> {
    if calls == [] then rows
    else
      var c := calls[|calls| - 1];
      PostSalaryCorrected(RunPostsCorrected(rows, driverName, nowIso, calls[..|calls| - 1]), driverName, c.amount, c.wasPaid, nowIso)
  }

  /**
   * As written, the third unpaid call of a month reports two trips and two
   * amounts: each post continues from the month's first record, so the
   * totals never grow past the second call.
   */
  lemma StaleLedgerExample(driverName: string, nowIso: string)
    ensures var calls := [SalaryCall(100.0, false), SalaryCall(100.0, false), SalaryCall(100.0, false)];
            var after := RunPosts([], driverName, nowIso, calls);
            |after| == 3 && after[2].totalTrips == 2 && after[2].totalSalaryEarned == 200.0
  {
    var month := MonthOf(nowIso);
    var c := SalaryCall(100.0, false);
    var r1 := SalaryRecordFrom(None, driverName, 100.0, false, nowIso);
    assert RunPosts([], driverName, nowIso, [c]) == PostSalary([], driverName, 100.0, false, nowIso);
    assert RunPosts([], driverName, nowIso, [c]) == [r1];
    MatchingAppend([], r1, driverName, month);
    assert Matching([r1], driverName, month) == [r1];
    var r2 := SalaryRecordFrom(Some(ReadBack(r1)), driverName, 100.0, false, nowIso);
    assert [c, c][..1] == [c];
    assert RunPosts([], driverName, nowIso, [c, c]) == [r1, r2];
    MatchingAppend([r1], r2, driverName, month);
    assert Matching([r1, r2], driverName, month) == [r1, r2];
    var r3 := SalaryRecordFrom(Some(ReadBack(r1)), driverName, 100.0, false, nowIso);
    assert [c, c, c][..2] == [c, c];
    assert RunPosts([], driverName, nowIso, [c, c, c]) == [r1, r2, r3];
  }

  /** The ledger of a driver's month: its record count and the totals its latest record must carry. */
  predicate LedgerIs(rows: seq<SalaryRecord>, driverName: string, month: string, n: nat, posted: real, paid: real) {
    var m := Matching(rows, driverName, month);
    && |m| == n
    && (n > 0 ==>
          && m[n - 1].totalTrips == n
          && m[n - 1].totalSalaryEarned == posted && m[n - 1].totalEarnings == posted
          && m[n - 1].totalSalaryPaid == paid && m[n - 1].salaryPending == posted - paid)
  }

  /** One corrected post extends the ledger by one call. */
  lemma CorrectedPostStep(rows: seq<SalaryRecord>, driverName: string, nowIso: string, c: SalaryCall,
                          n: nat, posted: real, paid: real)
    requires LedgerIs(rows, driverName, MonthOf(nowIso), n, posted, paid)
    requires n == 0 ==> posted == 0.0 && paid == 0.0
    ensures LedgerIs(PostSalaryCorrected(rows, driverName, c.amount, c.wasPaid, nowIso), driverName, MonthOf(nowIso),
                     n + 1, posted + c.amount, paid + (if c.wasPaid then c.amount else 0.0))
  {
    var month := MonthOf(nowIso);
    var mb := Matching(rows, driverName, month);
    var latest := LatestMatch(rows, driverName, month);
    var r := SalaryRecordFrom(latest, driverName, c.amount, c.wasPaid, nowIso);
    SalaryRecordRules(latest, driverName, c.amount, c.wasPaid, nowIso);
    MatchingAppend(rows, r, driverName, month);
    assert Matching(rows + [r], driverName, month) == mb + [r];
    if n > 0 {
      assert latest == Some(ReadBack(mb[n - 1]));
      ReadBackParses(mb[n - 1]);
    }
  }

  /**
   * Continuing from the latest record, the last record of a run counts every
   * call: trips, salary earned, salary paid, and pending as the unpaid part.
   */
  lemma {:induction false} CorrectedLedgerCounts(rows: seq<SalaryRecord>, driverName: string, nowIso: string, calls: seq<SalaryCall>)
    requires Matching(rows, driverName, MonthOf(nowIso)) == []
    ensures LedgerIs(RunPostsCorrected(rows, driverName, nowIso, calls), driverName, MonthOf(nowIso),
                     |calls|, Posted(calls), PaidOut(calls))
    decreases |calls|
  {
    if calls != [] {
      var init := calls[..|calls| - 1];
      var c := calls[|calls| - 1];
      CorrectedLedgerCounts(rows, driverName, nowIso, init);
      CorrectedPostStep(RunPostsCorrected(rows, driverName, nowIso, init), driverName, nowIso, c,
                        |init|, Posted(init), PaidOut(init));
    }
  }
}
