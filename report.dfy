/**
 * The trip report (`src/components/DriverReport.jsx`): the driver and month
 * filters, the monthly summary of the chosen driver, the per-trip totals,
 * and the CSV export.
 */
module DriverReport {
  import opened Wrappers
  import opened Money
  import opened Dates
  import opened Trips
  import opened Calculations

  // --------------------------------------------------------------- filter

  /** `trips.filter(keep)` */
  function Keep(trips: seq<Trip>, keep: Trip -> bool): (r: seq<Trip>)
    ensures |r| <= |trips|
  {
    if trips == [] then []
    else Keep(trips[..|trips| - 1], keep) + (if keep(trips[|trips| - 1]) then [trips[|trips| - 1]] else [])
  }

  lemma {:induction false} KeepMembers(trips: seq<Trip>, keep: Trip -> bool)
    ensures forall t :: t in Keep(trips, keep) <==> t in trips && keep(t)
    decreases |trips|
  {
    if trips != [] {
      KeepMembers(trips[..|trips| - 1], keep);
      assert trips == trips[..|trips| - 1] + [trips[|trips| - 1]];
    }
  }

  /** A filter that keeps every trip returns the list unchanged. */
  lemma {:induction false} KeepAll(trips: seq<Trip>, keep: Trip -> bool)
    requires forall t :: t in trips ==> keep(t)
    ensures Keep(trips, keep) == trips
    decreases |trips|
  {
    if trips != [] {
      assert forall t :: t in trips[..|trips| - 1] ==> t in trips;
      KeepAll(trips[..|trips| - 1], keep);
      assert trips[|trips| - 1] in trips;
      assert trips == trips[..|trips| - 1] + [trips[|trips| - 1]];
    }
  }

  /** The list the effect ends with: by driver when one is chosen, then by month when one is chosen. */
  function FilterTrips(trips: seq<Trip>, driver: string, month: string): seq<Trip> {
    var byDriver := if driver != "" then Keep(trips, (t: Trip) => t.driverName == driver) else trips;
    if month != "" then Keep(byDriver, (t: Trip) => month <= t.date) else byDriver
  }

  /** A trip is shown exactly when it matches the chosen driver and its date starts with the chosen month. */
  lemma FilterTripsMembers(trips: seq<Trip>, driver: string, month: string)
    ensures forall t :: t in FilterTrips(trips, driver, month)
                        <==> t in trips && (driver == "" || t.driverName == driver) && (month == "" || month <= t.date)
    ensures |FilterTrips(trips, driver, month)| <= |trips|
  {
    var byDriver := if driver != "" then Keep(trips, (t: Trip) => t.driverName == driver) else trips;
    if driver != "" {
      KeepMembers(trips, (t: Trip) => t.driverName == driver);
    }
    if month != "" {
      KeepMembers(byDriver, (t: Trip) => month <= t.date);
    }
  }

  /**
   * The chosen month names a calendar month other than the current one (or
   * none at all): no shown trip is in the current month, so the summary
   * counts no trips and no money.
   */
  lemma OtherMonthSummaryEmpty(trips: seq<Trip>, driver: string, month: string, current: YearMonth)
    requires |month| == 7 && ParseYearMonth(month) != Some(current)
    ensures MonthlyTrips(FilterTrips(trips, driver, month), current) == []
    ensures MonthlySummaryOf(Primary, FilterTrips(trips, driver, month), current).tripsCount == 0
  {
    var shown := FilterTrips(trips, driver, month);
    FilterTripsMembers(trips, driver, month);
    forall t | t in shown
      ensures !InMonth(t.date, current)
    {
      if ParseIsoDate(t.date).Some? {
        PrefixFixesMonth(month, t.date);
      }
    }
    MonthlyTripsNone(shown, current);
  }

  /** When the chosen month is the current one, every shown trip with a valid date is counted. */
  lemma CurrentMonthSummaryCountsAll(trips: seq<Trip>, driver: string, month: string, current: YearMonth)
    requires |month| == 7 && ParseYearMonth(month) == Some(current)
    requires forall t :: t in trips ==> ParseIsoDate(t.date).Some?
    ensures MonthlyTrips(FilterTrips(trips, driver, month), current) == FilterTrips(trips, driver, month)
  {
    var shown := FilterTrips(trips, driver, month);
    FilterTripsMembers(trips, driver, month);
    forall t | t in shown
      ensures InMonth(t.date, current)
    {
      PrefixFixesMonth(month, t.date);
    }
    MonthlyTripsAllIn(shown, current);
  }

  lemma {:induction false} MonthlyTripsAllIn(ts: seq<Trip>, ym: YearMonth)
    requires forall t :: t in ts ==> InMonth(t.date, ym)
    ensures MonthlyTrips(ts, ym) == ts
    decreases |ts|
  {
    if ts != [] {
      assert forall t :: t in ts[..|ts| - 1] ==> t in ts;
      MonthlyTripsAllIn(ts[..|ts| - 1], ym);
      assert ts[|ts| - 1] in ts;
      assert ts == ts[..|ts| - 1] + [ts[|ts| - 1]];
    }
  }

  // --------------------------------------------------------------- totals

  /**
   * `getPlatformEarningsTotal` and `getCommissionsTotal` are the same sums
   * the breakdown uses (`PlatformEarningsSum`, `CommissionsSum`): blank and
   * unparsable entries add nothing, and a trip without a parsable entry
   * totals 0.
   */
  lemma ReportTotals(t: Trip)
    ensures PlatformEarningsSum(t) == SumRaw(NumbersOnly(Values(t.platformEarnings)))
    ensures CommissionsSum(t) == SumRaw(NumbersOnly(Values(t.commissions)))
    ensures (forall i :: 0 <= i < |t.platformEarnings| ==> !t.platformEarnings[i].amount.Num?) ==> PlatformEarningsSum(t) == 0.0
    ensures (forall i :: 0 <= i < |t.commissions| ==> !t.commissions[i].amount.Num?) ==> CommissionsSum(t) == 0.0
  {
    SumRawIgnoresNonNumbers(Values(t.platformEarnings));
    SumRawIgnoresNonNumbers(Values(t.commissions));
    if forall i :: 0 <= i < |t.platformEarnings| ==> !t.platformEarnings[i].amount.Num? {
      SumRawNoNumbers(Values(t.platformEarnings));
    }
    if forall i :: 0 <= i < |t.commissions| ==> !t.commissions[i].amount.Num? {
      SumRawNoNumbers(Values(t.commissions));
    }
  }

  // ------------------------------------------------------------------ CSV

  /** `parts.join(sep)` */
  function Join(parts: seq<string>, sep: char): string {
    if |parts| == 0 then ""
    else if |parts| == 1 then parts[0]
    else parts[0] + [sep] + Join(parts[1..], sep)
  }

  /** `s.split(sep)`: the pieces between separators; the empty string is one empty piece. */
  function Split(s: string, sep: char): (r: seq<string>)
    ensures |r| >= 1
    decreases |s|
  {
    if s == [] then [""]
    else
      var rest := Split(s[1..], sep);
      if s[0] == sep then [""] + rest else [[s[0]] + rest[0]] + rest[1..]
  }

  lemma {:induction false} SplitNoSeparator(p: string, sep: char)
    requires sep !in p
    ensures Split(p, sep) == [p]
    decreases |p|
  {
    if p != [] {
      SplitNoSeparator(p[1..], sep);
      assert [p[0]] + p[1..] == p;
    }
  }

  lemma {:induction false} SplitAtSeparator(p: string, sep: char, q: string)
    requires sep !in p
    ensures Split(p + [sep] + q, sep) == [p] + Split(q, sep)
    decreases |p|
  {
    var s := p + [sep] + q;
    if p == [] {
      assert s[1..] == q;
    } else {
      assert s[1..] == p[1..] + [sep] + q;
      SplitAtSeparator(p[1..], sep, q);
      assert [p[0]] + p[1..] == p;
    }
  }

  /** A joined text holds no character that none of the pieces holds, other than the separator. */
  lemma {:induction false} JoinAvoids(parts: seq<string>, sep: char, c: char)
    requires c != sep
    requires forall i :: 0 <= i < |parts| ==> c !in parts[i]
    ensures c !in Join(parts, sep)
    decreases |parts|
  {
    if |parts| > 1 {
      JoinAvoids(parts[1..], sep, c);
    }
  }

  /** Splitting undoes joining when no piece holds the separator. */
  lemma {:induction false} SplitJoin(parts: seq<string>, sep: char)
    requires |parts| >= 1
    requires forall i :: 0 <= i < |parts| ==> sep !in parts[i]
    ensures Split(Join(parts, sep), sep) == parts
    decreases |parts|
  {
    if |parts| == 1 {
      SplitNoSeparator(parts[0], sep);
    } else {
      SplitJoin(parts[1..], sep);
      SplitAtSeparator(parts[0], sep, Join(parts[1..], sep));
      assert [parts[0]] + parts[1..] == parts;
    }
  }

  /** `rows.map(row => row.join(','))` */
  function JoinRows(table: seq<seq<string>>): (r: seq<string>)
    ensures |r| == |table|
    ensures forall i :: 0 <= i < |table| ==> r[i] == Join(table[i], ',')
  {
    if table == [] then [] else [Join(table[0], ',')] + JoinRows(table[1..])
  }

  /** `csvData.map(row => row.join(',')).join('\n')`: no field is quoted. */
  function CsvText(table: seq<seq<string>>): string {
    Join(JoinRows(table), '\n')
  }

  /** A field that holds neither a comma nor a newline survives the unquoted CSV. */
  predicate PlainField(f: string) {
    ',' !in f && '\n' !in f
  }

  /** A line of fields that are all plain. */
  predicate RowPlain(row: seq<string>) {
    forall j :: 0 <= j < |row| ==> PlainField(row[j])
  }

  /** Splitting the CSV at newlines and then at commas gives back the table, when every field is plain. */
  lemma CsvRoundTrip(table: seq<seq<string>>)
    requires |table| >= 1
    requires forall i :: 0 <= i < |table| ==> |table[i]| >= 1 && RowPlain(table[i])
    ensures |Split(CsvText(table), '\n')| == |table|
    ensures forall i :: 0 <= i < |table| ==> Split(Split(CsvText(table), '\n')[i], ',') == table[i]
  {
    var lines := JoinRows(table);
    forall i | 0 <= i < |table|
      ensures '\n' !in lines[i]
      ensures Split(lines[i], ',') == table[i]
    {
      JoinAvoids(table[i], ',', '\n');
      SplitJoin(table[i], ',');
    }
    SplitJoin(lines, '\n');
  }

  /** Without quoting, a comma inside a field moves every later field one column to the right. */
  lemma CommaInFieldAddsColumn()
    ensures Split(CsvText([["a,b", "c"]]), '\n') == ["a,b,c"]
    ensures Split("a,b,c", ',') == ["a", "b", "c"]
  {
    assert JoinRows([["a,b", "c"]]) == ["a,b" + [','] + "c"];
    assert "a,b" + [','] + "c" == "a,b,c";
    SplitNoSeparator("a,b,c", '\n');
    SplitNoSeparator("c", ',');
    assert "b" + [','] + "c" == "b,c";
    SplitAtSeparator("b", ',', "c");
    assert "a" + [','] + "b,c" == "a,b,c";
    SplitAtSeparator("a", ',', "b,c");
  }

  const CsvHeader: seq<string> :=
    ["Date", "Driver", "Total KM", "Total Earnings", "Driver Salary", "Cash in Hand", "Salary Taken", "Cash to Cashier"]

  /** The header's titles hold no comma and no newline. */
  lemma HeaderPlain()
    ensures RowPlain(CsvHeader)
  {
  }

  /** The text a typed form field prints as; `show` is JavaScript's number-to-text. */
  function FieldText(r: Raw, show: real -> string): string {
    match r
    case Blank => ""
    case Num(v) => show(v)
    case Garbage(text) => text
  }

  /** One trip's line of the export: `calculations?.x || 0` prints 0 for a trip without a breakdown. */
  function CsvRow(t: Trip, show: real -> string): (r: seq<string>)
    ensures |r| == |CsvHeader|
    ensures r[6] == (if t.driverTookSalary then "Yes" else "No") && r[7] == (if t.cashGivenToCashier then "Yes" else "No")
  {
    var b := t.calculations;
    [t.date, t.driverName, FieldText(t.totalKm, show),
     show(if b.Some? then b.value.totalEarnings else 0.0),
     show(if b.Some? then b.value.driverSalary else 0.0),
     show(if b.Some? then b.value.cashInHand else 0.0),
     if t.driverTookSalary then "Yes" else "No",
     if t.cashGivenToCashier then "Yes" else "No"]
  }

  function CsvRows(trips: seq<Trip>, show: real -> string): (r: seq<seq<string>>)
    ensures |r| == |trips|
    ensures forall i :: 0 <= i < |trips| ==> r[i] == CsvRow(trips[i], show)
  {
    if trips == [] then [] else [CsvRow(trips[0], show)] + CsvRows(trips[1..], show)
  }

  /** `exportToCSV`: nothing for an empty list, else the header and one line per shown trip. */
  function ExportToCsv(shown: seq<Trip>, show: real -> string): Option<string> {
    if |shown| == 0 then None else Some(CsvText([CsvHeader] + CsvRows(shown, show)))
  }

  /**
   * The export has a header line and one line per trip, each line with the
   * eight fields of its trip and the flags as Yes/No, provided no field
   * text holds a comma or a newline.
   */
  lemma ExportLines(shown: seq<Trip>, show: real -> string)
    requires |shown| >= 1
    requires forall i :: 0 <= i < |shown| ==> RowPlain(CsvRows(shown, show)[i])
    ensures ExportToCsv(shown, show).Some?
    ensures var lines := Split(ExportToCsv(shown, show).value, '\n');
            && |lines| == |shown| + 1
            && Split(lines[0], ',') == CsvHeader
            && forall i :: 0 <= i < |shown| ==> Split(lines[i + 1], ',') == CsvRows(shown, show)[i]
  {
    var rows := CsvRows(shown, show);
    var table := [CsvHeader] + rows;
    HeaderPlain();
    forall i | 0 <= i < |table|
      ensures |table[i]| >= 1 && RowPlain(table[i])
    {
      if i > 0 {
        assert table[i] == rows[i - 1];
      }
    }
    CsvRoundTrip(table);
  }

  /** `trip_report_{driver or 'all'}_{month}.csv` */
  function FileName(driver: string, month: string): (r: string)
    ensures |r| == 17 + (if driver != "" then |driver| else 3) + |month|
    ensures r[..12] == "trip_report_" && r[|r| - 4..] == ".csv"
    ensures driver != "" ==> r[12..12 + |driver|] == driver && r[12 + |driver|..|r| - 4] == "_" + month
    ensures driver == "" ==> r[12..15] == "all" && r[15..|r| - 4] == "_" + month
  {
    "trip_report_" + (if driver != "" then driver else "all") + "_" + month + ".csv"
  }

  // ---------------------------------------------------------------- state

  /** The component's state: the two selections and what the effect derives from them. */
  class Report {
    var selectedDriver: string
    var selectedMonth: string
    var filteredTrips: seq<Trip>
    var driverSummary: Option<MonthlySummary>

    /** No driver chosen, the current month chosen, nothing derived yet. */
    constructor(currentMonth: string)
      ensures selectedDriver == "" && selectedMonth == currentMonth
      ensures filteredTrips == [] && driverSummary == None
    {
      selectedDriver := "";
      selectedMonth := currentMonth;
      filteredTrips := [];
      driverSummary := None;
    }

    /**
     * The filter effect: narrow by driver, then by month, and summarize the
     * month for the chosen driver only.
     */
    method ApplyFilters(trips: seq<Trip>, current: YearMonth)
      modifies this`filteredTrips, this`driverSummary
      ensures filteredTrips == FilterTrips(trips, selectedDriver, selectedMonth)
      ensures driverSummary == if selectedDriver != "" then Some(MonthlySummaryOf(Primary, filteredTrips, current)) else None
    {
      var filtered := trips;
      if selectedDriver != "" {
        var driver := selectedDriver;
        filtered := Keep(filtered, (t: Trip) => t.driverName == driver);
      }
      if selectedMonth != "" {
        var month := selectedMonth;
        filtered := Keep(filtered, (t: Trip) => month <= t.date);
      }
      filteredTrips := filtered;
      if selectedDriver != "" {
        var summary := CalculateMonthlySalarySummary(Primary, selectedDriver, filtered, current);
        driverSummary := Some(summary);
      } else {
        driverSummary := None;
      }
    }

    /** The export button: what `exportToCSV` writes for the shown trips. */
    function Export(show: real -> string): (r: Option<string>)
      reads this
      ensures r.None? <==> |filteredTrips| == 0
    {
      ExportToCsv(filteredTrips, show)
    }
  }
}
