/**
 * The cashier panel (`src/components/CashierPanel.jsx`): today's
 * transactions, the net of the last seven days, the guard on a manual
 * transaction, and the history of the ten most recent transactions, which
 * sorts the stored list in place.
 */
module Cashier {
  import opened Wrappers
  import opened Money
  import opened Dates

  /** A cashier transaction: its date (`YYYY-MM-DD`), its type, its amount, and the instant it was made. */
  datatype Transaction = Transaction(date: string, kind: string, amount: real, timestamp: int)

  datatype CashierData = CashierData(totalCash: real, transactions: seq<Transaction>)

  // ---------------------------------------------------------------- today

  /** `new Date().toISOString().split('T')[0]`: the text before the first `T`. */
  function DatePart(iso: string): (r: string)
    ensures r <= iso && 'T' !in r
  {
    if iso == [] || iso[0] == 'T' then [] else [iso[0]] + DatePart(iso[1..])
  }

  /** `getTodaysTransactions` */
  function TodaysTransactions(ts: seq<Transaction>, today: string): (r: seq<Transaction>)
    ensures |r| <= |ts|
  {
    if ts == [] then []
    else TodaysTransactions(ts[..|ts| - 1], today) + (if ts[|ts| - 1].date == today then [ts[|ts| - 1]] else [])
  }

  /** Today's transactions are exactly those dated today, in their stored order. */
  lemma {:induction false} TodaysMembers(ts: seq<Transaction>, today: string)
    ensures forall t :: t in TodaysTransactions(ts, today) <==> t in ts && t.date == today
    decreases |ts|
  {
    if ts != [] {
      TodaysMembers(ts[..|ts| - 1], today);
      assert ts == ts[..|ts| - 1] + [ts[|ts| - 1]];
    }
  }

  // --------------------------------------------------------------- weekly

  /** `weekAgo`: seven days before the clock. */
  function WeekAgo(now: int): int {
    now - 7 * MsPerDay
  }

  /** `new Date(transaction.date) >= weekAgo`; an unparsable date never passes. */
  predicate InLastWeek(t: Transaction, now: int) {
    OnOrAfter(t.date, WeekAgo(now))
  }

  /** The effect of one transaction on the total: added when received, taken away otherwise. */
  function Signed(t: Transaction): real {
    if t.kind == "received" then t.amount else -t.amount
  }

  /** `getWeeklyTotal`: the filter, then the reduce, left to right. */
  function WeeklyTotal(ts: seq<Transaction>, now: int): real {
    if ts == [] then 0.0
    else WeeklyTotal(ts[..|ts| - 1], now) + (if InLastWeek(ts[|ts| - 1], now) then Signed(ts[|ts| - 1]) else 0.0)
  }

  /** The received amounts of the last seven days. */
  function ReceivedInWeek(ts: seq<Transaction>, now: int): real {
    if ts == [] then 0.0
    else
      var t := ts[|ts| - 1];
      ReceivedInWeek(ts[..|ts| - 1], now) + (if InLastWeek(t, now) && t.kind == "received" then t.amount else 0.0)
  }

  /** The amounts of every other type in the last seven days. */
  function OtherInWeek(ts: seq<Transaction>, now: int): real {
    if ts == [] then 0.0
    else
      var t := ts[|ts| - 1];
      OtherInWeek(ts[..|ts| - 1], now) + (if InLastWeek(t, now) && t.kind != "received" then t.amount else 0.0)
  }

  /** The weekly figure is what came in minus what went out, over the last seven days. */
  lemma {:induction false} WeeklyIsNet(ts: seq<Transaction>, now: int)
    ensures WeeklyTotal(ts, now) == ReceivedInWeek(ts, now) - OtherInWeek(ts, now)
    decreases |ts|
  {
    if ts != [] {
      WeeklyIsNet(ts[..|ts| - 1], now);
    }
  }

  /** The weekly figure of two lists adds up. */
  lemma {:induction false} WeeklyAppend(a: seq<Transaction>, b: seq<Transaction>, now: int)
    ensures WeeklyTotal(a + b, now) == WeeklyTotal(a, now) + WeeklyTotal(b, now)
    decreases |b|
  {
    if b == [] {
      assert a + b == a;
    } else {
      assert (a + b)[..|a + b| - 1] == a + b[..|b| - 1];
      WeeklyAppend(a, b[..|b| - 1], now);
    }
  }

  /** Transactions older than a week, or with an unparsable date, do not count. */
  lemma {:induction false} WeeklyIgnoresOld(ts: seq<Transaction>, now: int)
    requires forall i :: 0 <= i < |ts| ==> !InLastWeek(ts[i], now)
    ensures WeeklyTotal(ts, now) == 0.0
    decreases |ts|
  {
    if ts != [] {
      WeeklyIgnoresOld(ts[..|ts| - 1], now);
    }
  }

  // ------------------------------------------------------- manual amount

  /** `!manualAmount || parseFloat(manualAmount) <= 0`: the handler stops with an alert. */
  predicate AmountRejected(r: Raw) {
    r.Blank? || (r.Num? && r.value <= 0.0)
  }

  /** A service call the handler makes: `parseFloat` of the amount (`None` for NaN) and the type. */
  datatype CashCall = CashCall(amount: Option<real>, kind: string)

  function ParsedAmount(r: Raw): Option<real> {
    if r.Num? then Some(r.value) else None
  }

  /**
   * The guard lets exactly positive numbers through, and also text that does
   * not parse, since `NaN <= 0` is false; the amount input is numeric, so a
   * browser hands the handler an empty string rather than such text.
   */
  lemma AmountGuardRule(r: Raw)
    ensures !AmountRejected(r) <==> (r.Num? && r.value > 0.0) || r.Garbage?
    ensures !AmountRejected(r) && !r.Garbage? ==> ParsedAmount(r).Some? && ParsedAmount(r).value > 0.0
  {
  }

  // -------------------------------------------------------------- history

  /** Most recent first. */
  predicate NewestFirst(s: seq<Transaction>) {
    forall i, j :: 0 <= i < j < |s| ==> s[i].timestamp >= s[j].timestamp
  }

  /** Places `t` before the first transaction that is not newer than it. */
  function Insert(t: Transaction, s: seq<Transaction>): (r: seq<Transaction>)
    ensures |r| == |s| + 1
    ensures multiset(r) == multiset(s) + multiset{t}
    ensures forall x :: x in r ==> x == t || x in s
  {
    if s == [] || s[0].timestamp <= t.timestamp then [t] + s
    else
      assert s == [s[0]] + s[1..];
      [s[0]] + Insert(t, s[1..])
  }

  /** The comparator sort `(a, b) => b.timestamp - a.timestamp`, as an insertion sort. */
  function SortNewestFirst(ts: seq<Transaction>): (r: seq<Transaction>)
    ensures |r| == |ts|
    ensures multiset(r) == multiset(ts)
  {
    if ts == [] then []
    else
      assert ts == [ts[0]] + ts[1..];
      Insert(ts[0], SortNewestFirst(ts[1..]))
  }

  lemma {:induction false} InsertNewestFirst(t: Transaction, s: seq<Transaction>)
    requires NewestFirst(s)
    ensures NewestFirst(Insert(t, s))
    decreases |s|
  {
    if s != [] && s[0].timestamp > t.timestamp {
      var tail := s[1..];
      InsertNewestFirst(t, tail);
      forall x | x in tail
        ensures s[0].timestamp >= x.timestamp
      {
        var k :| 0 <= k < |tail| && tail[k] == x;
        assert s[k + 1] == x;
      }
      var r := Insert(t, tail);
      assert forall j :: 0 <= j < |r| ==> r[j] in r;
    }
  }

  /** The sort orders newest first and keeps every transaction. */
  lemma {:induction false} SortIsNewestFirst(ts: seq<Transaction>)
    ensures NewestFirst(SortNewestFirst(ts))
    ensures multiset(SortNewestFirst(ts)) == multiset(ts)
    decreases |ts|
  {
    if ts != [] {
      SortIsNewestFirst(ts[1..]);
      InsertNewestFirst(ts[0], SortNewestFirst(ts[1..]));
    }
  }

  /** `.slice(0, 10)` */
  function FirstTen(s: seq<Transaction>): (r: seq<Transaction>)
    ensures |r| <= 10 && r <= s
    ensures |s| >= 10 ==> |r| == 10
    ensures |s| < 10 ==> r == s
  {
    if |s| <= 10 then s else s[..10]
  }

  /**
   * The history shows at most ten transactions, newest first, each taken
   * from the list, and none of the transactions left out is newer than one
   * shown.
   */
  lemma RecentHistory(ts: seq<Transaction>)
    ensures var sorted := SortNewestFirst(ts); var shown := FirstTen(sorted);
            && |shown| <= 10 && NewestFirst(shown)
            && (forall t :: t in shown ==> t in ts)
            && (forall i, j :: 0 <= i < |shown| <= j < |sorted| ==> shown[i].timestamp >= sorted[j].timestamp)
            && (|ts| <= 10 ==> multiset(shown) == multiset(ts))
  {
    var sorted := SortNewestFirst(ts);
    SortIsNewestFirst(ts);
    var shown := FirstTen(sorted);
    forall t | t in shown
      ensures t in ts
    {
      var i :| 0 <= i < |shown| && shown[i] == t;
      assert sorted[i] == t;
      assert t in multiset(sorted);
    }
  }

  // ---------------------------------------------------------------- state

  /** The panel's state: the cashier data shown and the manual transaction form. */
  class Panel {
    var cashierData: CashierData
    var manualAmount: Raw
    var transactionType: string
    var transactionNote: string

    /** The initial state: no cash, no transactions, an empty form of type `add`. */
    constructor()
      ensures cashierData == CashierData(0.0, []) && manualAmount == Blank
      ensures transactionType == "add" && transactionNote == ""
    {
      cashierData := CashierData(0.0, []);
      manualAmount := Blank;
      transactionType := "add";
      transactionNote := "";
    }

    /**
     * `handleManualTransaction`: a rejected amount makes no call; otherwise
     * the amount and type are sent, and only a call that succeeds clears the
     * amount and the note.
     */
    method HandleManualTransaction(callOk: bool) returns (call: Option<CashCall>)
      modifies this`manualAmount, this`transactionNote
      ensures AmountRejected(old(manualAmount)) <==> call.None?
      ensures call.Some? ==> call.value == CashCall(ParsedAmount(old(manualAmount)), transactionType)
      ensures call.Some? && callOk ==> manualAmount == Blank && transactionNote == ""
      ensures call.None? || !callOk ==> manualAmount == old(manualAmount) && transactionNote == old(transactionNote)
    {
      if manualAmount.Blank? || (manualAmount.Num? && manualAmount.value <= 0.0) {
        return None;
      }
      call := Some(CashCall(ParsedAmount(manualAmount), transactionType));
      if callOk {
        manualAmount := Blank;
        transactionNote := "";
      }
    }

    /**
     * The history list: the stored transactions are sorted newest first in
     * place, and the first ten are shown.
     */
    method RecentTransactions() returns (shown: seq<Transaction>)
      modifies this`cashierData
      ensures cashierData == old(cashierData).(transactions := SortNewestFirst(old(cashierData).transactions))
      ensures shown == FirstTen(cashierData.transactions)
    {
      var sorted := SortNewestFirst(cashierData.transactions);
      cashierData := cashierData.(transactions := sorted);
      shown := FirstTen(sorted);
    }

    /** The three cards: cash held, the number of today's transactions, and the weekly net. */
    function Cards(nowIso: string, now: int): (r: (real, int, real))
      reads this
      ensures r.1 <= |cashierData.transactions|
    {
      (cashierData.totalCash,
       |TodaysTransactions(cashierData.transactions, DatePart(nowIso))|,
       WeeklyTotal(cashierData.transactions, now))
    }
  }
}
