/**
 * The driver salary panel (`src/components/DriverSalaryPanel.jsx`): the
 * salary status of each registered driver, read from browser storage, and
 * "Mark as Paid", which pays a driver's pending salary and logs the payment.
 */
module SalaryPanel {
  import opened Wrappers
  import opened Money
  import Drivers

  /** One driver's entry under `driver_salaries`. */
  datatype SalaryStatus = SalaryStatus(earned: real, paid: real, pending: real)

  /** One entry of the `salary_transactions` log. */
  datatype SalaryPayment = SalaryPayment(driver: string, amount: real, date: string, kind: string)

  /** What a driver without an entry shows. */
  const NoSalary := SalaryStatus(0.0, 0.0, 0.0)

  /** `driverSalaries[name] || { earned: 0, paid: 0, pending: 0 }` */
  function Displayed(salaries: map<string, SalaryStatus>, name: string): SalaryStatus {
    if name in salaries then salaries[name] else NoSalary
  }

  /** `hasPendingSalary`: the card offers "Mark as Paid". */
  predicate OffersPayment(salaries: map<string, SalaryStatus>, name: string) {
    Displayed(salaries, name).pending > 0.0
  }

  /** A status whose pending amount is what is still owed: earned minus paid, never below 0. */
  predicate Settled(s: SalaryStatus) {
    s.pending == Max0(s.earned - s.paid)
  }

  /** The entry after a payment: `paid += amount`, then pending recomputed. */
  function PayEntry(s: SalaryStatus, amount: real): (r: SalaryStatus)
    ensures r.earned == s.earned && r.paid == s.paid + amount
    ensures Settled(r) && r.pending >= 0.0
  {
    var p := s.(paid := s.paid + amount);
    p.(pending := Max0(p.earned - p.paid))
  }

  /** The salaries after `markSalaryAsPaid(name, amount)`: unchanged when the driver has no entry. */
  function MarkPaid(salaries: map<string, SalaryStatus>, name: string, amount: real): map<string, SalaryStatus> {
    if name in salaries then salaries[name := PayEntry(salaries[name], amount)] else salaries
  }

  /** Only the paid driver's entry changes, and no driver is added or removed. */
  lemma MarkPaidRules(salaries: map<string, SalaryStatus>, name: string, amount: real)
    ensures MarkPaid(salaries, name, amount).Keys == salaries.Keys
    ensures name !in salaries ==> MarkPaid(salaries, name, amount) == salaries
    ensures forall other :: other in salaries && other != name ==> MarkPaid(salaries, name, amount)[other] == salaries[other]
    ensures name in salaries ==>
              && MarkPaid(salaries, name, amount)[name].paid == salaries[name].paid + amount
              && MarkPaid(salaries, name, amount)[name].earned == salaries[name].earned
              && MarkPaid(salaries, name, amount)[name].pending == Max0(salaries[name].earned - salaries[name].paid - amount)
  {
  }

  /**
   * The button pays the pending amount it shows. For an entry whose pending
   * amount is what is owed, the driver is then fully paid, the card shows
   * nothing pending and the button is gone.
   */
  lemma PayingPendingSettles(salaries: map<string, SalaryStatus>, name: string)
    requires OffersPayment(salaries, name)
    requires Settled(Displayed(salaries, name))
    ensures var after := MarkPaid(salaries, name, Displayed(salaries, name).pending);
            && name in salaries
            && after[name].paid == salaries[name].earned
            && after[name].pending == 0.0
            && !OffersPayment(after, name)
  {
  }

  /** A driver without an entry shows 0 earned, 0 paid, 0 pending, and no button. */
  lemma NoEntryShowsZero(salaries: map<string, SalaryStatus>, name: string)
    requires name !in salaries
    ensures Displayed(salaries, name) == SalaryStatus(0.0, 0.0, 0.0)
    ensures !OffersPayment(salaries, name)
  {
  }

  /** The cards: every registered driver, in the registry's order, with the status shown. */
  function Cards(salaries: map<string, SalaryStatus>): (r: seq<SalaryStatus>)
    ensures |r| == |Drivers.DriverTable|
    ensures forall i :: 0 <= i < |r| ==> r[i] == Displayed(salaries, Drivers.DriverTable[i].name)
  {
    CardsOf(salaries, Drivers.DriverTable)
  }

  function CardsOf(salaries: map<string, SalaryStatus>, ds: seq<Drivers.Driver>): (r: seq<SalaryStatus>)
    ensures |r| == |ds|
    ensures forall i :: 0 <= i < |r| ==> r[i] == Displayed(salaries, ds[i].name)
  {
    if ds == [] then [] else [Displayed(salaries, ds[0].name)] + CardsOf(salaries, ds[1..])
  }

  /** The panel: its state and the two storage keys it reads and writes. */
  class Panel {
    /** The component's `driverSalaries` state. */
    var driverSalaries: map<string, SalaryStatus>
    /** Browser storage under `driver_salaries`. */
    var storedSalaries: map<string, SalaryStatus>
    /** Browser storage under `salary_transactions`. */
    var payments: seq<SalaryPayment>

    /** Mounting loads the stored salaries; a missing key reads as `{}`. */
    constructor(stored: Option<map<string, SalaryStatus>>, log: seq<SalaryPayment>)
      ensures storedSalaries == stored.GetOr(map[]) && driverSalaries == storedSalaries
      ensures payments == log
    {
      storedSalaries := stored.GetOr(map[]);
      driverSalaries := stored.GetOr(map[]);
      payments := log;
    }

    /** `loadSalaryData`, which the panel also repeats on a timer. */
    method LoadSalaryData()
      modifies this`driverSalaries
      ensures driverSalaries == storedSalaries
    {
      driverSalaries := storedSalaries;
    }

    /**
     * `markSalaryAsPaid(driverName, amount)`: with an entry for the driver,
     * the entry is paid, the salaries are saved and shown, and one payment
     * is appended to the log; without one nothing happens.
     */
    method MarkSalaryAsPaid(driverName: string, amount: real, nowIso: string)
      modifies this
      ensures driverSalaries == MarkPaid(old(driverSalaries), driverName, amount)
      ensures driverName in old(driverSalaries) ==>
                && storedSalaries == driverSalaries
                && payments == old(payments) + [SalaryPayment(driverName, amount, nowIso, "salary_payment")]
      ensures driverName !in old(driverSalaries) ==> storedSalaries == old(storedSalaries) && payments == old(payments)
    {
      var updated := driverSalaries;
      if driverName in updated {
        var entry := updated[driverName];
        entry := entry.(paid := entry.paid + amount);
        entry := entry.(pending := Max0(entry.earned - entry.paid));
        updated := updated[driverName := entry];
        storedSalaries := updated;
        driverSalaries := updated;
        var log := payments;
        log := log + [SalaryPayment(driverName, amount, nowIso, "salary_payment")];
        payments := log;
      }
    }
  }
}
