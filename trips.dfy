/**
 * The trip record: the form's data, with the breakdown attached once it is
 * saved (`{...formData, calculations}`), as the dashboard, the reports and
 * the cache keep it.
 */
module Trips {
  import opened Wrappers
  import opened Money

  /** One `key: value` pair of a JavaScript object of amounts, in insertion order. */
  datatype Entry = Entry(key: string, amount: Raw)
  type Amounts = seq<Entry>

  datatype FuelType = Petrol | Cng | Diesel
  datatype FuelEntry = FuelEntry(fuelType: FuelType, amount: Raw)

  /** The ownerShare and ownerPercentage that only the alternate calculation reports. */
  datatype OwnerSplit = OwnerSplit(ownerShare: real, ownerPercentage: int)

  /** The result of `calculateTripEarnings`. */
  datatype Breakdown = Breakdown(
    totalPlatformEarnings: real,
    totalCashCollected: real,
    totalCommissions: real,
    totalFuelExpenses: real,
    totalEarnings: real,
    driverSalary: real,
    cashInHand: real,
    driverPercentage: int,
    owner: Option<OwnerSplit>)

  datatype Trip = Trip(
    date: string,
    driverName: string,
    startKm: Raw,
    endKm: Raw,
    totalKm: Raw,
    platformEarnings: Amounts,
    platformCash: Amounts,
    commissions: Amounts,
    hasUberCommission: bool,
    yatriTrips: Raw,
    fuelEntries: seq<FuelEntry>,
    onlinePayments: Raw,
    cashCollected: Raw,
    otherExpenses: Raw,
    driverTookSalary: bool,
    cashGivenToCashier: bool,
    totalCashCollected: Raw,
    cashInDriverHand: Raw,
    cashToCashier: Raw,
    calculations: Option<Breakdown>)

  function FuelTypeName(t: FuelType): string {
    match t
    case Petrol => "petrol"
    case Cng => "cng"
    case Diesel => "diesel"
  }

  /** `Object.values(m)` */
  function Values(m: Amounts): (vs: seq<Raw>)
    ensures |vs| == |m|
    ensures forall i :: 0 <= i < |m| ==> vs[i] == m[i].amount
  {
    if m == [] then [] else [m[0].amount] + Values(m[1..])
  }

  /** `m[k]`; a missing key reads as undefined, which the source treats like a blank field. */
  function Lookup(m: Amounts, k: string): Raw {
    if m == [] then Blank
    else if m[0].key == k then m[0].amount
    else Lookup(m[1..], k)
  }

  predicate HasKey(m: Amounts, k: string) {
    exists i :: 0 <= i < |m| && m[i].key == k
  }

  /** `{...m, [k]: v}`: an existing key keeps its place, a new one goes last. */
  function Put(m: Amounts, k: string, v: Raw): Amounts {
    if m == [] then [Entry(k, v)]
    else if m[0].key == k then [Entry(k, v)] + m[1..]
    else [m[0]] + Put(m[1..], k, v)
  }

  /** After `Put`, the key reads back the new value... */
  lemma {:induction false} PutLookupSame(m: Amounts, k: string, v: Raw)
    ensures Lookup(Put(m, k, v), k) == v
  {
    if m != [] && m[0].key != k {
      PutLookupSame(m[1..], k, v);
    }
  }

  /** ...and every other key reads what it read before. */
  lemma {:induction false} PutLookupOther(m: Amounts, k: string, v: Raw, j: string)
    requires j != k
    ensures Lookup(Put(m, k, v), j) == Lookup(m, j)
  {
    if m != [] && m[0].key != k {
      PutLookupOther(m[1..], k, v, j);
    }
  }

  /** `Put` on a key that is present changes no position: only that value. */
  lemma {:induction false} PutKeepsShape(m: Amounts, k: string, v: Raw)
    requires HasKey(m, k)
    ensures |Put(m, k, v)| == |m|
    ensures forall i :: 0 <= i < |m| ==> Put(m, k, v)[i].key == m[i].key
  {
    if m[0].key != k {
      assert HasKey(m[1..], k) by {
        var i :| 0 <= i < |m| && m[i].key == k;
        assert m[1..][i - 1].key == k;
      }
      PutKeepsShape(m[1..], k, v);
    }
  }

  /** The trips of one day: `trips.filter(trip => trip.date === date)`. */
  function TripsOnDate(trips: seq<Trip>, date: string): (r: seq<Trip>)
    ensures |r| <= |trips|
  {
    if trips == [] then []
    else TripsOnDate(trips[..|trips| - 1], date)
         + (if trips[|trips| - 1].date == date then [trips[|trips| - 1]] else [])
  }

  /** The day filter keeps exactly the trips of that date... */
  lemma {:induction false} TripsOnDateMembers(trips: seq<Trip>, date: string)
    ensures forall t :: t in TripsOnDate(trips, date) <==> t in trips && t.date == date
    decreases |trips|
  {
    if trips != [] {
      TripsOnDateMembers(trips[..|trips| - 1], date);
      assert trips == trips[..|trips| - 1] + [trips[|trips| - 1]];
    }
  }

  /** ...and it keeps their order: filtering a concatenation filters each part. */
  lemma {:induction false} TripsOnDateAppend(a: seq<Trip>, b: seq<Trip>, date: string)
    ensures TripsOnDate(a + b, date) == TripsOnDate(a, date) + TripsOnDate(b, date)
    decreases |b|
  {
    if b == [] {
      assert a + b == a;
    } else {
      assert (a + b)[..|a + b| - 1] == a + b[..|b| - 1];
      TripsOnDateAppend(a, b[..|b| - 1], date);
    }
  }
}
