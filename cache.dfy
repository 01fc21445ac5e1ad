/**
 * The browser cache (src/services/cacheService.js).
 *
 * Local storage is a map from keys to stored values. One shared timestamp,
 * under `TimestampKey`, decides for every key whether the cache may be read;
 * a per-date ledger of trip counts sits beside it. The clock is a parameter:
 * `now` is `Date.now()` in milliseconds and `today` the `YYYY-MM-DD` part of
 * `new Date().toISOString()`.
 *
 * The queries and the new state each mutator leaves are functions on a
 * `Store`; the class `CacheService` owns the store and its methods change it
 * as the source does, each proved to leave exactly the state the matching
 * function describes.
 */
module Cache {
  import opened Wrappers
  import opened Trips
  import opened Dates

  const CacheDuration: int := 24 * 60 * 60 * 1000
  const HourMs: int := 60 * 60 * 1000
  const WeekMs: int := 7 * 24 * 60 * 60 * 1000

  const TripsKey: string := "cached_trips_data"
  const TimestampKey: string := "cache_timestamp"
  const TripCountKey: string := "daily_trip_count"
  const DriverSalariesKey: string := "cached_driver_salaries"
  const CashierTransactionsKey: string := "cached_cashier_transactions"

  /** `Object.values(this.CACHE_KEYS)`, in declaration order. */
  const CacheKeys: seq<string> := [TripsKey, TimestampKey, TripCountKey, DriverSalariesKey, CashierTransactionsKey]

  /**
   * What a storage entry holds once read back: a timestamp, a list of trips,
   * a per-date count ledger, any other JSON value, or text that does not
   * parse.
   */
  datatype Value =
    | Stamp(ms: int)
    | TripList(trips: seq<Trip>)
    | Counts(counts: map<string, int>)
    | OtherJson(text: string)
    | Unreadable

  type Store = map<string, Value>

  // --------------------------------------------------------------- queries

  /** `isCacheValid(key)`: a readable timestamp under `key` less than 24 hours old. */
  predicate IsCacheValid(s: Store, key: string, now: int) {
    key in s && s[key].Stamp? && now - s[key].ms < CacheDuration
  }

  /** `isCacheValid()` with its default key, the shared timestamp. */
  predicate Valid(s: Store, now: int) {
    IsCacheValid(s, TimestampKey, now)
  }

  /** `getCachedData(key)`: the stored value while the shared timestamp is valid, else nothing. */
  function GetCachedData(s: Store, key: string, now: int): Option<Value> {
    if Valid(s, now) && key in s then Some(s[key]) else None
  }

  /** `getTodayTripCount()`: today's entry of the ledger, 0 when the ledger, the entry or a readable ledger is missing. */
  function TodayTripCount(s: Store, today: string): int {
    if TripCountKey in s && s[TripCountKey].Counts? && today in s[TripCountKey].counts
    then s[TripCountKey].counts[today]
    else 0
  }

  datatype CacheStatus = NoCache | ValidCache | ExpiredCache

  /** What `getCacheInfo()` returns; an unparsable timestamp gives an invalid date, `None` here, and no hour count. */
  datatype CacheInfo = CacheInfo(status: CacheStatus, lastRefresh: Option<int>, isValid: bool, hoursOld: Option<int>)

  /** `getCacheInfo()`: `Math.floor` of the age in hours is integer division by a positive divisor. */
  function CacheInfoOf(s: Store, now: int): CacheInfo {
    if TimestampKey !in s then CacheInfo(NoCache, None, false, None)
    else
      var valid := Valid(s, now);
      var status := if valid then ValidCache else ExpiredCache;
      match s[TimestampKey]
      case Stamp(ts) => CacheInfo(status, Some(ts), valid, Some((now - ts) / HourMs))
      case _ => CacheInfo(status, None, valid, None)
  }

  // ------------------------------------------------- state after a mutator

  /** `setCachedData(key, data)`: the value is stored, then the shared timestamp is reset to now. */
  function WithCachedData(s: Store, key: string, v: Value, now: int): Store {
    s[key := v][TimestampKey := Stamp(now)]
  }

  /** `incrementDailyTripCount()`: today's entry goes up by one; an unreadable ledger is left as it is. */
  function WithIncrementedCount(s: Store, today: string): Store {
    if TripCountKey !in s then s[TripCountKey := Counts(map[today := 1])]
    else match s[TripCountKey]
      case Counts(m) => s[TripCountKey := Counts(m[today := (if today in m then m[today] else 0) + 1])]
      case _ => s
  }

  /** The trips `addTripToCache` starts from: the cached list while it may be read, else none. */
  function CachedTrips(s: Store, now: int): seq<Trip> {
    match GetCachedData(s, TripsKey, now)
    case Some(TripList(ts)) => ts
    case _ => []
  }

  /** The store after `addTripToCache(trip)`. */
  function WithAddedTrip(s: Store, t: Trip, now: int, today: string): Store {
    WithIncrementedCount(WithCachedData(s, TripsKey, TripList(CachedTrips(s, now) + [t]), now), today)
  }

  /** `clearCache()`: all five keys are removed, nothing else. */
  function Cleared(s: Store): Store {
    s - {TripsKey, TimestampKey, TripCountKey, DriverSalariesKey, CashierTransactionsKey}
  }

  /** `clearExpiredCache()` */
  function ClearedIfExpired(s: Store, now: int): Store {
    if !Valid(s, now) then Cleared(s) else s
  }

  /** The ledger entries whose date is on or after the cut-off, with their counts. */
  function RecentCounts(m: map<string, int>, cutoff: int): map<string, int> {
    map k | k in m && OnOrAfter(k, cutoff) :: m[k]
  }

  /**
   * `cleanupOldTripCounts()`: only dates at most seven days old survive. A
   * JSON value that is not a ledger has no date keys and is rewritten as an
   * empty ledger; `null`, whose keys cannot be listed, and an unreadable
   * value are left alone.
   */
  function CleanedTripCounts(s: Store, now: int): Store {
    if TripCountKey !in s then s
    else match s[TripCountKey]
      case Counts(m) => s[TripCountKey := Counts(RecentCounts(m, now - WeekMs))]
      case Unreadable => s
      case OtherJson(text) => if text == "null" then s else s[TripCountKey := Counts(map[])]
      case _ => s[TripCountKey := Counts(map[])]
  }

  // ---------------------------------------------------------------- lemmas

  /** Without a timestamp, or with one 24 hours old or older, the cache is invalid; a younger one is valid. */
  lemma ValidityRule(s: Store, now: int)
    ensures TimestampKey !in s ==> !Valid(s, now)
    ensures TimestampKey in s && s[TimestampKey].Stamp?
            ==> (Valid(s, now) <==> now - s[TimestampKey].ms < 86400000)
  {
  }

  /** An invalid cache answers nothing for any key. */
  lemma ExpiredHidesEveryKey(s: Store, now: int, key: string)
    requires !Valid(s, now)
    ensures GetCachedData(s, key, now) == None
  {
  }

  /** While the cache is valid every stored key is answered with its value. */
  lemma ValidAnswersEveryKey(s: Store, now: int, key: string)
    requires Valid(s, now) && key in s
    ensures GetCachedData(s, key, now) == Some(s[key])
  {
  }

  /** Once expired, a cache stays expired as time goes on. */
  lemma ExpiryIsPermanent(s: Store, now: int, later: int)
    requires !Valid(s, now) && now <= later
    ensures !Valid(s, later)
  {
  }

  /** A stored value can be read back for the next 24 hours, and on a later reading nothing is returned. */
  lemma SetThenGet(s: Store, key: string, v: Value, now: int, later: int)
    requires key != TimestampKey
    ensures later - now < CacheDuration ==> GetCachedData(WithCachedData(s, key, v, now), key, later) == Some(v)
    ensures later - now >= CacheDuration ==> GetCachedData(WithCachedData(s, key, v, now), key, later) == None
  {
  }

  /** Storing one key leaves every other key's value as it was. */
  lemma SetKeepsOtherKeys(s: Store, key: string, v: Value, now: int, other: string)
    requires other != key && other != TimestampKey
    ensures other in WithCachedData(s, key, v, now) <==> other in s
    ensures other in s ==> WithCachedData(s, key, v, now)[other] == s[other]
  {
  }

  /**
   * The timestamp is shared: storing any key makes every other stored key
   * readable again, however old its value is.
   */
  lemma SetRefreshesEveryKey(s: Store, key: string, v: Value, now: int, other: string)
    requires other in s && other != key && other != TimestampKey
    ensures GetCachedData(WithCachedData(s, key, v, now), other, now) == Some(s[other])
  {
  }

  /** Incrementing adds exactly one to today's count and changes no other date and no other key. */
  lemma IncrementTouchesOnlyToday(s: Store, today: string, day: string, key: string)
    requires TripCountKey !in s || s[TripCountKey].Counts?
    ensures TodayTripCount(WithIncrementedCount(s, today), today) == TodayTripCount(s, today) + 1
    ensures day != today ==> TodayTripCount(WithIncrementedCount(s, today), day) == TodayTripCount(s, day)
    ensures key != TripCountKey ==> (key in WithIncrementedCount(s, today) <==> key in s)
    ensures key != TripCountKey && key in s ==> WithIncrementedCount(s, today)[key] == s[key]
  {
  }

  /** An unreadable ledger makes incrementing a no-op. */
  lemma IncrementUnreadableLedger(s: Store, today: string)
    requires TripCountKey in s && s[TripCountKey] == Unreadable
    ensures WithIncrementedCount(s, today) == s
  {
  }

  /**
   * After `addTripToCache` the cached trips are the previously readable
   * ones followed by the new trip, the cache is valid, and today's count
   * has gone up by one.
   */
  lemma AddTripAppends(s: Store, t: Trip, now: int, today: string)
    requires TripCountKey !in s || s[TripCountKey].Counts?
    ensures GetCachedData(WithAddedTrip(s, t, now, today), TripsKey, now) == Some(TripList(CachedTrips(s, now) + [t]))
    ensures TodayTripCount(WithAddedTrip(s, t, now, today), today) == TodayTripCount(s, today) + 1
    ensures Valid(WithAddedTrip(s, t, now, today), now)
  {
    var s1 := WithCachedData(s, TripsKey, TripList(CachedTrips(s, now) + [t]), now);
    assert TodayTripCount(s1, today) == TodayTripCount(s, today);
    IncrementTouchesOnlyToday(s1, today, today, TripsKey);
    IncrementTouchesOnlyToday(s1, today, today, TimestampKey);
  }

  /** Adding to an expired cache starts the list afresh: the old trips are dropped. */
  lemma AddTripToExpiredCache(s: Store, t: Trip, now: int, today: string)
    requires !Valid(s, now)
    ensures CachedTrips(s, now) == []
    ensures CachedTrips(WithAddedTrip(s, t, now, today), now) == [t]
  {
    assert CachedTrips(s, now) + [t] == [t];
    var s1 := WithCachedData(s, TripsKey, TripList([t]), now);
    assert WithAddedTrip(s, t, now, today) == WithIncrementedCount(s1, today);
    assert WithIncrementedCount(s1, today)[TripsKey] == TripList([t]);
  }

  /** Clearing removes the five keys: the cache is invalid, nothing is answered and every count is 0. */
  lemma ClearForgetsEverything(s: Store, now: int, day: string, key: string)
    ensures !Valid(Cleared(s), now)
    ensures GetCachedData(Cleared(s), key, now) == None
    ensures TodayTripCount(Cleared(s), day) == 0
    ensures forall k :: k in CacheKeys ==> k !in Cleared(s)
    ensures key !in CacheKeys ==> (key in Cleared(s) <==> key in s)
  {
  }

  /** Clearing expired entries does nothing to a valid cache and clears an invalid one. */
  lemma ClearExpiredRule(s: Store, now: int)
    ensures Valid(s, now) ==> ClearedIfExpired(s, now) == s
    ensures !Valid(s, now) ==> ClearedIfExpired(s, now) == Cleared(s)
    ensures !Valid(ClearedIfExpired(s, now), now) <==> !Valid(s, now)
  {
  }

  /** The kept ledger: exactly the dates on or after now minus seven days, with their counts. */
  lemma CleanupKeepsRecentDates(s: Store, now: int, day: string)
    requires TripCountKey in s && s[TripCountKey].Counts?
    ensures CleanedTripCounts(s, now)[TripCountKey].Counts?
    ensures day in CleanedTripCounts(s, now)[TripCountKey].counts
            <==> day in s[TripCountKey].counts && OnOrAfter(day, now - 7 * 86400000)
    ensures day in CleanedTripCounts(s, now)[TripCountKey].counts
            ==> CleanedTripCounts(s, now)[TripCountKey].counts[day] == s[TripCountKey].counts[day]
  {
  }

  /** Without a ledger, with an unreadable one or with JSON `null`, cleaning up changes nothing. */
  lemma CleanupWithoutLedger(s: Store, now: int)
    requires TripCountKey !in s || s[TripCountKey] == Unreadable || s[TripCountKey] == OtherJson("null")
    ensures CleanedTripCounts(s, now) == s
  {
  }

  /** Cleaning up twice at the same instant is cleaning up once. */
  lemma CleanupIdempotent(s: Store, now: int)
    ensures CleanedTripCounts(CleanedTripCounts(s, now), now) == CleanedTripCounts(s, now)
  {
    if TripCountKey in s && s[TripCountKey].Counts? {
      var m := s[TripCountKey].counts;
      var r := RecentCounts(m, now - WeekMs);
      assert RecentCounts(r, now - WeekMs) == r;
    }
  }

  /**
   * The info record agrees with the validity test; its hour count is the
   * age in whole hours, rounded down.
   */
  lemma CacheInfoAgrees(s: Store, now: int)
    ensures CacheInfoOf(s, now).isValid == Valid(s, now)
    ensures CacheInfoOf(s, now).status == NoCache <==> TimestampKey !in s
    ensures CacheInfoOf(s, now).status == ValidCache <==> Valid(s, now)
    ensures TimestampKey in s && s[TimestampKey].Stamp? ==>
              var age := now - s[TimestampKey].ms;
              && CacheInfoOf(s, now).lastRefresh == Some(s[TimestampKey].ms)
              && CacheInfoOf(s, now).hoursOld.Some?
              && CacheInfoOf(s, now).hoursOld.value * 3600000 <= age
              && age < (CacheInfoOf(s, now).hoursOld.value + 1) * 3600000
  {
  }

  // ----------------------------------------------------------------- class

  /** The service object; `store` is the browser's local storage. */
  class CacheService {
    var store: Store

    constructor(initial: Store)
      ensures store == initial
    {
      store := initial;
    }

    method SetCachedData(key: string, v: Value, now: int)
      modifies this
      ensures store == WithCachedData(old(store), key, v, now)
    {
      store := store[key := v];
      store := store[TimestampKey := Stamp(now)];
    }

    method IncrementDailyTripCount(today: string)
      modifies this
      ensures store == WithIncrementedCount(old(store), today)
    {
      if TripCountKey !in store {
        var data: map<string, int> := map[];
        data := data[today := 1];
        store := store[TripCountKey := Counts(data)];
      } else {
        match store[TripCountKey]
        case Counts(data) =>
          var current := if today in data then data[today] else 0;
          data := data[today := current + 1];
          store := store[TripCountKey := Counts(data)];
        case _ =>
      }
    }

    method AddTripToCache(t: Trip, now: int, today: string) returns (updated: seq<Trip>)
      modifies this
      ensures updated == CachedTrips(old(store), now) + [t]
      ensures store == WithAddedTrip(old(store), t, now, today)
    {
      var cached := CachedTrips(store, now);
      updated := cached + [t];
      SetCachedData(TripsKey, TripList(updated), now);
      IncrementDailyTripCount(today);
    }

    method ClearCache()
      modifies this
      ensures store == Cleared(old(store))
    {
      for i := 0 to |CacheKeys|
        invariant store == old(store) - (set j | 0 <= j < i :: CacheKeys[j])
      {
        assert (set j | 0 <= j < i + 1 :: CacheKeys[j]) == (set j | 0 <= j < i :: CacheKeys[j]) + {CacheKeys[i]};
        store := store - {CacheKeys[i]};
      }
      var all := set j | 0 <= j < |CacheKeys| :: CacheKeys[j];
      assert CacheKeys[0] in all && CacheKeys[1] in all && CacheKeys[2] in all;
      assert CacheKeys[3] in all && CacheKeys[4] in all;
      assert all == {TripsKey, TimestampKey, TripCountKey, DriverSalariesKey, CashierTransactionsKey};
    }

    method ClearExpiredCache(now: int)
      modifies this
      ensures store == ClearedIfExpired(old(store), now)
    {
      if !Valid(store, now) {
        ClearCache();
      }
    }

    method CleanupOldTripCounts(now: int)
      modifies this
      ensures store == CleanedTripCounts(old(store), now)
    {
      if TripCountKey !in store {
        return;
      }
      match store[TripCountKey]
      case Counts(data) =>
        var cutoff := now - WeekMs;
        var cleaned: map<string, int> := map[];
        var pending := data.Keys;
        while pending != {}
          invariant pending <= data.Keys
          invariant cleaned == map k | k in data && k !in pending && OnOrAfter(k, cutoff) :: data[k]
          decreases pending
        {
          var k :| k in pending;
          if OnOrAfter(k, cutoff) {
            cleaned := cleaned[k := data[k]];
          }
          pending := pending - {k};
        }
        assert cleaned == RecentCounts(data, cutoff);
        store := store[TripCountKey := Counts(cleaned)];
      case Unreadable =>
      case OtherJson(text) =>
        if text != "null" {
          store := store[TripCountKey := Counts(map[])];
        }
      case _ =>
        store := store[TripCountKey := Counts(map[])];
    }
  }
}
