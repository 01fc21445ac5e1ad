// The fleet dashboard page (src/pages/Dashboard.jsx): how it loads trips
// through the cache, refreshes, appends a new trip and picks a day's trips.

/**
 * The page state is a class; the state one load, refresh or new trip leaves
 * is described by pure functions over the cache store and the page's trips,
 * and each method is proved to reach exactly that state. The remote fetch is
 * an input outcome, and the clock is read at two instants: `now` before the
 * fetch and `later` after it.
 */
module Dashboard {
  import opened Wrappers
  import opened Trips
  import opened Cache

  /** What `sheetDBService.getTrips()` gives back: the rows, or a thrown error. */
  datatype FetchOutcome = Fetched(rows: seq<Trip>) | FetchFailed

  /**
   * Every value `cacheInfo.status` can take: the page's own labels, and the
   * three that `getCacheInfo()` writes under the same name.
   */
  datatype Label =
    | Checking | Cached | Fetching | Fresh | Error | Stale | Updated
    | ReportedNone | ReportedValid | ReportedExpired

  /** The `cacheInfo` object; a field the object lacks is `None`. */
  datatype Shown = Shown(status: Label, lastRefresh: Option<int>, isValid: Option<bool>, hoursOld: Option<int>)

  /** `{ status: l }` alone. */
  function Bare(l: Label): Shown {
    Shown(l, None, None, None)
  }

  /** The label `getCacheInfo()` writes for a cache status. */
  function ReportedLabel(c: CacheStatus): Label {
    match c
    case NoCache => ReportedNone
    case ValidCache => ReportedValid
    case ExpiredCache => ReportedExpired
  }

  /** `{ status: l, ...getCacheInfo() }`: the spread is written last, so its `status` replaces `l`. */
  function SpreadInfo(l: Label, c: CacheInfo): Shown {
    Shown(ReportedLabel(c.status), c.lastRefresh, Some(c.isValid), c.hoursOld)
  }

  /** `{ ...getCacheInfo(), status: l }`: the same fields with the page's label kept. */
  function LabelInfo(l: Label, c: CacheInfo): Shown {
    Shown(l, c.lastRefresh, Some(c.isValid), c.hoursOld)
  }

  /** The trips, status and store the page shows after an operation. */
  datatype View = View(trips: seq<Trip>, info: Shown, store: Store)

  /**
   * What `setTrips(cachedTrips)` hands the view. The page only ever caches
   * lists of trips; any other value under the trips key is read as no trips.
   */
  function TripsOf(v: Value): seq<Trip> {
    if v.TripList? then v.trips else []
  }

  /** `loadTripsWithCache()`, as written. */
  function Load(s: Store, trips: seq<Trip>, outcome: FetchOutcome, now: int, later: int): View {
    var cached := GetCachedData(s, TripsKey, now);
    if cached.Some? && Valid(s, now) then
      View(TripsOf(cached.value), SpreadInfo(Cached, CacheInfoOf(s, now)), s)
    else match outcome
      case Fetched(rows) =>
        var s' := WithCachedData(s, TripsKey, TripList(rows), later);
        View(rows, SpreadInfo(Fresh, CacheInfoOf(s', later)), s')
      case FetchFailed =>
        var fallback := GetCachedData(s, TripsKey, later);
        if fallback.Some? then View(TripsOf(fallback.value), SpreadInfo(Stale, CacheInfoOf(s, later)), s)
        else View(trips, Bare(Error), s)
  }

  /**
   * `loadTripsWithCache()` as its comments intend: the labels survive, and
   * the offline fallback reads the stored trips even when they have expired.
   */
  function LoadCorrected(s: Store, trips: seq<Trip>, outcome: FetchOutcome, now: int, later: int): View {
    var cached := GetCachedData(s, TripsKey, now);
    if cached.Some? then
      View(TripsOf(cached.value), LabelInfo(Cached, CacheInfoOf(s, now)), s)
    else match outcome
      case Fetched(rows) =>
        var s' := WithCachedData(s, TripsKey, TripList(rows), later);
        View(rows, LabelInfo(Fresh, CacheInfoOf(s', later)), s')
      case FetchFailed =>
        if TripsKey in s then View(TripsOf(s[TripsKey]), LabelInfo(Stale, CacheInfoOf(s, later)), s)
        else View(trips, Bare(Error), s)
  }

  /** The view after `handleTripAdded(newTrip)`. */
  function AfterTripAdded(s: Store, trips: seq<Trip>, t: Trip, now: int, today: string): View {
    var s' := WithIncrementedCount(WithCachedData(s, TripsKey, TripList(trips + [t]), now), today);
    View(trips + [t], SpreadInfo(Updated, CacheInfoOf(s', now)), s')
  }

  // ---------------------------------------------------------------- lemmas

  /** The spread always replaces a page label by one of the cache's own three. */
  lemma SpreadHidesLabel(l: Label, c: CacheInfo)
    requires l in {Cached, Fresh, Stale, Updated}
    ensures SpreadInfo(l, c).status != l
    ensures SpreadInfo(l, c).status in {ReportedNone, ReportedValid, ReportedExpired}
  {
  }

  /** With the label written after the spread, the page's label is shown beside the cache's own fields. */
  lemma LabelInfoKeepsLabel(l: Label, c: CacheInfo)
    ensures LabelInfo(l, c).status == l
    ensures LabelInfo(l, c) == SpreadInfo(l, c).(status := l)
    ensures LabelInfo(l, c).isValid == Some(c.isValid) && LabelInfo(l, c).hoursOld == c.hoursOld
  {
  }

  /** When the stored trips may be read, they are shown; no fetch happens and nothing is written. */
  lemma CachedLoadSkipsFetch(s: Store, trips: seq<Trip>, o1: FetchOutcome, o2: FetchOutcome, now: int, l1: int, l2: int)
    requires Valid(s, now) && TripsKey in s
    ensures Load(s, trips, o1, now, l1) == Load(s, trips, o2, now, l2)
    ensures Load(s, trips, o1, now, l1).store == s
    ensures Load(s, trips, o1, now, l1).trips == TripsOf(s[TripsKey])
    ensures Load(s, trips, o1, now, l1).info.status == ReportedValid
  {
    ValidAnswersEveryKey(s, now, TripsKey);
  }

  /** Without readable cached trips, a successful fetch is shown and cached, and reads back at once. */
  lemma FreshLoadIsCached(s: Store, trips: seq<Trip>, rows: seq<Trip>, now: int, later: int)
    requires GetCachedData(s, TripsKey, now).None?
    ensures Load(s, trips, Fetched(rows), now, later).trips == rows
    ensures GetCachedData(Load(s, trips, Fetched(rows), now, later).store, TripsKey, later) == Some(TripList(rows))
    ensures Load(s, trips, Fetched(rows), now, later).info.status == ReportedValid
  {
    SetThenGet(s, TripsKey, TripList(rows), later, later);
  }

  /**
   * A failed fetch after the cache has expired never shows the stored trips:
   * the page keeps what it had and shows the bare error label, even when the
   * expired store still holds trips.
   */
  lemma ExpiredFallbackNeverFires(s: Store, trips: seq<Trip>, now: int, later: int)
    requires !Valid(s, now) && now <= later
    ensures Load(s, trips, FetchFailed, now, later) == View(trips, Bare(Error), s)
  {
    ExpiredHidesEveryKey(s, now, TripsKey);
    ExpiryIsPermanent(s, now, later);
    ExpiredHidesEveryKey(s, later, TripsKey);
  }

  /** A failed fetch never changes the store, whichever branch is taken. */
  lemma FailedLoadKeepsStore(s: Store, trips: seq<Trip>, now: int, later: int)
    ensures Load(s, trips, FetchFailed, now, later).store == s
    ensures LoadCorrected(s, trips, FetchFailed, now, later).store == s
  {
  }

  /** One expired store with one trip in it: the page shows none, the corrected plan shows it. */
  lemma ExpiredFallbackExample(t: Trip)
    ensures var s := map[TripsKey := TripList([t]), TimestampKey := Stamp(0)];
            && Load(s, [], FetchFailed, CacheDuration, CacheDuration).trips == []
            && LoadCorrected(s, [], FetchFailed, CacheDuration, CacheDuration).trips == [t]
            && LoadCorrected(s, [], FetchFailed, CacheDuration, CacheDuration).info.status == Stale
  {
    var s := map[TripsKey := TripList([t]), TimestampKey := Stamp(0)];
    assert !Valid(s, CacheDuration);
    ExpiredFallbackNeverFires(s, [], CacheDuration, CacheDuration);
  }

  /** The corrected fallback shows whatever trips the store still holds, with the stale label. */
  lemma CorrectedFallbackUsesStoredTrips(s: Store, trips: seq<Trip>, now: int, later: int)
    requires !Valid(s, now) && TripsKey in s
    ensures LoadCorrected(s, trips, FetchFailed, now, later).trips == TripsOf(s[TripsKey])
    ensures LoadCorrected(s, trips, FetchFailed, now, later).info.status == Stale
  {
    ExpiredHidesEveryKey(s, now, TripsKey);
  }

  /** The corrected plan differs from the written one only in the labels and the expired fallback. */
  lemma CorrectedAgreesWhileReadable(s: Store, trips: seq<Trip>, o: FetchOutcome, now: int, later: int)
    requires Valid(s, now) || o.Fetched?
    ensures LoadCorrected(s, trips, o, now, later).trips == Load(s, trips, o, now, later).trips
    ensures LoadCorrected(s, trips, o, now, later).store == Load(s, trips, o, now, later).store
  {
  }

  /** After `clearCache()` nothing may be read, so a refresh always goes to the network. */
  lemma RefreshAlwaysFetches(s: Store, trips: seq<Trip>, o: FetchOutcome, now: int, later: int)
    ensures o.Fetched? ==> Load(Cleared(s), trips, o, now, later).trips == o.rows
    ensures o.Fetched? ==> Load(Cleared(s), trips, o, now, later).store
                           == WithCachedData(Cleared(s), TripsKey, TripList(o.rows), later)
    ensures o.FetchFailed? ==> Load(Cleared(s), trips, o, now, later) == View(trips, Bare(Error), Cleared(s))
  {
    ClearForgetsEverything(s, now, "", TripsKey);
    ClearForgetsEverything(s, later, "", TripsKey);
  }

  /**
   * A new trip is appended to the page's list, that list is what the cache
   * now answers, today's count rises by one over a readable ledger, and the
   * status the page shows is the cache's 'valid'.
   */
  lemma TripAddedRule(s: Store, trips: seq<Trip>, t: Trip, now: int, today: string)
    requires TripCountKey !in s || s[TripCountKey].Counts?
    ensures AfterTripAdded(s, trips, t, now, today).trips == trips + [t]
    ensures GetCachedData(AfterTripAdded(s, trips, t, now, today).store, TripsKey, now) == Some(TripList(trips + [t]))
    ensures TodayTripCount(AfterTripAdded(s, trips, t, now, today).store, today) == TodayTripCount(s, today) + 1
    ensures AfterTripAdded(s, trips, t, now, today).info.status == ReportedValid
  {
    var s1 := WithCachedData(s, TripsKey, TripList(trips + [t]), now);
    var s2 := WithIncrementedCount(s1, today);
    SetThenGet(s, TripsKey, TripList(trips + [t]), now, now);
    assert s2[TimestampKey] == s1[TimestampKey];
    assert s2[TripsKey] == s1[TripsKey];
    assert TodayTripCount(s1, today) == TodayTripCount(s, today);
  }

  /**
   * When the page's list is the cached one, adding a trip leaves the store
   * exactly as the service's own `addTripToCache` would.
   */
  lemma TripAddedMatchesService(s: Store, t: Trip, now: int, today: string)
    ensures Valid(s, now) && TripsKey in s && s[TripsKey].TripList? ==>
              AfterTripAdded(s, CachedTrips(s, now), t, now, today).store == WithAddedTrip(s, t, now, today)
  {
  }

  // ----------------------------------------------------------------- class

  /** The page's state; `cache` is the shared cache service. */
  class Page {
    var trips: seq<Trip>
    var selectedDate: string
    var showTripForm: bool
    var loading: bool
    var info: Shown
    const cache: CacheService

    constructor(service: CacheService, today: string)
      ensures cache == service && selectedDate == today
      ensures trips == [] && !showTripForm && loading && info == Bare(Checking)
    {
      cache := service;
      selectedDate := today;
      trips := [];
      showTripForm := false;
      loading := true;
      info := Bare(Checking);
    }

    /** `loadTripsWithCache()` */
    method LoadTripsWithCache(outcome: FetchOutcome, now: int, later: int)
      modifies this, cache
      ensures View(trips, info, cache.store) == Load(old(cache.store), old(trips), outcome, now, later)
      ensures !loading && showTripForm == old(showTripForm) && selectedDate == old(selectedDate)
    {
      loading := true;
      info := Bare(Checking);
      var cached := GetCachedData(cache.store, TripsKey, now);
      if cached.Some? && Valid(cache.store, now) {
        trips := TripsOf(cached.value);
        info := SpreadInfo(Cached, CacheInfoOf(cache.store, now));
        loading := false;
        return;
      }
      info := Bare(Fetching);
      match outcome {
      case Fetched(rows) =>
        cache.SetCachedData(TripsKey, TripList(rows), later);
        trips := rows;
        info := SpreadInfo(Fresh, CacheInfoOf(cache.store, later));
      case FetchFailed =>
        info := Bare(Error);
        var fallback := GetCachedData(cache.store, TripsKey, later);
        if fallback.Some? {
          trips := TripsOf(fallback.value);
          info := SpreadInfo(Stale, CacheInfoOf(cache.store, later));
        }
      }
      loading := false;
    }

    /** `forceRefresh()`: clear every cache key, then load. */
    method ForceRefresh(outcome: FetchOutcome, now: int, later: int)
      modifies this, cache
      ensures View(trips, info, cache.store) == Load(Cleared(old(cache.store)), old(trips), outcome, now, later)
      ensures !loading && showTripForm == old(showTripForm) && selectedDate == old(selectedDate)
    {
      cache.ClearCache();
      LoadTripsWithCache(outcome, now, later);
    }

    /** `handleTripAdded(newTrip)` */
    method HandleTripAdded(t: Trip, now: int, today: string)
      modifies this, cache
      ensures View(trips, info, cache.store) == AfterTripAdded(old(cache.store), old(trips), t, now, today)
      ensures !showTripForm && loading == old(loading) && selectedDate == old(selectedDate)
    {
      var updated := trips + [t];
      trips := updated;
      cache.SetCachedData(TripsKey, TripList(updated), now);
      cache.IncrementDailyTripCount(today);
      showTripForm := false;
      info := SpreadInfo(Updated, CacheInfoOf(cache.store, now));
    }

    /** The mount effect: load, then prune the trip-count ledger. */
    method Mount(outcome: FetchOutcome, now: int, later: int)
      modifies this, cache
      ensures trips == Load(old(cache.store), old(trips), outcome, now, later).trips
      ensures info == Load(old(cache.store), old(trips), outcome, now, later).info
      ensures cache.store == CleanedTripCounts(Load(old(cache.store), old(trips), outcome, now, later).store, later)
      ensures !loading
    {
      LoadTripsWithCache(outcome, now, later);
      cache.CleanupOldTripCounts(later);
    }

    /** `getDailyTrips()`: exactly the page's trips dated on the selected day, in their order. */
    function DailyTrips(): (r: seq<Trip>)
      reads this
      ensures forall x :: x in r <==> x in trips && x.date == selectedDate
    {
      TripsOnDateMembers(trips, selectedDate);
      TripsOnDate(trips, selectedDate)
    }
  }
}
