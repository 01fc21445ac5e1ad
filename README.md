# Fleet dashboard: trip money, cache and reports, in Dafny

This project models the core of a taxi-fleet dashboard. Drivers enter one
trip a day in a form: earnings and cash per platform (Uber, InDrive, Yatri,
Rapido, offline), commissions, fuel and other expenses, and whether they
took their salary or handed cash to the cashier. The form derives a
breakdown from these fields: total earnings, the driver's salary as a
percentage of the earnings, and the cash left in the driver's hand. The
trip is saved to a spreadsheet service, together with a running salary
record per driver and month, and the dashboard keeps the trips in a
browser cache that is valid for 24 hours. Around these sit:

- a day view of the trips with summary cards;
- a report per driver and month, with a monthly salary summary and a CSV export;
- a salary panel kept in browser storage;
- a cashier panel with today's transactions, the net of the last seven days and the ten latest transactions.

Modules, one per source file:

| module | file | form |
|---|---|---|
| `Wrappers` | (shared) | `Option` |
| `Money` | rounding and summing of `src/utils/calculations.js` | functions and lemmas |
| `Drivers` | `src/data/drivers.js` | constant tables and lemmas |
| `Dates` | date strings as `new Date(...)` reads them | functions and lemmas |
| `Trips` | the trip record shared by all components | datatypes, functions |
| `Calculations` | `src/utils/calculations.js` and `calc-test.js` | functions, lemmas, methods for the loops |
| `Cache` | `src/services/cacheService.js` | functions over a store, class `CacheService` |
| `Dashboard` | `src/pages/Dashboard.jsx` | functions, class `Page` |
| `TripForm` | `src/components/TripForm.jsx` | functions, class `Form` |
| `Sheets` | `src/services/sheetdb.js` | functions, one method |
| `DriverReport` | `src/components/DriverReport.jsx` | functions, class `Report` |
| `DailySummary` | `src/components/SummaryCard.jsx` | functions and lemmas |
| `SalaryPanel` | `src/components/DriverSalaryPanel.jsx` | functions, class `Panel` |
| `Cashier` | `src/components/CashierPanel.jsx` | functions, class `Panel` |

These modelling choices apply throughout:

- **Money** is a `real` number of rupees. `parseFloat(x.toFixed(2))` is
  `Money.Round2`, which rounds half away from zero to whole paise.
- **Form fields** are `Raw`: blank, a number, or text that does not parse.
  `parseFloat(x) || 0` is `Money.Coerce`.
- **JavaScript objects of amounts** are association lists in insertion
  order, because the summary text depends on that order.
- **Two calculation engines.** The repository holds two versions of
  `calculateTripEarnings`, and they disagree on policy; both are modelled
  as `Calculations.Policy`:
  - `Primary` (`src/utils/calculations.js`) pays every driver a constant 35%.
    Only commissions reduce the earnings; fuel and other expenses come out
    of the driver's cash.
  - `Alternate` (`calc-test.js`) looks the percentage up in its own
    four-driver table, with 35 as the fallback. Fuel and other expenses
    reduce the earnings, and it also reports the owner's share.

  The application imports `Primary`, so the form, the report and the
  summaries use it.
- **The cache** is pure functions over a `Store` (the browser's local
  storage as a map). The class `Cache.CacheService` owns the store, and
  each of its methods is proved to leave exactly the state the matching
  function describes.
- **Page and component state** is a class per component (`Dashboard.Page`,
  `TripForm.Form`, `DriverReport.Report`, `SalaryPanel.Panel`,
  `Cashier.Panel`). Each method is proved against a pure function of the
  old state.
- **Network calls** are inputs. Each remote call appears as an outcome
  parameter (`FetchOutcome`, `saved`, `callOk`) or as a recorded request.
- **Clocks** are parameters: `now` in milliseconds, and `today` or `nowIso`
  as text.

Where the code's own labels and comments disagree with its behaviour, the
model follows the behaviour:

- The dashboard's status labels. The page sets the labels `'cached'`,
  `'fresh'`, `'stale'` and `'updated'` (`src/pages/Dashboard.jsx:37, 52,
  64, 87`) and renders a banner for each (lines 108-128, 196-197). The code
  spreads `getCacheInfo()` after the label, so the status shown is always
  `'valid'`, `'expired'` or `'none'` (`Dashboard.SpreadHidesLabel`).
- The salary percentage. The percentage actually applied is a constant 35
  (`src/utils/calculations.js:4-6`). This differs from the registry's 30 for
  Vivek Bali, and from the "65%" label the form displays at
  `src/components/TripForm.jsx:781`.

## Model

| member | source | states |
|---|---|---|
| Money.Round2 | src/utils/calculations.js:50-56 | defines `parseFloat(x.toFixed(2))` on an exact amount; its properties are the `Round2` lemmas below |
| Money.Coerce | src/utils/calculations.js:21-30 | defines `parseFloat(x) \|\| 0` on a form field: the number, or 0 for blank and unparsable text |
| Money.Round2Bounds | src/utils/calculations.js:50-56 | a rounded amount is a whole number of paise, keeps the sign of its input and is within half a paisa of it |
| Money.Round2Zero | src/utils/calculations.js:50-56 | zero rounds to zero |
| Money.Round2Fixes | src/utils/calculations.js:50-56 | an amount already in whole paise is left unchanged by rounding |
| Money.Round2Idempotent | src/utils/calculations.js:50-56 | rounding twice is the same as rounding once |
| Money.Round2Monotone | src/utils/calculations.js:50-56 | rounding preserves order: a larger amount never rounds below a smaller one |
| Money.FloorOfWhole | src/utils/calculations.js:50-56 | a whole number of paise survives the scaling and the half-up floor that rounding performs |
| Money.NumbersOnly | src/utils/calculations.js:21-30 | the selected entries are all parsed numbers |
| Money.SumRawAppend | src/utils/calculations.js:21-30 | the `parseFloat(x) \|\| 0` sum of a concatenation is the sum of the parts' sums |
| Money.SumRawIgnoresNonNumbers | src/utils/calculations.js:21-30 | blank and unparsable fields add nothing: the sum equals the sum of the numeric entries alone |
| Money.SumRawNoNumbers | src/utils/calculations.js:21-30 | with no numeric entry (an empty object, all fields blank) the sum is 0 |
| Drivers.PlatformIds | src/data/drivers.js:42-48 | one id per platform, position by position |
| Drivers.DriversDistinct | src/data/drivers.js:2-39 | no two registered drivers share an id or a name |
| Drivers.PercentagesInRange | src/data/drivers.js:2-39 | every salary percentage lies in 0..100; it is 30 for Vivek Bali and 35 for every other driver |
| Drivers.PlatformIdsExact | src/data/drivers.js:42-48 | the platform ids are exactly uber, indrive, yatri, rapido, offline, in that order and without repeats |
| Drivers.CommissionPlatformsExist | src/data/drivers.js:51-54 | every commission kind names a platform that exists in the platform table |
| Dates.ParseYearMonth | src/components/DriverReport.jsx:8 | an accepted `YYYY-MM` text has a month in 1..12 and a year in 0..9999 |
| Dates.ParseIsoDate | src/utils/calculations.js:165-166 | an accepted date is ten characters long, its first seven parse as its own year and month, and its day exists in that month |
| Dates.DayNumberNextDay | src/services/cacheService.js:131-133 | consecutive days of a month are exactly one day number apart |
| Dates.EpochIsZero | src/services/cacheService.js:131-133 | "1970-01-01" is instant 0 |
| Dates.PrefixFixesMonth | src/components/DriverReport.jsx:20-22 | a valid date that starts with a seven-character month text falls in exactly the calendar month that text names |
| Trips.Values | src/components/TripForm.jsx:151-179 | `Object.values` gives each entry's amount, in insertion order, one per entry |
| Trips.PutLookupSame | src/components/TripForm.jsx:151-179 | after `{...m, [k]: v}` the key k reads v |
| Trips.PutLookupOther | src/components/TripForm.jsx:151-179 | after `{...m, [k]: v}` every other key reads what it read before |
| Trips.PutKeepsShape | src/components/TripForm.jsx:151-179 | overwriting a present key keeps every key in its position and the object's size |
| Trips.TripsOnDate | src/pages/Dashboard.jsx:91-93 | the day filter never returns more trips than it was given |
| Trips.TripsOnDateMembers | src/pages/Dashboard.jsx:91-93 | a trip is kept if and only if it is in the list and dated that day |
| Trips.TripsOnDateAppend | src/pages/Dashboard.jsx:91-93 | the day filter preserves order: filtering a concatenation concatenates the filtered parts |
| Calculations.FuelAmounts | src/utils/calculations.js:30 | one amount per fuel entry, in order |
| Calculations.CalculateTripEarnings | src/utils/calculations.js:8-59 | the cash in hand is never negative; the salary is within half a paisa of the unrounded share of the earnings; only the alternate version reports an owner split |
| Calculations.BreakdownInPaise | src/utils/calculations.js:49-58 | every amount of the breakdown is a whole number of paise |
| Calculations.EmptyTripIsZero | src/utils/calculations.js:9-30 | with no numeric earning, commission or fuel amount, and for the alternate version (`calc-test.js`) no numeric other expenses, every total and the salary are 0 |
| Calculations.PrimaryEarningsIgnoreExpenses | src/utils/calculations.js:32-34 | primary earnings are the rounded platform total minus commissions; changing fuel or other expenses changes neither the earnings nor the salary |
| Calculations.AlternateEarningsNetExpenses | calc-test.js:27-32 | the alternate earnings also subtract fuel and other expenses, and the two versions' unrounded earnings differ by exactly fuel plus other expenses |
| Calculations.PrimaryPercentageConstant | src/utils/calculations.js:4-6 | the primary version applies 35% to every driver, whatever the name |
| Calculations.AlternatePercentageLookup | calc-test.js:2-12 | the alternate lookup gives Vivek Bali 30 and any name outside its table 35, always within 0..100 |
| Calculations.PoliciesAgainstRegistry | calc-test.js:2-12 | the alternate percentages agree with the registry for every registered driver, while the primary 35 differs from the registry's 30 for Vivek Bali |
| Calculations.SalaryNegativeWhenCommissionsExceed | src/utils/calculations.js:34-40 | when commissions exceed the platform earnings, the earnings and the salary are at most 0; neither is clamped |
| Calculations.BasesNegative | src/utils/calculations.js:34-40 | the unrounded earnings are negative and the unrounded salary is at most 0 when commissions exceed earnings |
| Calculations.NegativeShare | src/utils/calculations.js:40 | a non-negative percentage of a loss is not a gain |
| Calculations.CashFallbackChain | src/utils/calculations.js:44 | the cash total is the per-platform cash when that sum is non-zero, else the typed total, else 0 |
| Calculations.AlternateOwnerSplit | calc-test.js:34-38 | before rounding, driver salary plus owner share is exactly the earnings, and the owner's percentage is 100 minus the driver's |
| Calculations.ShareSplit | calc-test.js:34-38 | a percentage and its complement share an amount out exactly |
| Calculations.CashInHandRule | src/utils/calculations.js:42-47 | cash in hand is total cash less online payments, less the salary when taken, less fuel and other expenses in the primary version only, clamped at 0 and rounded; a cash shortfall shows as 0 |
| Calculations.TakingSalaryLowersCash | src/utils/calculations.js:47 | taking a non-negative salary never leaves the driver with more cash in hand |
| Calculations.PoliciesAgreeWithoutExpenses | calc-test.js:14-56 | with no fuel or other expenses and a 35% driver, both versions produce the same breakdown apart from the owner split |
| Calculations.WorkedExample | src/utils/calculations.js:8-59 | Uber 1000 with the 117 commission, cash 1000 and 200 online gives earnings 883.00, salary 309.05, and cash in hand 490.95 when the salary is taken or 800.00 when it is not |
| Calculations.ErrorsFollowRules | src/utils/calculations.js:195-220 | an error map with exactly one entry per broken rule is empty if and only if the trip breaks no rule |
| Calculations.ValidateTripData | src/utils/calculations.js:195-220 | each of the four errors is recorded if and only if its own rule fails, with the source's message; the trip is valid if and only if no error was recorded, that is, if and only if it breaks no rule |
| Calculations.MonthlyTrips | src/utils/calculations.js:163-167 | the month filter never returns more trips than it was given |
| Calculations.MonthlyTripsMembers | src/utils/calculations.js:163-167 | a trip is kept if and only if it is in the list and its date parses to a day in the given month and year |
| Calculations.MonthlyTripsAppend | src/utils/calculations.js:163-167 | the month filter preserves order across a concatenation |
| Calculations.MonthlyTripsNone | src/utils/calculations.js:163-167 | with no trip dated in the month, the month has no trips |
| Calculations.FoldMonth | src/utils/calculations.js:169-181 | the loop's three running totals equal, respectively, the sums over the month's trips of the rounded earnings, the rounded salaries, and the rounded salaries of trips where the salary was taken |
| Calculations.FoldStep | src/utils/calculations.js:174-181 | each loop step adds exactly that trip's rounded earnings and salary, and its salary to the paid total only if it was taken |
| Calculations.MonthlySumsAppend | src/utils/calculations.js:169-181 | the three totals are additive over concatenation |
| Calculations.CalculateMonthlySalarySummary | src/utils/calculations.js:158-192 | the returned record is the month's sums, each rounded once at the end, with the trip count of the month; the driver name is not used |
| Calculations.RemainingIsUnpaid | src/utils/calculations.js:183 | salary earned minus salary paid is the salary of the trips where it was not taken, not clamped at 0 |
| Calculations.SummaryRemainingIsUnpaid | src/utils/calculations.js:183-190 | the reported remaining salary is the rounded unpaid salary of the month's trips, and the count is the number of trips in the month |
| Calculations.NothingTakenNothingPaid | src/utils/calculations.js:178-180 | if no trip of the month had its salary taken, nothing is paid |
| Calculations.OtherMonthsIgnored | src/utils/calculations.js:163-167 | adding trips from other months leaves the monthly summary unchanged |
| Calculations.PlatformLines | src/utils/calculations.js:99-105 | every platform line of the summary carries an amount above 0 |
| Calculations.PlatformLinePresence | src/utils/calculations.js:99-105 | a platform line appears if and only if that platform's amount is above 0, under its capitalised name and with its amount |
| Calculations.AppendPlatformLines | src/utils/calculations.js:99-105 | the `forEach` over the platforms appends exactly the platform lines, in object order |
| Calculations.FuelLines | src/utils/calculations.js:110-116 | one fuel line per fuel entry |
| Calculations.AppendFuelLines | src/utils/calculations.js:112-114 | the `forEach` over the fuel entries appends one line per entry, in order |
| Calculations.SummaryFuelRule | src/utils/calculations.js:110-116 | the fuel block appears if and only if the trip has fuel entries |
| Calculations.GenerateSummary | src/utils/calculations.js:89-155 | the summary is the line sequence written from the trip and its own freshly computed breakdown |
| Calculations.WriteSummary | src/utils/calculations.js:93-154 | the step-by-step appends build exactly the summary's line sequence |
| Calculations.SummaryLines | src/utils/calculations.js:89-155 | defines the line sequence `generateWhatsAppSummary` writes; the `Summary…Rule` lemmas below state which lines appear |
| Calculations.SummaryParts | src/utils/calculations.js:93-154 | every summary line comes from the head, a platform, the cash split, the fuel block or the tail |
| Calculations.SummaryCommissionRule | src/utils/calculations.js:119-128 | the commissions line appears if and only if the commission total is above 0; that line carries the trip's Uber flag, and the Yatri trip count exactly when it is present and positive |
| Calculations.SummaryPayRule | src/utils/calculations.js:134-140 | the pay line carries the breakdown's percentage and salary, marked paid if and only if the driver took the salary |
| Calculations.SummaryCashierRule | src/utils/calculations.js:145-147 | the cashier line appears if and only if the hand-over flag is set and a cashier amount was typed; it shows the typed amount, so text that does not parse prints as NaN rather than 0 |
| Cache.GetCachedData | src/services/cacheService.js:24-30 | defines `getCachedData`: the stored value while the shared timestamp is valid, otherwise nothing |
| Cache.ValidityRule | src/services/cacheService.js:15-21 | without a readable timestamp the cache is invalid; with one, it is valid if and only if it is less than 24 hours old |
| Cache.ExpiredHidesEveryKey | src/services/cacheService.js:24-30 | an invalid cache answers nothing for every key |
| Cache.ValidAnswersEveryKey | src/services/cacheService.js:24-30 | a valid cache answers every stored key with its stored value |
| Cache.ExpiryIsPermanent | src/services/cacheService.js:15-21 | once expired, the cache stays expired as time moves forward |
| Cache.SetThenGet | src/services/cacheService.js:33-41 | a stored value reads back for the next 24 hours and not after |
| Cache.SetKeepsOtherKeys | src/services/cacheService.js:33-41 | storing one key leaves every other key's presence and value unchanged |
| Cache.SetRefreshesEveryKey | src/services/cacheService.js:33-41 | the timestamp is shared, so storing any key makes every other stored key readable again |
| Cache.IncrementTouchesOnlyToday | src/services/cacheService.js:71-82 | over a readable ledger, today's count rises by exactly one; other dates and other keys are unchanged |
| Cache.IncrementUnreadableLedger | src/services/cacheService.js:75-81 | an unparsable ledger makes incrementing a no-op |
| Cache.AddTripAppends | src/services/cacheService.js:44-53 | after adding, the cache is valid and answers the previously readable trips followed by the new one, and today's count rises by one |
| Cache.AddTripToExpiredCache | src/services/cacheService.js:44-53 | adding to an expired cache starts from no trips, so the old trips are dropped |
| Cache.ClearForgetsEverything | src/services/cacheService.js:85-90 | clearing removes the five cache keys and nothing else, which leaves the cache invalid with every count 0 |
| Cache.ClearExpiredRule | src/services/cacheService.js:93-98 | a valid cache is left unchanged; an invalid cache is cleared |
| Cache.CleanupKeepsRecentDates | src/services/cacheService.js:120-142 | a ledger date survives cleanup if and only if it parses to an instant no earlier than seven days ago, and it keeps its count |
| Cache.CleanupWithoutLedger | src/services/cacheService.js:120-141 | with no ledger, an unparsable one or JSON `null`, cleanup changes nothing |
| Cache.CleanupIdempotent | src/services/cacheService.js:120-142 | cleaning up twice at the same instant is the same as cleaning up once |
| Cache.CacheInfoAgrees | src/services/cacheService.js:101-117 | the info's validity matches the validity test; status 'none' occurs if and only if there is no timestamp, and 'valid' if and only if the cache is valid; the hour count is the age in whole hours, rounded down |
| Cache.CacheService.constructor | src/services/cacheService.js:3-12 | the service starts on the storage it is given |
| Cache.CacheService.SetCachedData | src/services/cacheService.js:33-41 | the new store is the old one with the value stored and the shared timestamp reset to now |
| Cache.CacheService.IncrementDailyTripCount | src/services/cacheService.js:71-82 | the new store is the old one with today's ledger entry incremented |
| Cache.CacheService.AddTripToCache | src/services/cacheService.js:44-53 | returns the readable cached trips plus the new one, and leaves the store with that list stored, the timestamp reset and today's count incremented |
| Cache.CacheService.ClearCache | src/services/cacheService.js:85-90 | the new store is the old one without the five cache keys |
| Cache.CacheService.ClearExpiredCache | src/services/cacheService.js:93-98 | the store is cleared if and only if the cache is invalid |
| Cache.CacheService.CleanupOldTripCounts | src/services/cacheService.js:120-142 | the new store holds only the ledger entries of the last seven days |
| Dashboard.Load | src/pages/Dashboard.jsx:26-69 | defines `loadTripsWithCache` as written: trips, status and store after a load |
| Dashboard.LoadCorrected | src/pages/Dashboard.jsx:26-69 | defines the load with the label after the spread and the fallback reading the stored trips directly |
| Dashboard.SpreadHidesLabel | src/pages/Dashboard.jsx:37 | the spread replaces each page label ('cached', 'fresh', 'stale', 'updated') with one of the cache's 'none', 'valid', 'expired' |
| Dashboard.LabelInfoKeepsLabel | src/pages/Dashboard.jsx:37 | with the label written after the spread, the page's label is shown, and every other field is the cache's own |
| Dashboard.CachedLoadSkipsFetch | src/pages/Dashboard.jsx:31-40 | while trips are stored and the cache is valid, the load shows the stored trips with status 'valid', writes nothing, and ignores any fetch outcome |
| Dashboard.FreshLoadIsCached | src/pages/Dashboard.jsx:42-52 | without readable cached trips, a successful fetch is shown and is immediately readable from the cache |
| Dashboard.ExpiredFallbackNeverFires | src/pages/Dashboard.jsx:55-65 | as written, a failed fetch after expiry keeps the previous trips and shows the bare error, even when the store still holds trips |
| Dashboard.ExpiredFallbackExample | src/pages/Dashboard.jsx:55-65 | for a store holding one trip stamped at instant 0 and read a day later, the page as written shows no trips while the corrected load shows that trip |
| Dashboard.CorrectedFallbackUsesStoredTrips | src/pages/Dashboard.jsx:59-65 | the corrected fallback shows whatever trips the expired store holds, labelled 'stale' |
| Dashboard.FailedLoadKeepsStore | src/pages/Dashboard.jsx:55-65 | a failed fetch never changes the store, as written or corrected |
| Dashboard.CorrectedAgreesWhileReadable | src/pages/Dashboard.jsx:26-69 | when the cache is valid or the fetch succeeds, the corrected load shows the same trips and leaves the same store as the load as written |
| Dashboard.RefreshAlwaysFetches | src/pages/Dashboard.jsx:71-75 | after clearing, a successful fetch is shown and cached, and a failed one shows the error with the previous trips |
| Dashboard.TripAddedRule | src/pages/Dashboard.jsx:77-89 | a new trip is appended to the page's list, the cache answers that list, today's count rises by one and the status shown is 'valid' |
| Dashboard.TripAddedMatchesService | src/pages/Dashboard.jsx:77-89 | when the page's list is the cached list, the page leaves exactly the store that the service's `addTripToCache` would leave |
| Dashboard.Page.constructor | src/pages/Dashboard.jsx:11-15 | no trips, today's date selected, the form hidden, loading, status 'checking' |
| Dashboard.Page.LoadTripsWithCache | src/pages/Dashboard.jsx:26-69 | the trips, status and store after the method are those of the load as written; loading ends; nothing else changes |
| Dashboard.Page.ForceRefresh | src/pages/Dashboard.jsx:71-75 | the result is the load from the cleared store |
| Dashboard.Page.HandleTripAdded | src/pages/Dashboard.jsx:77-89 | the result is the state after the added trip, with the form hidden |
| Dashboard.Page.Mount | src/pages/Dashboard.jsx:17-24 | mounting is the load followed by cleanup of the trip-count ledger |
| Dashboard.Page.DailyTrips | src/pages/Dashboard.jsx:91-93 | the page's trips of the selected day, exactly |
| TripForm.WithFuelAdded | src/components/TripForm.jsx:181-189 | one blank petrol entry is added at the end, and the earlier entries are kept |
| TripForm.Form.AddFuelEntry | src/components/TripForm.jsx:181-189 | only the fuel list changes, by adding a blank entry |
| TripForm.WithFuelUpdated | src/components/TripForm.jsx:191-198 | only the entry at the index changes; the others and the length are kept |
| TripForm.UpdateFuelLoop | src/components/TripForm.jsx:194-196 | the `map` step by step gives the updated list |
| TripForm.Form.UpdateFuelEntry | src/components/TripForm.jsx:191-198 | only the fuel list changes, as by the update |
| TripForm.WithFuelRemoved | src/components/TripForm.jsx:200-205 | the entry at the index goes and the rest keep their order; an index out of range changes nothing |
| TripForm.RemovedSnoc | src/components/TripForm.jsx:200-205 | removing from a list extended by one entry keeps that entry unless it is the one removed |
| TripForm.RemoveFuelLoop | src/components/TripForm.jsx:203 | the `filter` step by step gives the list without the index |
| TripForm.Form.RemoveFuelEntry | src/components/TripForm.jsx:200-205 | only the fuel list changes, as by the removal |
| TripForm.FuelHandlersRoundTrip | src/components/TripForm.jsx:181-205 | removing the entry just added restores the list; updating past the end changes nothing; removing the first entry shortens a non-empty list by one |
| TripForm.EffectPass | src/components/TripForm.jsx:73-142 | defines one run of the recalculation effect over the form and its breakdown; the `Effect…` lemmas below state what it writes |
| TripForm.EffectKeepsTypedFields | src/components/TripForm.jsx:73-142 | one pass of the effect writes only the derived fields and keeps everything the user typed |
| TripForm.EffectKmRule | src/components/TripForm.jsx:75-80 | the distance becomes end minus start when both readings parse and end is not below start; otherwise it is kept |
| TripForm.Form.DeriveKm | src/components/TripForm.jsx:75-80 | only the distance changes, by the km rule |
| TripForm.UberStepRule | src/components/TripForm.jsx:83-99 | the Uber commission becomes 117 when the flag is on and an Uber earning is entered, blank when the flag is off, and is kept otherwise; other commission keys are unchanged |
| TripForm.Form.DeriveUberCommission | src/components/TripForm.jsx:83-99 | only the commissions change, by the Uber rule |
| TripForm.YatriStepRule | src/components/TripForm.jsx:102-111 | the Yatri commission becomes ten rupees per trip for a positive trip count and is kept otherwise; other keys are unchanged |
| TripForm.Form.DeriveYatriCommission | src/components/TripForm.jsx:102-111 | only the commissions change, by the Yatri rule |
| TripForm.EffectCommissionRule | src/components/TripForm.jsx:83-111 | after a full pass, each commission key holds what the two rules give, and all other keys read as before |
| TripForm.EffectTotalCashRule | src/components/TripForm.jsx:113-119 | the cash collected follows the platform total whenever that total is positive, and is kept otherwise |
| TripForm.Form.DeriveTotalCash | src/components/TripForm.jsx:113-119 | only the cash collected changes, by that rule |
| TripForm.EffectCashRule | src/components/TripForm.jsx:126-138 | once a cash total is entered, the form's cash in hand is non-negative, whole paise, and within half a paisa of total minus online minus the salary when taken, clamped at 0; without a total it is kept |
| TripForm.Form.WriteHandCash | src/components/TripForm.jsx:126-138 | only cash in hand and cash collected change, and only when a cash total is entered |
| TripForm.EffectCashIgnoresExpenses | src/components/TripForm.jsx:126-138 | the form's own cash in hand does not move when fuel or other expenses change, unlike the primary breakdown's figure |
| TripForm.Form.Recalculate | src/components/TripForm.jsx:73-142 | the breakdown becomes the primary calculation of the form as it was; the form becomes one pass of the effect over it; nothing else changes |
| TripForm.SubmitRequests | src/components/TripForm.jsx:207-273 | defines the calls `handleSubmit` makes, in order, for a form, its last breakdown and the save outcome |
| TripForm.SubmitOrder | src/components/TripForm.jsx:207-273 | an invalid form sends nothing; a valid one sends the trip with its breakdown first, and sends nothing more if the save fails |
| TripForm.SubmitCashierRule | src/components/TripForm.jsx:237-259 | the cashier transaction is sent if and only if the trip is valid and saved and both cashier fields are set; the salary call follows a saved trip that has a breakdown |
| TripForm.Form.HandleSubmit | src/components/TripForm.jsx:207-273 | the recorded calls are the submit sequence; an invalid form records exactly its broken rules as errors; a saved valid trip shows the summary and is returned with its breakdown |
| TripForm.LiveCashRule | src/components/TripForm.jsx:786-794 | the live cash in hand is cash in hand minus the cashier amount, clamped at 0 and rounded, whatever the flag; it is 0 when the cashier takes it all, shows NaN for unparsable input, and agrees with "Remaining with Driver" |
| TripForm.InitialFormRejected | src/components/TripForm.jsx:8-45 | the initial form is refused for its missing driver, distance and earnings, but not for its date |
| TripForm.Form.constructor | src/components/TripForm.jsx:8-50 | the initial form with no breakdown, no errors, not submitting and no calls made |
| TripForm.Form.ResetForm | src/components/TripForm.jsx:276-316 | the form returns to its initial state with the summary hidden and the errors cleared |
| Sheets.CreateTripData | src/services/sheetdb.js:14-45 | defines `createTripData`: the row posted for a trip; its columns are stated by the `TripRow…` lemmas below |
| Sheets.FieldOrZero | src/services/sheetdb.js:18-27 | `x \|\| 0` never leaves a cell empty; the cell holds the number the field parses to, and keeps a non-empty field as typed |
| Sheets.TripRowFlags | src/services/sheetdb.js:37-38 | both flags are written as Yes/No and read back as the flag |
| Sheets.TripRowNumbers | src/services/sheetdb.js:18-39 | every numeric column holds what its trip field parses to, and none is empty |
| Sheets.TripRowBreakdown | src/services/sheetdb.js:40-42 | the computed columns hold the breakdown's amounts, or 0 when the trip has no breakdown |
| Sheets.TripRowFuelSlots | src/services/sheetdb.js:28-33 | the three fuel slots hold the first three entries; a missing slot is '' and 0 |
| Sheets.TripRowKeepsThreeFuelEntries | src/services/sheetdb.js:28-33 | fuel entries past the third do not reach the sheet |
| Sheets.ParseIntOrZero | src/services/sheetdb.js:119 | a whole number parses to itself; a blank or unparsable field gives 0 |
| Sheets.PostSalary | src/services/sheetdb.js:103-148 | defines `updateDriverSalary` as written: the salary sheet after one call, continuing `data[0]` |
| Sheets.Matching | src/services/sheetdb.js:108-114 | the query returns only rows of that driver and month, drawn from the sheet |
| Sheets.MatchingAppend | src/services/sheetdb.js:108-114 | a record posted for this driver and month becomes the last match |
| Sheets.BuildSalaryRecord | src/services/sheetdb.js:116-133 | the method builds the record specified by the salary-record rules |
| Sheets.SalaryRecordRules | src/services/sheetdb.js:116-133 | pending = earned − paid; trips, earned and paid continue the existing record's values, or start at 1, the amount and the paid part; the earnings column adds the salary, not the trip's earnings |
| Sheets.ReadBackParses | src/services/sheetdb.js:119-128 | a record read back as text and parsed gives back its own numbers |
| Sheets.PostAppendsOne | src/services/sheetdb.js:135-141 | both branches append exactly one record for this driver and month, continued from the first match, and leave the earlier rows as they were |
| Sheets.StaleLedgerExample | src/services/sheetdb.js:108-141 | as written, three unpaid calls of 100 give a third record with 2 trips and 200 earned, not 3 and 300 |
| Sheets.CorrectedPostStep | src/services/sheetdb.js:103-143 | one corrected post extends a consistent ledger by one call |
| Sheets.CorrectedLedgerCounts | src/services/sheetdb.js:103-143 | continuing from the latest record, the last record counts every call: trips, salary earned, salary paid, and pending as the unpaid remainder |
| DriverReport.Keep | src/components/DriverReport.jsx:13-24 | a filter never returns more trips than it was given |
| DriverReport.KeepMembers | src/components/DriverReport.jsx:13-24 | a trip is kept if and only if it is in the list and passes the test |
| DriverReport.KeepAll | src/components/DriverReport.jsx:13-24 | a filter that every trip passes returns the list unchanged |
| DriverReport.FilterTripsMembers | src/components/DriverReport.jsx:13-24 | a trip is shown if and only if it matches the chosen driver (when one is chosen) and its date starts with the chosen month (when one is chosen) |
| DriverReport.OtherMonthSummaryEmpty | src/components/DriverReport.jsx:26-32 | if the chosen month is not the current one, the summary counts no trips |
| DriverReport.CurrentMonthSummaryCountsAll | src/components/DriverReport.jsx:26-32 | if the chosen month is the current one, every shown trip with a valid date is counted |
| DriverReport.MonthlyTripsAllIn | src/components/DriverReport.jsx:26-32 | a list whose trips all fall in the month passes the month filter unchanged |
| DriverReport.ReportTotals | src/components/DriverReport.jsx:66-72 | the per-trip totals are the breakdown's sums, ignoring blank and unparsable entries, and 0 without any numeric entry |
| DriverReport.Split | src/components/DriverReport.jsx:55 | splitting always gives at least one piece |
| DriverReport.SplitNoSeparator | src/components/DriverReport.jsx:55 | text without the separator splits into itself alone |
| DriverReport.SplitAtSeparator | src/components/DriverReport.jsx:55 | splitting at the first separator gives the text before it, followed by the split of the rest |
| DriverReport.JoinAvoids | src/components/DriverReport.jsx:55 | joining introduces no character other than the separator |
| DriverReport.SplitJoin | src/components/DriverReport.jsx:55 | splitting undoes joining when no piece holds the separator |
| DriverReport.JoinRows | src/components/DriverReport.jsx:55 | one comma-joined line per row, in order |
| DriverReport.CsvRoundTrip | src/components/DriverReport.jsx:55 | if no field holds a comma or a newline, splitting the CSV at newlines and then at commas gives back the table |
| DriverReport.CommaInFieldAddsColumn | src/components/DriverReport.jsx:55 | fields are not quoted, so a comma inside a field shifts the later fields one column to the right |
| DriverReport.HeaderPlain | src/components/DriverReport.jsx:42 | no header title holds a comma or a newline |
| DriverReport.CsvRow | src/components/DriverReport.jsx:43-52 | eight fields per trip, with the two flags written as Yes/No |
| DriverReport.CsvRows | src/components/DriverReport.jsx:43-52 | one row per shown trip, in order |
| DriverReport.ExportLines | src/components/DriverReport.jsx:35-55 | a non-empty export is the header line followed by one line per trip, each splitting back into its eight fields |
| DriverReport.FileName | src/components/DriverReport.jsx:60 | the file name is `trip_report_`, then the driver (or `all`), then `_` and the month, then `.csv` |
| DriverReport.Report.constructor | src/components/DriverReport.jsx:7-10 | no driver chosen, the current month chosen, nothing derived |
| DriverReport.Report.ApplyFilters | src/components/DriverReport.jsx:13-33 | the shown trips are the filtered list; a summary exists if and only if a driver is chosen, and it is the monthly summary of that list |
| DriverReport.Report.Export | src/components/DriverReport.jsx:35-39 | nothing is exported if and only if no trip is shown |
| DailySummary.FoldCount | src/components/SummaryCard.jsx:57 | the trip count is the number of trips folded |
| DailySummary.FoldAppend | src/components/SummaryCard.jsx:51-64 | the fold is additive: the cards for a concatenation are the field-by-field sum of the parts' cards |
| DailySummary.MissingBreakdownAddsOnlyCount | src/components/SummaryCard.jsx:52-57 | a trip without a breakdown adds one to the count and no money |
| DailySummary.FoldWithoutBreakdowns | src/components/SummaryCard.jsx:51-58 | trips none of which has a breakdown fold to their number and no money |
| DailySummary.NoBreakdownsOnlyCount | src/components/SummaryCard.jsx:46-58 | over trips without stored breakdowns, such as fetched sheet rows, the cards show 0 earnings, salary and cash and count the day's trips |
| DailySummary.DailyCount | src/components/SummaryCard.jsx:48 | the cards count exactly the trips of the chosen date |
| DailySummary.DailyAppend | src/components/SummaryCard.jsx:46-64 | the daily cards are additive over lists of trips |
| DailySummary.DailyAddTrip | src/components/SummaryCard.jsx:48-58 | a trip of another date changes nothing; a trip of this date adds only its own contribution |
| SalaryPanel.PayEntry | src/components/DriverSalaryPanel.jsx:25-28 | paying keeps the earned amount, adds the payment to paid, and recomputes pending as what is still owed, never below 0 |
| SalaryPanel.MarkPaidRules | src/components/DriverSalaryPanel.jsx:22-44 | only the paid driver's entry changes, no driver is added or removed, and a driver without an entry causes no change |
| SalaryPanel.PayingPendingSettles | src/components/DriverSalaryPanel.jsx:97-99 | paying the pending amount shown settles a consistent entry: paid equals earned, nothing is pending, and the button disappears |
| SalaryPanel.NoEntryShowsZero | src/components/DriverSalaryPanel.jsx:57-58 | a driver without an entry shows 0, 0, 0 and no button |
| SalaryPanel.Cards | src/components/DriverSalaryPanel.jsx:56-58 | one card per registered driver, in registry order, each showing that driver's status |
| SalaryPanel.CardsOf | src/components/DriverSalaryPanel.jsx:56-58 | one card per driver given, in order |
| SalaryPanel.Panel.constructor | src/components/DriverSalaryPanel.jsx:6-15 | mounting shows the stored salaries, reading a missing key as an empty object |
| SalaryPanel.Panel.LoadSalaryData | src/components/DriverSalaryPanel.jsx:10-13 | the shown salaries become the stored ones |
| SalaryPanel.Panel.MarkSalaryAsPaid | src/components/DriverSalaryPanel.jsx:22-44 | with an entry, the entry is paid, saved and shown, and one payment is logged; without one, neither storage nor the log changes |
| Cashier.DatePart | src/components/CashierPanel.jsx:61 | the date part is a prefix of the ISO text and holds no 'T' |
| Cashier.TodaysTransactions | src/components/CashierPanel.jsx:60-65 | never more transactions than stored |
| Cashier.TodaysMembers | src/components/CashierPanel.jsx:60-65 | a transaction is listed if and only if it is stored and dated today |
| Cashier.WeeklyIsNet | src/components/CashierPanel.jsx:67-78 | the weekly figure is the amount received minus every other type, over the last seven days |
| Cashier.WeeklyAppend | src/components/CashierPanel.jsx:67-78 | the weekly figure is additive over lists of transactions |
| Cashier.WeeklyIgnoresOld | src/components/CashierPanel.jsx:72 | transactions older than a week, or with an invalid date, count nothing |
| Cashier.AmountGuardRule | src/components/CashierPanel.jsx:39-42 | the guard admits exactly positive numbers and unparsable text; an admitted number gives a positive parsed amount |
| Cashier.Insert | src/components/CashierPanel.jsx:267 | inserting adds exactly the one transaction |
| Cashier.SortNewestFirst | src/components/CashierPanel.jsx:267 | the sort is a permutation of its input |
| Cashier.InsertNewestFirst | src/components/CashierPanel.jsx:267 | inserting into a newest-first list keeps it newest first |
| Cashier.SortIsNewestFirst | src/components/CashierPanel.jsx:267 | the sort orders newest first and keeps every transaction |
| Cashier.FirstTen | src/components/CashierPanel.jsx:268 | at most ten, a prefix of the list; exactly ten when there are that many, and the whole list otherwise |
| Cashier.RecentHistory | src/components/CashierPanel.jsx:266-269 | the history shows at most ten stored transactions, newest first; none left out is newer than one shown; with ten or fewer, all are shown |
| Cashier.Panel.constructor | src/components/CashierPanel.jsx:7-15 | no cash, no transactions, an empty form of type 'add' |
| Cashier.Panel.HandleManualTransaction | src/components/CashierPanel.jsx:38-58 | no call is made if and only if the amount is rejected; the call carries the parsed amount and type; only a successful call clears the amount and the note |
| Cashier.Panel.RecentTransactions | src/components/CashierPanel.jsx:266-269 | the stored list is sorted newest first in place, and the first ten are shown |
| Cashier.Panel.Cards | src/components/CashierPanel.jsx:112-113 | today's count never exceeds the number of stored transactions |

## Left out

- Remote calls (axios): `getTrips`, `getTripsByDriver`, `testConnection`, `addTrip`, `addCashierTransaction` and `getCashierTransactions` in `src/services/sheetdb.js` do nothing but HTTP. Their outcome is an input of the caller (`Dashboard.FetchOutcome`, the `saved` flag of `TripForm.Form.HandleSubmit`) or a recorded request. The rows a salary query returns are a value (`Sheets.Matching`), which assumes that the GET of lines 108-110 filters by driver name and month on the server and returns rows in sheet order. The `data[0]` finding below depends on that order.
- `Cashier.Panel.HandleManualTransaction` and `Cashier.Panel` as a whole: the service methods `updateCashierCash` and `getCashierDataFromLocalStorage` that the cashier panel calls are not defined in `src/services/sheetdb.js`. As written, `loadCashierData` also runs on mount (`src/components/CashierPanel.jsx:19-26`) and throws, so opening the cashier tab (`src/pages/Report.jsx:76`) fails before any card or history is shown. `updateCashierCash` throws inside the try of line 45, so the success branch is never taken. The model treats the panel as if both methods existed: the call's outcome is a parameter, and the reload after it is not modelled.
- The owner password gate of the cashier panel is not modelled. Only the panel behind it is.
- `JSON.parse` throwing on unparsable storage is the `Unreadable` stored value. A non-list value under the trips key reads as no trips. `Object.keys` of a ledger that is JSON `null` throws inside the try of `src/services/cacheService.js:124-141`, so cleanup leaves it alone, as `Cache.CleanedTripCounts` does. Any other JSON value is rewritten as an empty ledger. That is what the source does for a number, a boolean, a string or an array, because the keys `Object.keys` lists for those, if any, read as dates years in the past. An object whose values are not all counts is not modelled apart.
- The five-second polling timer of the salary panel is not modelled; one call of `SalaryPanel.Panel.LoadSalaryData` is one tick.
- `SalaryPanel.Panel.MarkSalaryAsPaid`: the source's shallow copy mutates the entry object that is shared with the previous state. The model updates by value, so it does not capture that aliasing.
- `alert`, `console`, the clipboard, the Blob download and all rendering are not modelled.
- Floating point. Money is exact `real`, so the IEEE-754 representation errors of `toFixed` are not modelled. `Money.Round2` rounds the exact value half away from zero.
- `parseFloat` prefix parsing. A field is a number only when its whole text is numeric; text such as "12abc" is `Garbage` (NaN), not 12.
- `Sheets.ParseIntOrZero` is only specified for whole numbers and for non-numbers. For a fractional value it truncates toward zero. Exponent text is not modelled.
- Local time versus UTC. Every date-only string is midnight UTC. `weekAgo` in the cashier panel is `now` minus seven days of milliseconds, so daylight-saving shifts of `setDate` are not modelled.
- Timestamps of cashier transactions are integers, so the NaN comparator case of the history sort is not modelled. The sort is modelled as an insertion sort with the same order; the stability of the engine's own sort is not captured.
- Number-to-text conversion (`toString`, template literals) in the CSV and in the form's derived fields is the parameter `show`, or is kept as a number in the field.
- `TripForm.Form.Recalculate` models one run of the effect. The effect depends on `[formData]` (`src/components/TripForm.jsx:142`). Each run calls `setFormData` with a fresh object, always while the Uber flag is off (lines 91-99, the initial state) and whenever an earning or a cash total is present (lines 117-119, 126-138). So the effect never reaches a fixpoint and the form re-renders without end. Object identity and the render loop are not modelled.
- `TripForm.Form.HandleSubmit`: the outcomes of the salary and cashier calls are not modelled, because their failures only log a warning and change no state.
- `TripForm.SubmitCashierRule` states the sequence of calls, not what the salary call then writes; that is `Sheets.PostSalary`.
- `Dates.ParseYearMonth` accepts only four-digit years and two-digit months, the form the month picker and `toISOString` produce.
- Intl currency and date formatting (`formatCurrency`, `formatDate`, `formatDateForWhatsApp`) is display only and not modelled. The summary's date line carries the raw date.
- The exact emoji text of the shareable summary is not modelled. `Calculations.SummaryLine` keeps each line's kind and values.
- `src/components/CalculationBreakdown.jsx`, `src/App.jsx`, `src/components/Tabs.jsx`, `src/pages/Report.jsx` and `postcss.config.js` are display, routing or build configuration and are not part of this model.
- `Dashboard.FetchOutcome`, `Dashboard.Load` and `DailySummary.DailyStatsOf` take fetched rows as trip records that may carry a breakdown. In the source `getTrips` returns sheet rows in the `createTripData` shape (`src/services/sheetdb.js:14-45`): snake_case columns and no `calculations` field. The dashboard stores and shows those rows unchanged (`src/pages/Dashboard.jsx:46-51, 176`). So after a fresh fetch the daily cards count each trip of the day and add 0 earnings, salary and cash (`DailySummary.NoBreakdownsOnlyCount`), and the trip cards (line 264) show 0.00. The model does not restrict fetched rows to trips without a breakdown.
- The report page passes sheet rows with snake_case columns to `DriverReport`. The model gives the report trip records, so it does not capture that those rows lack the camelCase fields the report reads.
- The `driver_salaries` storage key that the salary panel reads is written by no other part of the repository. The panel is modelled on whatever is stored.

## Findings

| source | as written | input that shows it | evidently intended | confidence | as-written member | corrected member |
|---|---|---|---|---|---|---|
| src/pages/Dashboard.jsx:37 | `{ status: 'cached', ...cacheService.getCacheInfo() }`; the same at lines 52, 64 and 87 | any load from a valid cache: the status shown is 'valid', not 'cached' | the page's own label survives, i.e. the spread comes before `status` | not executed | Dashboard.SpreadHidesLabel | Dashboard.LabelInfoKeepsLabel |
| src/pages/Dashboard.jsx:59-65 | the offline fallback reads `getCachedData`, which answers nothing once the cache has expired | a store with one trip, stamped at instant 0, read 24 hours later with the fetch failing: no trip is shown | "use cached data as fallback even if expired": the stored trips are shown with the 'stale' label | not executed | Dashboard.ExpiredFallbackExample | Dashboard.CorrectedFallbackUsesStoredTrips |
| src/services/sheetdb.js:112-114 | the existing record is `data[0]`, the first matching row, and every call appends a new row (lines 135-141) | three unpaid salary calls of 100 in one month: the third record reports 2 trips and 200 earned | each record continues the latest one, so the third reports 3 trips and 300 | not executed | Sheets.StaleLedgerExample | Sheets.CorrectedLedgerCounts |
