# SpaceTraders bot: status cache and grid geometry in Dafny

This project models two parts of a small Rust bot for the SpaceTraders game API.

**The status cache (`StatusStorage`, module `Storage`).** The bot keeps ship statuses, asteroid surveys and asteroid scans in memory. This saves API calls while the data is still fresh. The cache holds three independent maps:

- ship statuses, keyed by ship symbol;
- surveys, keyed by waypoint symbol;
- scans, keyed by waypoint symbol.

It also holds one time-to-live, fixed when the cache is built: 300 seconds by default, or any value given to `with_max_age`.

The class `Storage.StatusStorage` has these three maps as fields, which its methods reassign. The TTL is a `const` field. Every operation that reads the wall clock takes the current Unix time `now` as a parameter instead. When the clock read fails, the source uses 0, and `now = 0` covers that case.

Expiry works as follows:

- A status with no expiry never goes stale for `get_status`, `get_all_valid_statuses` and `clear_expired`. For `is_valid` the same status is never valid (`StatusLive` and `StatusValid`).
- Surveys and scans are live while `now < expiration`. `get_survey` and `get_scan` ignore expiry altogether.
- `len` counts statuses only. `is_empty` looks at all three maps.

The object invariant `Valid()` says two things. First, every record is stored under its own symbol. Second, every stored status has an expiry, because `update_status` is the only way in and it always sets one. From this, `GetStatusAgreesWithIsValid` proves that the `get_status`/`is_valid` asymmetry cannot be seen through the cache's own operations.

**Grid geometry (module `Distance`).** This covers points on the `i32` grid, the Manhattan distance between them, and the constructors of the five map-object types. Each object is a symbol plus a point. The distance is specified by an independent per-axis definition (max minus min on each axis). It is proved symmetric, zero exactly on equal points, translation invariant, and subject to the triangle inequality. Its precondition `NoOverflow` is exactly the condition under which none of the `i32` subtractions, `abs` calls or the final addition overflows.

**Two unit tests disagree with the code.** The model follows the code. The module `Scenarios` replays the tests with an explicit clock:

- `test_update_and_get_status` stores `expires_at: Some(3600)`, a time in 1970. `update_status` keeps explicit expiries, so `get_status` finds the record only while `now < 3600` (`UpdateAndGetScenario`).
- `test_status_expiration` uses a one-second TTL and expects `clear_expired` to remove the status at once. A sweep within the same second keeps it valid. It is removed only when at least one second has passed (`ExpirationScenario`).

## Model

| member | source | states |
|---|---|---|
| `Distance.NewPoint` | src/distance.rs:14-16 | the point has exactly the given coordinates |
| `Distance.ManhattanDistanceTo` | src/distance.rs:26-28 | when no i32 step overflows, the result is non-negative, equals the sum of the per-axis distances (max minus min on each axis), and is 0 exactly when the points are equal |
| `Distance.BoundedCoordinatesNoOverflow` | src/distance.rs:26-28 | coordinates below 2^29 in magnitude never overflow the i32 arithmetic |
| `Distance.ManhattanSymmetric` | src/distance.rs:26-28 | the distance and its no-overflow condition are symmetric in the two points |
| `Distance.ManhattanToSelf` | src/distance.rs:26-28 | every point is at distance 0 from itself, with no overflow |
| `Distance.ManhattanTriangle` | src/distance.rs:26-28 | the distance from p to r is at most the distance from p to q plus the distance from q to r |
| `Distance.ManhattanTranslation` | src/distance.rs:26-28 | shifting both points by the same offset keeps their distance |
| `Distance.ManhattanExample` | src/distance.rs:158-163 | the distance from (0,0) to (3,4) is 7 |
| `Distance.NewLocation` | src/distance.rs:46-51 | keeps the symbol unchanged and places the location at `Point::new(x, y)` |
| `Distance.NewSystem` | src/distance.rs:68-73 | keeps the symbol unchanged and places the system at `Point::new(x, y)` |
| `Distance.NewWaypoint` | src/distance.rs:90-95 | keeps the symbol unchanged and places the waypoint at `Point::new(x, y)` |
| `Distance.NewShip` | src/distance.rs:112-117 | keeps the symbol unchanged and places the ship at `Point::new(x, y)` |
| `Distance.NewAsteroid` | src/distance.rs:134-139 | keeps the symbol unchanged and places the asteroid at `Point::new(x, y)` |
| `Storage.StampStatus` | src/status_storage.rs:106-113 | the stored status has `last_updated = now` and always has an expiry: the caller's expiry if given, otherwise `now + max_age`; every other field is the caller's |
| `Storage.StampExpiration` | src/status_storage.rs:225-229 | an expiration of 0 becomes `now + max_age`; any other value is kept |
| `Storage.ValidImpliesLive` | src/status_storage.rs:127-158 | a status valid for `is_valid` is live for `get_status`; the two rules differ exactly on statuses without an expiry |
| `Storage.StampedRulesAgree` | src/status_storage.rs:110-113 | on any status stamped by `update_status`, the `get_status` rule and the `is_valid` rule agree |
| `Storage.RestampKeepsExpiry` | src/status_storage.rs:110-113 | writing back a status read from the cache keeps the expiry it was first given |
| `Storage.StampedExpirationNonZero` | src/status_storage.rs:225-229 | a stamped survey or scan expiration is 0 only if the input was 0 and `now + max_age` is 0 |
| `Storage.CollectLive` | src/status_storage.rs:168-178 | the result holds the stored value of every accepted key, once each, and nothing else (order unspecified) |
| `Storage.StatusStorage.constructor` | src/status_storage.rs:80-87 | `new()` gives three empty maps with a TTL of 300, so `len() == 0` and `is_empty()` |
| `Storage.StatusStorage.WithMaxAge` | src/status_storage.rs:90-97 | `with_max_age(m)` gives three empty maps with a TTL of `m` (0 allowed) |
| `Storage.StatusStorage.UpdateStatus` | src/status_storage.rs:100-116 | the ship symbol maps to the stamped status, replacing any earlier entry; other statuses, surveys and scans are unchanged; `len` grows only for a new ship; the stamped status is readable at once unless it is already expired; with no expiry given, `is_valid` holds iff the TTL is positive |
| `Storage.StatusStorage.GetStatus` | src/status_storage.rs:119-138 | returns the stored status iff the key is present and the status has no expiry or `now < expires_at`; otherwise None |
| `Storage.StatusStorage.RemoveStatus` | src/status_storage.rs:141-143 | the key is absent afterwards, every other key keeps its record, the other maps are unchanged, and removing a missing key changes nothing |
| `Storage.StatusStorage.IsValid` | src/status_storage.rs:146-159 | true iff the key is present, has an expiry, and `now` is before it; a status without an expiry gives false; valid implies `get_status` returns it |
| `Storage.StatusStorage.GetAllValidStatuses` | src/status_storage.rs:162-179 | contains exactly the statuses `get_status` returns at `now`, with no duplicates |
| `Storage.StatusStorage.ClearExpired` | src/status_storage.rs:182-206 | keeps exactly the live statuses (no expiry, or `now < expires_at`), the surveys and scans with `now < expiration`, each unchanged; `get_status`, `is_valid`, `is_survey_valid` and `is_scan_valid` at `now` answer as before; afterwards `get_survey`/`get_scan` return only live records |
| `Storage.StatusStorage.Len` | src/status_storage.rs:209-211 | counts the ship statuses and nothing else; 0 iff there are no statuses |
| `Storage.StatusStorage.IsEmpty` | src/status_storage.rs:214-216 | true iff all three maps are empty, which implies `len() == 0` but not the converse |
| `Storage.StatusStorage.UpdateSurvey` | src/status_storage.rs:219-232 | the waypoint maps to the survey with its expiration stamped, replacing any earlier entry; statuses and scans are unchanged; `get_survey` then returns the survey with only its expiration changed |
| `Storage.StatusStorage.GetSurvey` | src/status_storage.rs:235-237 | returns the stored survey iff the key is present, whether expired or not |
| `Storage.StatusStorage.RemoveSurvey` | src/status_storage.rs:240-242 | the key is absent afterwards, every other survey is kept, statuses and scans are unchanged, and removing a missing key changes nothing |
| `Storage.StatusStorage.IsSurveyValid` | src/status_storage.rs:245-255 | true iff `get_survey` finds the survey and `now < expiration` |
| `Storage.StatusStorage.UpdateScan` | src/status_storage.rs:258-271 | the waypoint maps to the scan with its expiration stamped, replacing any earlier entry; statuses and surveys are unchanged; `get_scan` then returns the scan with only its expiration changed |
| `Storage.StatusStorage.GetScan` | src/status_storage.rs:274-276 | returns the stored scan iff the key is present, whether expired or not |
| `Storage.StatusStorage.RemoveScan` | src/status_storage.rs:279-281 | the key is absent afterwards, every other scan is kept, statuses and surveys are unchanged, and removing a missing key changes nothing |
| `Storage.StatusStorage.IsScanValid` | src/status_storage.rs:284-294 | true iff `get_scan` finds the scan and `now < expiration` |
| `Storage.StatusStorage.GetAllValidSurveys` | src/status_storage.rs:297-308 | contains exactly the surveys `is_survey_valid` accepts at `now`, with no duplicates |
| `Storage.StatusStorage.GetAllValidScans` | src/status_storage.rs:311-322 | contains exactly the scans `is_scan_valid` accepts at `now`, with no duplicates |
| `Storage.GetStatusAgreesWithIsValid` | src/status_storage.rs:111-158 | in every state the cache's operations can reach, `get_status` finds a key iff `is_valid` holds for it |
| `Scenarios.CreationScenario` | src/status_storage.rs:348-352 | a new cache has `len() == 0` and is empty |
| `Scenarios.UpdateAndGetScenario` | src/status_storage.rs:355-373 | a status stored with the explicit expiry 3600 keeps it, and `get_status` finds it iff `now < 3600` |
| `Scenarios.ExpirationScenario` | src/status_storage.rs:376-397 | with a TTL of 1, the status is valid right after insertion; after a sweep at a later time it is still valid iff no second has passed |
| `Scenarios.SurveyScenario` | src/status_storage.rs:400-415 | `get_survey` returns the stored survey whole (symbol, deposits, expiration 3600, size) whatever the time; `is_survey_valid` holds iff `now < 3600` |
| `Scenarios.ScanScenario` | src/status_storage.rs:418-443 | `get_scan` returns the stored scan whole: its symbol, both materials with their units, and expiration 3600 |
| `Scenarios.ZeroExpirationScenario` | src/status_storage.rs:225-229 | a survey given expiration 0 is stored with `now + 300` |
| `Scenarios.SurveysOnlyScenario` | src/status_storage.rs:209-216 | three surveys and no statuses give `len() == 0` while `is_empty()` is false |
| `Scenarios.OverwriteScenario` | src/status_storage.rs:100-116 | writing the same ship twice keeps the second record (fuel 50) and one entry |

## Left out

- The wall clock (`SystemTime::now`) is not modelled. Each operation takes `now` instead, and the fallback to the epoch on a clock error is the case `now = 0`.
- Unix times and the TTL are `nat`, not `u64`, so a `now + max_age_seconds` that would overflow `u64` is not modelled. `len` returns `nat`, not `usize`.
- `get_all_valid_*` return their records in an unspecified order. The HashMap iteration order of the source is not modelled.
- `Clone` is implicit: records are values, so a returned record cannot alias the stored one.
- Serde and `Debug` derives are not modelled. They generate serialisation and formatting code only.
- The floating-point `distance_to` methods (src/distance.rs:19-23 and one per map-object type) are not modelled, because they use `f64` and `sqrt`. The `HasLocation` trait is not modelled either: it is declared there but has no implementations.
- Distance.ManhattanDistanceTo: requires that no `i32` step overflows. A debug build panics on overflow and a release build wraps; neither behaviour is modelled.
- The HTTP, JSON and console code of the bot (agents, contracts, asteroids, the main loop, token file reading, the debug driver) is not part of this model. It only calls the external API and prints.
