/**
 * The in-memory, TTL-based status cache of the bot: three independent
 * keyed collections (ship statuses by ship symbol, surveys and scans by
 * waypoint symbol) and one time-to-live fixed when the cache is built.
 * The wall clock is not modelled: every operation that reads it takes the
 * current Unix time `now` as a parameter (0 when the clock read fails).
 */
module Storage {
  import opened Ints

  datatype Option<T> = None | Some(value: T)

  /** What a ship is currently doing. */
  datatype ShipStatusType = Idle | Traveling | Mining | Delivering | Refueling | Repairing

  datatype CargoItem = CargoItem(tradeSymbol: string, units: i32)

  /** A cached ship status; `lastUpdated` and `expiresAt` are Unix seconds. */
  datatype ShipStatus = ShipStatus(
    shipSymbol: string,
    statusType: ShipStatusType,
    location: string,
    cargo: seq<CargoItem>,
    fuel: i32,
    lastUpdated: nat,
    expiresAt: Option<nat>)

  datatype SurveySize = Small | Medium | Large

  /** A cached survey of a waypoint; an `expiration` of 0 means "not set". */
  datatype Survey = Survey(symbol: string, deposits: seq<string>, expiration: nat, size: SurveySize)

  datatype ScanMaterial = ScanMaterial(symbol: string, units: i32)

  /** A cached scan of a waypoint; an `expiration` of 0 means "not set". */
  datatype Scan = Scan(symbol: string, materials: seq<ScanMaterial>, expiration: nat)

  /** The default time-to-live of `StatusStorage::new`, in seconds. */
  const DEFAULT_MAX_AGE: nat := 300

  /**
   * The liveness rule of `get_status`, `get_all_valid_statuses` and
   * `clear_expired`: a status without an expiry never goes stale.
   */
  predicate StatusLive(s: ShipStatus, now: nat)
  {
    match s.expiresAt
    case None => true
    case Some(e) => now < e
  }

  /**
   * The stricter rule of `is_valid`: a status without an expiry is NOT
   * valid. The two rules differ on exactly those statuses.
   */
  predicate StatusValid(s: ShipStatus, now: nat)
  {
    s.expiresAt.Some? && now < s.expiresAt.value
  }

  /** The liveness rule for surveys and scans (no "never expires" case). */
  predicate Unexpired(expiration: nat, now: nat)
  {
    now < expiration
  }

  /** The record `update_status` stores: stamped with `now`, and given an expiry if it had none. */
  function StampStatus(s: ShipStatus, now: nat, maxAge: nat): (t: ShipStatus)
    ensures t.lastUpdated == now
    ensures t.expiresAt.Some?
    ensures s.expiresAt.Some? ==> t.expiresAt == s.expiresAt
    ensures s.expiresAt.None? ==> t.expiresAt == Some(now + maxAge)
    ensures t.(lastUpdated := s.lastUpdated, expiresAt := s.expiresAt) == s
  {
    s.(lastUpdated := now,
       expiresAt := if s.expiresAt.None? then Some(now + maxAge) else s.expiresAt)
  }

  /** The expiry `update_survey` and `update_scan` store: 0 is replaced by `now + maxAge`. */
  function StampExpiration(expiration: nat, now: nat, maxAge: nat): (e: nat)
    ensures expiration != 0 ==> e == expiration
    ensures expiration == 0 ==> e == now + maxAge
  {
    if expiration == 0 then now + maxAge else expiration
  }

  /** Relation of the two status rules: valid implies live, and they differ only without an expiry. */
  lemma ValidImpliesLive(s: ShipStatus, now: nat)
    ensures StatusValid(s, now) ==> StatusLive(s, now)
    ensures StatusLive(s, now) && !StatusValid(s, now) <==> s.expiresAt.None?
  {
  }

  /** A stamped status always has an expiry, so on it the two rules agree. */
  lemma StampedRulesAgree(s: ShipStatus, stampedAt: nat, maxAge: nat, now: nat)
    ensures StatusLive(StampStatus(s, stampedAt, maxAge), now)
        <==> StatusValid(StampStatus(s, stampedAt, maxAge), now)
  {
  }

  /**
   * Re-inserting a record read back from the cache keeps its expiry: only
   * the first stamp decides when a status goes stale.
   */
  lemma RestampKeepsExpiry(s: ShipStatus, t1: nat, t2: nat, maxAge: nat)
    ensures StampStatus(StampStatus(s, t1, maxAge), t2, maxAge).expiresAt
         == StampStatus(s, t1, maxAge).expiresAt
  {
  }

  /** A survey or scan expiry stamped by the cache is never 0 unless both `now` and the TTL are. */
  lemma StampedExpirationNonZero(expiration: nat, now: nat, maxAge: nat)
    ensures StampExpiration(expiration, now, maxAge) == 0 <==> expiration == 0 && now + maxAge == 0
  {
  }

  /**
   * The values of `m` that `live` accepts, one entry per key, in some order
   * (HashMap iteration order is not modelled). `key` gives each record's own
   * key, which the cache keeps equal to the key it is stored under.
   */
  method CollectLive<R>(m: map<string, R>, key: R -> string, live: R -> bool) returns (r: seq<R>)
    requires forall k :: k in m ==> key(m[k]) == k
    ensures forall i :: 0 <= i < |r| ==> key(r[i]) in m && m[key(r[i])] == r[i] && live(r[i])
    ensures forall k :: k in m && live(m[k]) ==> m[k] in r
    ensures forall i, j :: 0 <= i < j < |r| ==> key(r[i]) != key(r[j])
  {
    r := [];
    var todo := m.Keys;
    while todo != {}
      invariant todo <= m.Keys
      invariant forall i :: 0 <= i < |r| ==> key(r[i]) in m && key(r[i]) !in todo && m[key(r[i])] == r[i] && live(r[i])
      invariant forall k :: k in m && k !in todo && live(m[k]) ==> m[k] in r
      invariant forall i, j :: 0 <= i < j < |r| ==> key(r[i]) != key(r[j])
      decreases todo
    {
      var k :| k in todo;
      if live(m[k]) {
        r := r + [m[k]];
      }
      todo := todo - {k};
    }
  }

  /** `StatusStorage`: the cache itself. */
  class StatusStorage {
    var statuses: map<string, ShipStatus>
    var surveys: map<string, Survey>
    var scans: map<string, Scan>
    /** Time-to-live in seconds, fixed at construction. */
    const maxAgeSeconds: nat

    /**
     * Every record is stored under its own symbol, and every status carries
     * an expiry (`update_status` is the only way in, and it always sets one).
     */
    ghost predicate Valid()
      reads this
    {
      && (forall k :: k in statuses ==> statuses[k].shipSymbol == k && statuses[k].expiresAt.Some?)
      && (forall k :: k in surveys ==> surveys[k].symbol == k)
      && (forall k :: k in scans ==> scans[k].symbol == k)
    }

    /** `StatusStorage::new`: empty, with the default time-to-live of 300 seconds. */
    constructor ()
      ensures Valid()
      ensures statuses == map[] && surveys == map[] && scans == map[]
      ensures maxAgeSeconds == DEFAULT_MAX_AGE
      ensures Len() == 0 && IsEmpty()
    {
      statuses := map[];
      surveys := map[];
      scans := map[];
      maxAgeSeconds := DEFAULT_MAX_AGE;
    }

    /** `StatusStorage::with_max_age`: empty, with the given time-to-live (0 allowed). */
    constructor WithMaxAge(maxAge: nat)
      ensures Valid()
      ensures statuses == map[] && surveys == map[] && scans == map[]
      ensures maxAgeSeconds == maxAge
      ensures Len() == 0 && IsEmpty()
    {
      statuses := map[];
      surveys := map[];
      scans := map[];
      maxAgeSeconds := maxAge;
    }

    /** `update_status`: stamps the record and inserts it under its ship symbol, replacing any previous one. */
    method UpdateStatus(status: ShipStatus, now: nat)
      requires Valid()
      modifies this
      ensures Valid()
      ensures statuses == old(statuses)[status.shipSymbol := StampStatus(status, now, maxAgeSeconds)]
      ensures surveys == old(surveys) && scans == old(scans)
      ensures Len() == old(Len()) + (if status.shipSymbol in old(statuses) then 0 else 1)
      ensures status.expiresAt.None? ==>
                (IsValid(status.shipSymbol, now) <==> maxAgeSeconds > 0)
      ensures StatusLive(StampStatus(status, now, maxAgeSeconds), now) ==>
                GetStatus(status.shipSymbol, now) == Some(StampStatus(status, now, maxAgeSeconds))
    {
      var stamped := status.(lastUpdated := now);
      if stamped.expiresAt.None? {
        stamped := stamped.(expiresAt := Some(now + maxAgeSeconds));
      }
      statuses := statuses[stamped.shipSymbol := stamped];
    }

    /** `get_status`: the stored status if it has no expiry or has not reached it; never mutates. */
    function GetStatus(ship: string, now: nat): (r: Option<ShipStatus>)
      reads this
      ensures r.Some? <==> ship in statuses && StatusLive(statuses[ship], now)
      ensures r.Some? ==> r.value == statuses[ship]
    {
      if ship in statuses then
        match statuses[ship].expiresAt
        case Some(e) => if now < e then Some(statuses[ship]) else None
        case None => Some(statuses[ship])
      else
        None
    }

    /** `remove_status`: the key becomes absent; a missing key is not an error. */
    method RemoveStatus(ship: string)
      requires Valid()
      modifies this
      ensures Valid()
      ensures statuses == old(statuses) - {ship}
      ensures surveys == old(surveys) && scans == old(scans)
      ensures ship !in old(statuses) ==> statuses == old(statuses)
    {
      statuses := statuses - {ship};
    }

    /** `is_valid`: present, WITH an expiry, and not yet expired. */
    function IsValid(ship: string, now: nat): (b: bool)
      reads this
      ensures b <==> ship in statuses && StatusValid(statuses[ship], now)
      ensures b ==> GetStatus(ship, now).Some?
    {
      if ship in statuses then
        match statuses[ship].expiresAt
        case Some(e) => now < e
        case None => false
      else
        false
    }

    /** `get_all_valid_statuses`: exactly the statuses `get_status` would return, each once. */
    method GetAllValidStatuses(now: nat) returns (r: seq<ShipStatus>)
      requires Valid()
      ensures forall i :: 0 <= i < |r| ==> GetStatus(r[i].shipSymbol, now) == Some(r[i])
      ensures forall k :: GetStatus(k, now).Some? ==> GetStatus(k, now).value in r
      ensures forall i, j :: 0 <= i < j < |r| ==> r[i] != r[j]
    {
      r := CollectLive(statuses, (s: ShipStatus) => s.shipSymbol, (s: ShipStatus) => StatusLive(s, now));
    }

    /**
     * `clear_expired`: each collection keeps exactly its live records,
     * unchanged; statuses without an expiry are kept.
     */
    method ClearExpired(now: nat)
      requires Valid()
      modifies this
      ensures Valid()
      ensures statuses.Keys == set k | k in old(statuses) && StatusLive(old(statuses)[k], now)
      ensures surveys.Keys == set k | k in old(surveys) && Unexpired(old(surveys)[k].expiration, now)
      ensures scans.Keys == set k | k in old(scans) && Unexpired(old(scans)[k].expiration, now)
      ensures forall k :: k in statuses ==> statuses[k] == old(statuses)[k]
      ensures forall k :: k in surveys ==> surveys[k] == old(surveys)[k]
      ensures forall k :: k in scans ==> scans[k] == old(scans)[k]
      ensures forall k :: GetStatus(k, now) == old(GetStatus(k, now))
      ensures forall k :: IsValid(k, now) == old(IsValid(k, now))
      ensures forall k :: IsSurveyValid(k, now) == old(IsSurveyValid(k, now))
      ensures forall k :: IsScanValid(k, now) == old(IsScanValid(k, now))
      ensures forall k :: GetSurvey(k).Some? ==> IsSurveyValid(k, now)
      ensures forall k :: GetScan(k).Some? ==> IsScanValid(k, now)
    {
      statuses := map k | k in statuses && StatusLive(statuses[k], now) :: statuses[k];
      surveys := map k | k in surveys && Unexpired(surveys[k].expiration, now) :: surveys[k];
      scans := map k | k in scans && Unexpired(scans[k].expiration, now) :: scans[k];
    }

    /** `len`: the number of ship statuses only; surveys and scans are not counted. */
    function Len(): (n: nat)
      reads this
      ensures n == |statuses.Keys|
      ensures n == 0 <==> statuses == map[]
    {
      |statuses|
    }

    /** `is_empty`: all three collections are empty (unlike `len`, which sees only statuses). */
    function IsEmpty(): (e: bool)
      reads this
      ensures e <==> statuses == map[] && surveys == map[] && scans == map[]
      ensures e ==> Len() == 0
    {
      |statuses| == 0 && |surveys| == 0 && |scans| == 0
    }

    /** `update_survey`: an expiration of 0 becomes `now + maxAge`; inserted under its symbol, replacing any previous one. */
    method UpdateSurvey(survey: Survey, now: nat)
      requires Valid()
      modifies this
      ensures Valid()
      ensures surveys == old(surveys)[survey.symbol :=
                survey.(expiration := StampExpiration(survey.expiration, now, maxAgeSeconds))]
      ensures statuses == old(statuses) && scans == old(scans)
      ensures GetSurvey(survey.symbol).Some?
      ensures GetSurvey(survey.symbol).value.(expiration := survey.expiration) == survey
    {
      var stamped := survey;
      if stamped.expiration == 0 {
        stamped := stamped.(expiration := now + maxAgeSeconds);
      }
      surveys := surveys[stamped.symbol := stamped];
    }

    /** `get_survey`: the stored survey whenever the key is present, expired or not. */
    function GetSurvey(waypoint: string): (r: Option<Survey>)
      reads this
      ensures r.Some? <==> waypoint in surveys
      ensures r.Some? ==> r.value == surveys[waypoint]
    {
      if waypoint in surveys then Some(surveys[waypoint]) else None
    }

    /** `remove_survey`: the key becomes absent; a missing key is not an error. */
    method RemoveSurvey(waypoint: string)
      requires Valid()
      modifies this
      ensures Valid()
      ensures surveys == old(surveys) - {waypoint}
      ensures statuses == old(statuses) && scans == old(scans)
      ensures waypoint !in old(surveys) ==> surveys == old(surveys)
    {
      surveys := surveys - {waypoint};
    }

    /** `is_survey_valid`: present and not yet expired. */
    function IsSurveyValid(waypoint: string, now: nat): (b: bool)
      reads this
      ensures b <==> GetSurvey(waypoint).Some? && Unexpired(GetSurvey(waypoint).value.expiration, now)
    {
      if waypoint in surveys then now < surveys[waypoint].expiration else false
    }

    /** `update_scan`: an expiration of 0 becomes `now + maxAge`; inserted under its symbol, replacing any previous one. */
    method UpdateScan(scan: Scan, now: nat)
      requires Valid()
      modifies this
      ensures Valid()
      ensures scans == old(scans)[scan.symbol :=
                scan.(expiration := StampExpiration(scan.expiration, now, maxAgeSeconds))]
      ensures statuses == old(statuses) && surveys == old(surveys)
      ensures GetScan(scan.symbol).Some?
      ensures GetScan(scan.symbol).value.(expiration := scan.expiration) == scan
    {
      var stamped := scan;
      if stamped.expiration == 0 {
        stamped := stamped.(expiration := now + maxAgeSeconds);
      }
      scans := scans[stamped.symbol := stamped];
    }

    /** `get_scan`: the stored scan whenever the key is present, expired or not. */
    function GetScan(waypoint: string): (r: Option<Scan>)
      reads this
      ensures r.Some? <==> waypoint in scans
      ensures r.Some? ==> r.value == scans[waypoint]
    {
      if waypoint in scans then Some(scans[waypoint]) else None
    }

    /** `remove_scan`: the key becomes absent; a missing key is not an error. */
    method RemoveScan(waypoint: string)
      requires Valid()
      modifies this
      ensures Valid()
      ensures scans == old(scans) - {waypoint}
      ensures statuses == old(statuses) && surveys == old(surveys)
      ensures waypoint !in old(scans) ==> scans == old(scans)
    {
      scans := scans - {waypoint};
    }

    /** `is_scan_valid`: present and not yet expired. */
    function IsScanValid(waypoint: string, now: nat): (b: bool)
      reads this
      ensures b <==> GetScan(waypoint).Some? && Unexpired(GetScan(waypoint).value.expiration, now)
    {
      if waypoint in scans then now < scans[waypoint].expiration else false
    }

    /** `get_all_valid_surveys`: exactly the surveys `is_survey_valid` accepts, each once. */
    method GetAllValidSurveys(now: nat) returns (r: seq<Survey>)
      requires Valid()
      ensures forall i :: 0 <= i < |r| ==> IsSurveyValid(r[i].symbol, now) && GetSurvey(r[i].symbol) == Some(r[i])
      ensures forall k :: IsSurveyValid(k, now) ==> GetSurvey(k).value in r
      ensures forall i, j :: 0 <= i < j < |r| ==> r[i] != r[j]
    {
      r := CollectLive(surveys, (s: Survey) => s.symbol, (s: Survey) => Unexpired(s.expiration, now));
    }

    /** `get_all_valid_scans`: exactly the scans `is_scan_valid` accepts, each once. */
    method GetAllValidScans(now: nat) returns (r: seq<Scan>)
      requires Valid()
      ensures forall i :: 0 <= i < |r| ==> IsScanValid(r[i].symbol, now) && GetScan(r[i].symbol) == Some(r[i])
      ensures forall k :: IsScanValid(k, now) ==> GetScan(k).value in r
      ensures forall i, j :: 0 <= i < j < |r| ==> r[i] != r[j]
    {
      r := CollectLive(scans, (s: Scan) => s.symbol, (s: Scan) => Unexpired(s.expiration, now));
    }
  }

  /**
   * Through the cache's own operations the asymmetry of `is_valid` and
   * `get_status` cannot be observed: every stored status has an expiry,
   * so the two agree on every key.
   */
  lemma GetStatusAgreesWithIsValid(st: StatusStorage, ship: string, now: nat)
    requires st.Valid()
    ensures st.GetStatus(ship, now).Some? <==> st.IsValid(ship, now)
  {
  }
}
