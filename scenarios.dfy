/**
 * Client scenarios over the cache, following the unit tests of the status
 * cache, with the clock made explicit. Their postconditions state what the
 * code does at the given times, which is not always what the tests assert.
 */
module Scenarios {
  import opened Ints
  import opened Storage

  function Ship123(expiresAt: Option<nat>, fuel: i32): (s: ShipStatus)
  {
    ShipStatus("SHIP-123", Idle, "X1-ABCD-1234", [], fuel, 0, expiresAt)
  }

  /** A fresh cache has no statuses and is empty. */
  method CreationScenario() returns (len: nat, empty: bool)
    ensures len == 0 && empty
  {
    var st := new StatusStorage();
    len := st.Len();
    empty := st.IsEmpty();
  }

  /**
   * A status stored with the explicit expiry 3600 (one hour after the Unix
   * epoch) keeps that expiry, so `get_status` finds it only if the clock
   * reads before 3600.
   */
  method UpdateAndGetScenario(now: nat) returns (r: Option<ShipStatus>)
    ensures r.Some? <==> now < 3600
    ensures r.Some? ==> r.value.shipSymbol == "SHIP-123" && r.value.expiresAt == Some(3600)
  {
    var st := new StatusStorage();
    st.UpdateStatus(Ship123(Some(3600), 100), now);
    r := st.GetStatus("SHIP-123", now);
  }

  /**
   * With a TTL of one second, a status written at `now` is valid at once;
   * a sweep and check at `later` removes it only if at least one second has
   * passed, so within the same second it stays valid.
   */
  method ExpirationScenario(now: nat, later: nat) returns (before: bool, after: bool)
    requires now <= later
    ensures before
    ensures after <==> later == now
  {
    var st := new StatusStorage.WithMaxAge(1);
    st.UpdateStatus(Ship123(None, 100), now);
    before := st.IsValid("SHIP-123", now);
    st.ClearExpired(later);
    after := st.IsValid("SHIP-123", later);
  }

  /** A stored survey is returned by `get_survey` even once it has expired. */
  method SurveyScenario(now: nat) returns (r: Option<Survey>, valid: bool)
    ensures r == Some(Survey("X1-ABCD-1234", ["IRON_ORE", "SILVER"], 3600, Large))
    ensures valid <==> now < 3600
  {
    var st := new StatusStorage();
    st.UpdateSurvey(Survey("X1-ABCD-1234", ["IRON_ORE", "SILVER"], 3600, Large), now);
    r := st.GetSurvey("X1-ABCD-1234");
    valid := st.IsSurveyValid("X1-ABCD-1234", now);
  }

  /** A stored scan comes back whole: symbol, both materials and expiration. */
  method ScanScenario(now: nat) returns (r: Option<Scan>)
    ensures r == Some(Scan("X1-ABCD-1234", [ScanMaterial("IRON_ORE", 100), ScanMaterial("SILVER", 50)], 3600))
  {
    var st := new StatusStorage();
    st.UpdateScan(Scan("X1-ABCD-1234", [ScanMaterial("IRON_ORE", 100), ScanMaterial("SILVER", 50)], 3600), now);
    r := st.GetScan("X1-ABCD-1234");
  }

  /** A survey with expiration 0 is stored with `now + 300` under the default TTL. */
  method ZeroExpirationScenario(now: nat) returns (r: Option<Survey>)
    ensures r.Some? && r.value.expiration == now + 300
  {
    var st := new StatusStorage();
    st.UpdateSurvey(Survey("X1-ABCD-1234", [], 0, Small), now);
    r := st.GetSurvey("X1-ABCD-1234");
  }

  /** Surveys alone leave `len` at 0 while `is_empty` is false. */
  method SurveysOnlyScenario(now: nat) returns (len: nat, empty: bool)
    ensures len == 0 && !empty
  {
    var st := new StatusStorage();
    st.UpdateSurvey(Survey("X1-A", [], 0, Small), now);
    st.UpdateSurvey(Survey("X1-B", [], 0, Medium), now);
    st.UpdateSurvey(Survey("X1-C", [], 0, Large), now);
    len := st.Len();
    empty := st.IsEmpty();
  }

  /** Writing the same ship twice keeps the second record and one entry. */
  method OverwriteScenario(now: nat) returns (r: Option<ShipStatus>, len: nat)
    ensures r.Some? && r.value.fuel == 50
    ensures len == 1
  {
    var st := new StatusStorage();
    st.UpdateStatus(Ship123(None, 100), now);
    st.UpdateStatus(Ship123(None, 50), now);
    r := st.GetStatus("SHIP-123", now);
    len := st.Len();
  }
}
