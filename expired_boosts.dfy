/** The boost expiry sweep of `src/cron/deactivateExpiredBoosts.js`: the
    active boosts whose end has passed are switched off one by one, and each
    one's listing loses its boost cache. */
module ExpiredBoosts {
  import opened Common
  import opened Records
  import opened Ledger
  import opened Store

  /** The selection: active, with an end at or before now. */
  predicate Expired(b: ListingBoost, now: Ms) {
    b.isActive && b.endDate <= now
  }

  /** The positions of the selected boosts, in storage order. */
  function ExpiredIndices(boosts: seq<ListingBoost>, now: Ms): (r: seq<nat>)
    ensures forall k :: 0 <= k < |r| ==> r[k] < |boosts| && Expired(boosts[r[k]], now)
    ensures forall i :: 0 <= i < |boosts| && Expired(boosts[i], now) ==> i in r
    ensures forall a, b :: 0 <= a < b < |r| ==> r[a] < r[b]
  {
    if boosts == [] then []
    else
      var prefix := ExpiredIndices(boosts[..|boosts| - 1], now);
      if Expired(boosts[|boosts| - 1], now) then prefix + [|boosts| - 1] else prefix
  }

  /** The ledger after the sweep. */
  function SweepBoosts(boosts: seq<ListingBoost>, now: Ms): seq<ListingBoost> {
    seq(|boosts|, i requires 0 <= i < |boosts| =>
      if Expired(boosts[i], now) then boosts[i].(isActive := false) else boosts[i])
  }

  /** The listings whose boost cache the sweep clears. */
  function ExpiredListingIds(boosts: seq<ListingBoost>, now: Ms): set<Id> {
    set b | b in boosts && Expired(b, now) :: b.listingId
  }

  /** `listings` with the boost cache of every listing in `ids` cleared
      (a listing that does not exist is skipped). */
  function ClearBoostFlags(listings: map<Id, Listing>, ids: set<Id>): map<Id, Listing> {
    map l | l in listings :: if l in ids then listings[l].(isBoosted := false, boostExpiresAt := None) else listings[l]
  }

  /** The sweep only switches boosts off, keeps the overlap invariant, leaves
      every boost not yet ended as it was, and leaves nothing selected, so a
      second sweep at the same instant changes nothing. */
  lemma SweepOnlyDeactivates(boosts: seq<ListingBoost>, now: Ms)
    ensures BoostsOnlyDeactivated(boosts, SweepBoosts(boosts, now))
    ensures BoostsOverlapFree(boosts) ==> BoostsOverlapFree(SweepBoosts(boosts, now))
    ensures forall i :: 0 <= i < |boosts| && boosts[i].endDate > now ==> SweepBoosts(boosts, now)[i] == boosts[i]
    ensures forall i :: 0 <= i < |boosts| ==> (SweepBoosts(boosts, now)[i].isActive <==> boosts[i].isActive && boosts[i].endDate > now)
    ensures ExpiredIndices(SweepBoosts(boosts, now), now) == []
    ensures SweepBoosts(SweepBoosts(boosts, now), now) == SweepBoosts(boosts, now)
  {
    NothingSelected(SweepBoosts(boosts, now), now);
  }

  /** A ledger with no ended active boost selects nothing. */
  lemma {:induction false} NothingSelected(boosts: seq<ListingBoost>, now: Ms)
    requires forall i :: 0 <= i < |boosts| ==> !Expired(boosts[i], now)
    ensures ExpiredIndices(boosts, now) == []
  {
    if boosts != [] {
      NothingSelected(boosts[..|boosts| - 1], now);
    }
  }

  /** Under the overlap invariant, a listing whose cache the sweep clears is
      left with no active boost, so the cleared cache tells the truth. */
  lemma ClearedListingsHaveNoActiveBoost(boosts: seq<ListingBoost>, now: Ms, l: Id)
    requires BoostsOverlapFree(boosts)
    requires l in ExpiredListingIds(boosts, now)
    ensures forall i :: 0 <= i < |boosts| && SweepBoosts(boosts, now)[i].listingId == l ==> !SweepBoosts(boosts, now)[i].isActive
  {
    var b :| b in boosts && Expired(b, now) && b.listingId == l;
    var j :| 0 <= j < |boosts| && boosts[j] == b;
    forall i | 0 <= i < |boosts| && SweepBoosts(boosts, now)[i].listingId == l
      ensures !SweepBoosts(boosts, now)[i].isActive
    {
      if boosts[i].isActive {
        assert i == j;
      }
    }
  }

  /** With nothing selected the sweep writes nothing. */
  lemma EmptySelectionWritesNothing(boosts: seq<ListingBoost>, listings: map<Id, Listing>, now: Ms)
    requires ExpiredIndices(boosts, now) == []
    ensures SweepBoosts(boosts, now) == boosts
    ensures ClearBoostFlags(listings, ExpiredListingIds(boosts, now)) == listings
  {
    assert ExpiredListingIds(boosts, now) == {} by {
      forall b | b in boosts
        ensures !Expired(b, now)
      {
        var i :| 0 <= i < |boosts| && boosts[i] == b;
      }
    }
  }

  /** `boosts` with the records at positions `done` switched off. */
  function SwitchOff(boosts: seq<ListingBoost>, done: set<nat>): seq<ListingBoost> {
    seq(|boosts|, i requires 0 <= i < |boosts| => if i in done then boosts[i].(isActive := false) else boosts[i])
  }

  /** The listings of the records at positions `done`. */
  function ListingsAt(boosts: seq<ListingBoost>, done: set<nat>): set<Id> {
    set i | i in done && i < |boosts| :: boosts[i].listingId
  }

  /** One more step of the sweep, on the ledger and on the listings. */
  lemma SweepStep(boosts: seq<ListingBoost>, listings: map<Id, Listing>, done: set<nat>, i: nat)
    requires i < |boosts|
    ensures SwitchOff(boosts, done)[i := SwitchOff(boosts, done)[i].(isActive := false)] == SwitchOff(boosts, done + {i})
    ensures SetBoostCache(ClearBoostFlags(listings, ListingsAt(boosts, done)), boosts[i].listingId, false, None)
      == ClearBoostFlags(listings, ListingsAt(boosts, done + {i}))
  {
    assert ListingsAt(boosts, done + {i}) == ListingsAt(boosts, done) + {boosts[i].listingId};
  }

  /** Once every selected position is done, the steps add up to the sweep. */
  lemma SweepComplete(boosts: seq<ListingBoost>, now: Ms, done: set<nat>)
    requires forall i :: i in done <==> i in ExpiredIndices(boosts, now)
    ensures SwitchOff(boosts, done) == SweepBoosts(boosts, now)
    ensures ListingsAt(boosts, done) == ExpiredListingIds(boosts, now)
  {
    forall l | l in ExpiredListingIds(boosts, now)
      ensures l in ListingsAt(boosts, done)
    {
      var b :| b in boosts && Expired(b, now) && b.listingId == l;
      var j :| 0 <= j < |boosts| && boosts[j] == b;
      assert j in done;
    }
  }

  /** `deactivateExpiredBoosts`. It returns how many boosts it switched off.
      Store failures are not modelled, so the catch-all never fires. */
  method DeactivateExpiredBoosts(db: Db, now: Ms) returns (count: nat)
    modifies db`boosts, db`listings
    ensures db.boosts == SweepBoosts(old(db.boosts), now)
    ensures db.listings == ClearBoostFlags(old(db.listings), ExpiredListingIds(old(db.boosts), now))
    ensures count == |ExpiredIndices(old(db.boosts), now)|
  {
    var expired := ExpiredIndices(db.boosts, now);
    if |expired| == 0 {
      EmptySelectionWritesNothing(db.boosts, db.listings, now);
      return 0;
    }
    ghost var boosts0 := db.boosts;
    ghost var listings0 := db.listings;
    ghost var done: set<nat> := {};
    assert db.boosts == SwitchOff(boosts0, done);
    assert db.listings == ClearBoostFlags(listings0, ListingsAt(boosts0, done));
    var k := 0;
    while k < |expired|
      invariant 0 <= k <= |expired|
      invariant forall i :: i in done <==> i in expired[..k]
      invariant db.boosts == SwitchOff(boosts0, done)
      invariant db.listings == ClearBoostFlags(listings0, ListingsAt(boosts0, done))
    {
      var i := expired[k];
      SweepStep(boosts0, listings0, done, i);
      db.boosts := db.boosts[i := db.boosts[i].(isActive := false)];
      db.listings := SetBoostCache(db.listings, db.boosts[i].listingId, false, None);
      assert expired[..k + 1] == expired[..k] + [i];
      done := done + {i};
      k := k + 1;
    }
    assert expired[..k] == expired;
    SweepComplete(boosts0, now, done);
    count := |expired|;
  }
}
