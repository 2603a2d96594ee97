/** One tick of the boost watcher of `src/jobs/boostJobs.js`: every listing
    whose boost cache shows an expiry at or before now has the cache cleared,
    and its seller is told the boost ended. */
module BoostJobs {
  import opened Common
  import opened Records
  import opened Store
  import opened Listings

  /** The selection: boosted, with a boost expiry at or before now. */
  predicate Lapsed(listing: Listing, now: Ms) {
    listing.isBoosted && listing.boostExpiresAt.Some? && listing.boostExpiresAt.value <= now
  }

  function LapsedIds(listings: map<Id, Listing>, now: Ms): set<Id> {
    set id | id in listings && Lapsed(listings[id], now)
  }

  /** `listings` with the boost cache of those in `ids` cleared. */
  function ClearCaches(listings: map<Id, Listing>, ids: set<Id>): map<Id, Listing> {
    map id | id in listings :: if id in ids then ClearBoost(listings[id]) else listings[id]
  }

  /** The listings after one tick. */
  function WatcherTick(listings: map<Id, Listing>, now: Ms): map<Id, Listing> {
    ClearCaches(listings, LapsedIds(listings, now))
  }

  /** A tick clears exactly the selected caches, changes nothing else about
      those listings, leaves every other listing as it was, and leaves nothing
      selected, so a second tick at the same instant changes nothing. */
  lemma WatcherTickSpec(listings: map<Id, Listing>, now: Ms)
    ensures var r := WatcherTick(listings, now);
      && r.Keys == listings.Keys
      && (forall id :: id in listings && Lapsed(listings[id], now) ==>
            !r[id].isBoosted && r[id].boostExpiresAt.None?
            && r[id].(isBoosted := true, boostExpiresAt := listings[id].boostExpiresAt) == listings[id])
      && (forall id :: id in listings && !Lapsed(listings[id], now) ==> r[id] == listings[id])
      && LapsedIds(r, now) == {}
      && WatcherTick(r, now) == r
  {
    var r := WatcherTick(listings, now);
    assert LapsedIds(r, now) == {};
    assert ClearCaches(r, {}) == r;
  }

  /** After a tick a read at the same instant finds nothing to expire. The
      two disagree at the boundary: a boost whose expiry is exactly now is
      cleared by the tick but left showing by a read. */
  lemma TickThenReadAgree(listings: map<Id, Listing>, now: Ms, id: Id)
    requires id in listings
    ensures LazyExpire(WatcherTick(listings, now)[id], now) == WatcherTick(listings, now)[id]
    ensures listings[id].isBoosted && listings[id].boostExpiresAt == Some(now) ==>
      !WatcherTick(listings, now)[id].isBoosted && LazyExpire(listings[id], now) == listings[id]
  {
  }

  /** One more listing of the selection visited: its cache is cleared and
      its seller gets one more notice. */
  lemma TickStep(listings: map<Id, Listing>, notes: seq<Notification>, found: seq<Id>, k: nat)
    requires k < |found| && forall j :: 0 <= j < |found| ==> found[j] in listings
    ensures var cur := ClearCaches(listings, Elems(found[..k]));
      && found[k] in cur
      && cur[found[k] := ClearBoost(cur[found[k]])] == ClearCaches(listings, Elems(found[..k + 1]))
      && notes + SellerNotices(listings, found[..k], BoostEnded) + [Notification(cur[found[k]].seller, BoostEnded)]
         == notes + SellerNotices(listings, found[..k + 1], BoostEnded)
  {
    assert found[..k + 1] == found[..k] + [found[k]];
    assert Elems(found[..k + 1]) == Elems(found[..k]) + {found[k]};
    SellerNoticesStep(listings, found[..k], found[k], BoostEnded);
  }

  /** The body of the watcher's interval. `processed` is the order the
      listings were visited in. Store failures are not modelled, so the
      catch-all never fires. */
  method BoostWatcherTick(db: Db, now: Ms) returns (processed: seq<Id>)
    modifies db`listings, db`notifications
    ensures db.listings == WatcherTick(old(db.listings), now)
    ensures forall id :: id in processed <==> id in LapsedIds(old(db.listings), now)
    ensures forall a, b :: 0 <= a < b < |processed| ==> processed[a] != processed[b]
    ensures forall j :: 0 <= j < |processed| ==> processed[j] in old(db.listings)
    ensures db.notifications == old(db.notifications) + SellerNotices(old(db.listings), processed, BoostEnded)
  {
    ghost var listings0 := db.listings;
    ghost var notes0 := db.notifications;
    processed := Enumerate(LapsedIds(db.listings, now));
    assert forall j :: 0 <= j < |processed| ==> processed[j] in Elems(processed);
    var k := 0;
    assert Elems(processed[..0]) == {};
    while k < |processed|
      invariant 0 <= k <= |processed|
      invariant db.listings == ClearCaches(listings0, Elems(processed[..k]))
      invariant db.notifications == notes0 + SellerNotices(listings0, processed[..k], BoostEnded)
    {
      var id := processed[k];
      TickStep(listings0, notes0, processed, k);
      var listing := db.listings[id];
      db.listings := db.listings[id := listing.(isBoosted := false, boostExpiresAt := None)];
      db.notifications := db.notifications + [Notification(listing.seller, BoostEnded)];
      k := k + 1;
    }
    assert processed[..k] == processed;
  }
}
