/** The listing expiry sweep of `src/cron/deactivateExpiredListings.js`:
    every active listing whose publication has expired becomes passive, and
    its seller is notified. */
module ExpiredListings {
  import opened Common
  import opened Records
  import opened Store

  /** The selection: active, with an expiry at or before now. */
  predicate Due(listing: Listing, now: Ms) {
    listing.status == ActiveListing && listing.expiresAt.Some? && listing.expiresAt.value <= now
  }

  function DueIds(listings: map<Id, Listing>, now: Ms): set<Id> {
    set id | id in listings && Due(listings[id], now)
  }

  /** `listings` with those in `ids` made passive. */
  function Passivate(listings: map<Id, Listing>, ids: set<Id>): map<Id, Listing> {
    map id | id in listings :: if id in ids then listings[id].(status := PassiveListing) else listings[id]
  }

  /** The listings after the sweep. */
  function ExpireListings(listings: map<Id, Listing>, now: Ms): map<Id, Listing> {
    Passivate(listings, DueIds(listings, now))
  }

  /** The sweep makes exactly the selected listings passive, changes nothing
      else about them, never reactivates a listing, and leaves nothing
      selected, so a second sweep at the same instant changes nothing. */
  lemma ExpireListingsSpec(listings: map<Id, Listing>, now: Ms)
    ensures var r := ExpireListings(listings, now);
      && r.Keys == listings.Keys
      && (forall id :: id in listings && Due(listings[id], now) ==> r[id] == listings[id].(status := PassiveListing))
      && (forall id :: id in listings && !Due(listings[id], now) ==> r[id] == listings[id])
      && (forall id :: id in listings && listings[id].status == PassiveListing ==> r[id].status == PassiveListing)
      && DueIds(r, now) == {}
      && ExpireListings(r, now) == r
  {
    var r := ExpireListings(listings, now);
    assert DueIds(r, now) == {};
    assert Passivate(r, {}) == r;
  }

  /** One more listing made passive. */
  lemma PassivateStep(listings: map<Id, Listing>, done: set<Id>, id: Id)
    requires id in listings
    ensures Passivate(listings, done)[id := Passivate(listings, done)[id].(status := PassiveListing)] == Passivate(listings, done + {id})
  {
  }

  /** One more listing of the selection visited: it is made passive and its
      seller gets one more notice. */
  lemma ExpireStep(listings: map<Id, Listing>, notes: seq<Notification>, found: seq<Id>, k: nat)
    requires k < |found| && forall j :: 0 <= j < |found| ==> found[j] in listings
    ensures var cur := Passivate(listings, Elems(found[..k]));
      && found[k] in cur
      && cur[found[k] := cur[found[k]].(status := PassiveListing)] == Passivate(listings, Elems(found[..k + 1]))
      && notes + SellerNotices(listings, found[..k], ListingExpired) + [Notification(cur[found[k]].seller, ListingExpired)]
         == notes + SellerNotices(listings, found[..k + 1], ListingExpired)
  {
    assert found[..k + 1] == found[..k] + [found[k]];
    assert Elems(found[..k + 1]) == Elems(found[..k]) + {found[k]};
    PassivateStep(listings, Elems(found[..k]), found[k]);
    SellerNoticesStep(listings, found[..k], found[k], ListingExpired);
  }

  /** `deactivateExpiredListings`. `processed` is the order the listings were
      visited in. Store failures are not modelled, so the catch-all never
      fires. */
  method DeactivateExpiredListings(db: Db, now: Ms) returns (processed: seq<Id>)
    modifies db`listings, db`notifications
    ensures db.listings == ExpireListings(old(db.listings), now)
    ensures forall id :: id in processed <==> id in DueIds(old(db.listings), now)
    ensures forall a, b :: 0 <= a < b < |processed| ==> processed[a] != processed[b]
    ensures forall j :: 0 <= j < |processed| ==> processed[j] in old(db.listings)
    ensures db.notifications == old(db.notifications) + SellerNotices(old(db.listings), processed, ListingExpired)
  {
    ghost var listings0 := db.listings;
    ghost var notes0 := db.notifications;
    processed := Enumerate(DueIds(db.listings, now));
    assert forall j :: 0 <= j < |processed| ==> processed[j] in Elems(processed);
    var k := 0;
    assert Elems(processed[..0]) == {};
    while k < |processed|
      invariant 0 <= k <= |processed|
      invariant db.listings == Passivate(listings0, Elems(processed[..k]))
      invariant db.notifications == notes0 + SellerNotices(listings0, processed[..k], ListingExpired)
    {
      var id := processed[k];
      ExpireStep(listings0, notes0, processed, k);
      var listing := db.listings[id];
      db.listings := db.listings[id := listing.(status := PassiveListing)];
      db.notifications := db.notifications + [Notification(listing.seller, ListingExpired)];
      k := k + 1;
    }
    assert processed[..k] == processed;
  }
}
