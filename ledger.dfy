/** The entitlement ledger: subscriptions and listing boosts, the
    overlap-close operation every grant performs, and the invariant it keeps
    (at most one active subscription per user, one active boost per listing). */
module Ledger {
  import opened Common
  import opened Records

  ghost predicate SubsOverlapFree(subs: seq<Subscription>) {
    forall i, j ::
      (0 <= i < |subs| && 0 <= j < |subs| && subs[i].isActive && subs[j].isActive && subs[i].userId == subs[j].userId)
      ==> i == j
  }

  ghost predicate BoostsOverlapFree(boosts: seq<ListingBoost>) {
    forall i, j ::
      (0 <= i < |boosts| && 0 <= j < |boosts| && boosts[i].isActive && boosts[j].isActive
       && boosts[i].listingId == boosts[j].listingId)
      ==> i == j
  }

  /** `after` is `before` with some records switched off and nothing else changed. */
  ghost predicate SubsOnlyDeactivated(before: seq<Subscription>, after: seq<Subscription>) {
    |after| == |before|
    && forall i :: 0 <= i < |before| ==> after[i] == before[i] || after[i] == before[i].(isActive := false)
  }

  ghost predicate BoostsOnlyDeactivated(before: seq<ListingBoost>, after: seq<ListingBoost>) {
    |after| == |before|
    && forall i :: 0 <= i < |before| ==> after[i] == before[i] || after[i] == before[i].(isActive := false)
  }

  /** Switching records off never creates an overlap. */
  lemma DeactivatingKeepsOverlapFree(b0: seq<Subscription>, b1: seq<Subscription>, l0: seq<ListingBoost>, l1: seq<ListingBoost>)
    requires SubsOverlapFree(b0) && SubsOnlyDeactivated(b0, b1)
    requires BoostsOverlapFree(l0) && BoostsOnlyDeactivated(l0, l1)
    ensures SubsOverlapFree(b1) && BoostsOverlapFree(l1)
  {
  }

  /** `updateMany({ userId: u }, { isActive: false })`. Filtering on
      `isActive: true` as well gives the same records, so both forms the
      source uses are this function. */
  function CloseUserSubscriptions(subs: seq<Subscription>, u: Id): seq<Subscription> {
    seq(|subs|, i requires 0 <= i < |subs| =>
      if subs[i].userId == u then subs[i].(isActive := false) else subs[i])
  }

  /** `updateMany({ listingId: l, isActive: true }, { isActive: false })`. */
  function CloseListingBoosts(boosts: seq<ListingBoost>, l: Id): seq<ListingBoost> {
    seq(|boosts|, i requires 0 <= i < |boosts| =>
      if boosts[i].listingId == l && boosts[i].isActive then boosts[i].(isActive := false) else boosts[i])
  }

  /** Overlap close, then the new record. */
  function GrantSubscription(subs: seq<Subscription>, s: Subscription): seq<Subscription> {
    CloseUserSubscriptions(subs, s.userId) + [s]
  }

  function GrantBoost(boosts: seq<ListingBoost>, b: ListingBoost): seq<ListingBoost> {
    CloseListingBoosts(boosts, b.listingId) + [b]
  }

  /** A grant keeps the invariant, appends the new record, switches off only
      records of the same user, and leaves the new one the user's only active
      subscription. */
  lemma GrantSubscriptionSpec(subs: seq<Subscription>, s: Subscription)
    requires SubsOverlapFree(subs) && s.isActive
    ensures var r := GrantSubscription(subs, s);
      && SubsOverlapFree(r)
      && |r| == |subs| + 1 && r[|subs|] == s
      && SubsOnlyDeactivated(subs, r[..|subs|])
      && (forall i :: 0 <= i < |subs| && subs[i].userId != s.userId ==> r[i] == subs[i])
      && (forall i :: 0 <= i < |r| && r[i].isActive && r[i].userId == s.userId ==> i == |subs|)
  {
    var r := GrantSubscription(subs, s);
    assert r[..|subs|] == CloseUserSubscriptions(subs, s.userId);
  }

  /** The same for boosts and listings. */
  lemma GrantBoostSpec(boosts: seq<ListingBoost>, b: ListingBoost)
    requires BoostsOverlapFree(boosts) && b.isActive
    ensures var r := GrantBoost(boosts, b);
      && BoostsOverlapFree(r)
      && |r| == |boosts| + 1 && r[|boosts|] == b
      && BoostsOnlyDeactivated(boosts, r[..|boosts|])
      && (forall i :: 0 <= i < |boosts| && boosts[i].listingId != b.listingId ==> r[i] == boosts[i])
      && (forall i :: 0 <= i < |r| && r[i].isActive && r[i].listingId == b.listingId ==> i == |boosts|)
  {
    var r := GrantBoost(boosts, b);
    assert r[..|boosts|] == CloseListingBoosts(boosts, b.listingId);
  }

  /** Closing alone keeps the invariant too (a grant that fails after its
      overlap close leaves this state). */
  lemma CloseSubscriptionsSpec(subs: seq<Subscription>, u: Id)
    requires SubsOverlapFree(subs)
    ensures SubsOverlapFree(CloseUserSubscriptions(subs, u))
    ensures SubsOnlyDeactivated(subs, CloseUserSubscriptions(subs, u))
    ensures forall s :: s in CloseUserSubscriptions(subs, u) && s.userId == u ==> !s.isActive
  {
  }

  /** `Subscription.findOne({ userId: u, isActive: true, endDate: { $gt: now } })`:
      the first such record. */
  function FindActiveSubscription(subs: seq<Subscription>, u: Id, now: Ms): (r: Option<nat>)
    ensures r.Some? ==> r.value < |subs| && subs[r.value].userId == u && subs[r.value].isActive && subs[r.value].endDate > now
    ensures r.None? ==> forall i :: 0 <= i < |subs| ==> !(subs[i].userId == u && subs[i].isActive && subs[i].endDate > now)
  {
    if subs == [] then None
    else match FindActiveSubscription(subs[..|subs| - 1], u, now)
      case Some(i) => Some(i)
      case None =>
        var last := subs[|subs| - 1];
        if last.userId == u && last.isActive && last.endDate > now then Some(|subs| - 1) else None
  }

  /** Under the invariant the query has one possible answer, so the plan it
      resolves does not depend on the order the database returns records in. */
  lemma {:induction false} ActiveSubscriptionIsUnique(subs: seq<Subscription>, u: Id, now: Ms, i: nat)
    requires SubsOverlapFree(subs)
    requires i < |subs| && subs[i].userId == u && subs[i].isActive && subs[i].endDate > now
    ensures FindActiveSubscription(subs, u, now) == Some(i)
  {
    var prefix := subs[..|subs| - 1];
    assert SubsOverlapFree(prefix) by {
      forall a, b | 0 <= a < |prefix| && 0 <= b < |prefix| && prefix[a].isActive && prefix[b].isActive
        && prefix[a].userId == prefix[b].userId
        ensures a == b
      {
        assert prefix[a] == subs[a] && prefix[b] == subs[b];
      }
    }
    if i < |subs| - 1 {
      assert prefix[i] == subs[i];
      ActiveSubscriptionIsUnique(prefix, u, now, i);
    } else {
      assert FindActiveSubscription(prefix, u, now).None?;
    }
  }

  /** `Listing.countDocuments({ seller, status: "ACTIVE" })`. */
  function CountActiveListings(listings: map<Id, Listing>, seller: Id): nat {
    |set id | id in listings && listings[id].seller == seller && listings[id].status == ActiveListing|
  }
}
