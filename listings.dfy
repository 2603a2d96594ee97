/** Direct boost activation and the lazy boost expiry of
    `src/controllers/listingController.js`. */
module Listings {
  import opened Common
  import opened Records
  import opened Ledger
  import opened Store

  /** `BOOST_DURATIONS`: the days a boost type lasts. */
  function BoostTypeDays(boostType: string): (r: Option<nat>)
    ensures r.Some? <==> boostType in {"DAY_1", "WEEK_1", "MONTH_1"}
    ensures r.Some? ==> r.value > 0
  {
    if boostType == "DAY_1" then Some(1)
    else if boostType == "WEEK_1" then Some(7)
    else if boostType == "MONTH_1" then Some(30)
    else None
  }

  /** Longer boost types last longer. */
  lemma BoostTypesAreOrdered()
    ensures BoostTypeDays("DAY_1").value < BoostTypeDays("WEEK_1").value < BoostTypeDays("MONTH_1").value
    ensures BoostTypeDays("WEEK_1").value == 7 * BoostTypeDays("DAY_1").value
  {
  }

  datatype ActivateError = ListingMissing | NotOwner | UnknownBoostType

  /** What `activateListingBoost` returns, or the error it throws. */
  datatype Activation =
    | ActivationThrew(error: ActivateError)
    | Activated(listingId: Id, boostType: string, startDate: Ms, endDate: Ms)

  /** `activateListingBoost`: listing, ownership and type are checked in this
      order before anything is written; then the overlap close, the new boost,
      the listing's cache fields and a notification to the seller. */
  function ActivateSpec(st: State, l: Id, seller: Id, boostType: string, now: Ms): (Activation, State) {
    if l !in st.listings then (ActivationThrew(ListingMissing), st)
    else if st.listings[l].seller != seller then (ActivationThrew(NotOwner), st)
    else match BoostTypeDays(boostType)
      case None => (ActivationThrew(UnknownBoostType), st)
      case Some(days) =>
        var end := now + days * DayMs;
        (Activated(l, boostType, now, end),
         st.(boosts := GrantBoost(st.boosts, ListingBoost(l, seller, Some(boostType), None, now, end, true, None, None, None)),
             listings := st.listings[l := st.listings[l].(isBoosted := true, boostExpiresAt := Some(end))],
             notifications := st.notifications + [Notification(seller, BoostActivated)]))
  }

  /** A failed activation writes nothing. A successful one keeps the store
      invariant, leaves the listing exactly one active boost, the new one,
      lasting the type's days, returns that boost's start and end, and makes
      the listing's cache fields agree with it. */
  lemma ActivateGrantsOneBoost(st: State, l: Id, seller: Id, boostType: string, now: Ms)
    requires Invariant(st)
    ensures var (r, st') := ActivateSpec(st, l, seller, boostType, now);
      && Invariant(st')
      && (r.ActivationThrew? ==> st' == st)
      && (r.ActivationThrew? <==> l !in st.listings || st.listings[l].seller != seller || BoostTypeDays(boostType).None?)
      && (r.Activated? ==>
            var n := |st.boosts|;
            && |st'.boosts| == n + 1
            && st'.boosts[n].isActive && st'.boosts[n].listingId == l && st'.boosts[n].boostType == Some(boostType)
            && st'.boosts[n].startDate == r.startDate == now
            && st'.boosts[n].endDate == r.endDate == now + BoostTypeDays(boostType).value * DayMs
            && (forall i :: 0 <= i < |st'.boosts| && st'.boosts[i].isActive && st'.boosts[i].listingId == l ==> i == n)
            && BoostsOnlyDeactivated(st.boosts, st'.boosts[..n])
            && st'.listings[l].isBoosted && st'.listings[l].boostExpiresAt == Some(r.endDate)
            && st'.subscriptions == st.subscriptions && st'.payments == st.payments)
  {
    if l in st.listings && st.listings[l].seller == seller && BoostTypeDays(boostType).Some? {
      var end := now + BoostTypeDays(boostType).value * DayMs;
      GrantBoostSpec(st.boosts, ListingBoost(l, seller, Some(boostType), None, now, end, true, None, None, None));
    }
  }

  /** The activation as a store method. */
  method ActivateListingBoost(db: Db, l: Id, seller: Id, boostType: string, now: Ms) returns (r: Activation)
    modifies db
    ensures (r, db.Snapshot()) == ActivateSpec(old(db.Snapshot()), l, seller, boostType, now)
  {
    if l !in db.listings {
      return ActivationThrew(ListingMissing);
    }
    var listing := db.listings[l];
    if listing.seller != seller {
      return ActivationThrew(NotOwner);
    }
    var days := BoostTypeDays(boostType);
    if days.None? {
      return ActivationThrew(UnknownBoostType);
    }
    var end := now + days.value * DayMs;
    db.DeactivateBoostsOf(l);
    db.boosts := db.boosts + [ListingBoost(l, seller, Some(boostType), None, now, end, true, None, None, None)];
    db.listings := db.listings[l := listing.(isBoosted := true, boostExpiresAt := Some(end))];
    db.notifications := db.notifications + [Notification(seller, BoostActivated)];
    r := Activated(l, boostType, now, end);
  }

  /** The boost cache of a listing switched off. */
  function ClearBoost(listing: Listing): (r: Listing)
    ensures !r.isBoosted && r.boostExpiresAt.None?
    ensures r.(isBoosted := listing.isBoosted, boostExpiresAt := listing.boostExpiresAt) == listing
  {
    listing.(isBoosted := false, boostExpiresAt := None)
  }

  /** Whether a read clears the listing's boost: it is boosted with an
      expiry strictly before now. */
  predicate LazilyExpired(listing: Listing, now: Ms) {
    listing.isBoosted && listing.boostExpiresAt.Some? && listing.boostExpiresAt.value < now
  }

  /** The listing a read returns (and stores). */
  function LazyExpire(listing: Listing, now: Ms): (r: Listing)
    ensures LazilyExpired(listing, now) ==> r == ClearBoost(listing)
    ensures !LazilyExpired(listing, now) ==> r == listing
  {
    if LazilyExpired(listing, now) then ClearBoost(listing) else listing
  }

  /** A read never leaves an expired boost showing, a second read changes
      nothing, and a boost still running is left alone. */
  lemma LazyExpireSettles(listing: Listing, now: Ms, later: Ms)
    requires now <= later
    ensures !LazilyExpired(LazyExpire(listing, now), now)
    ensures LazyExpire(LazyExpire(listing, now), later) == LazyExpire(listing, later)
    ensures listing.boostExpiresAt.Some? && listing.boostExpiresAt.value >= now ==> LazyExpire(listing, now) == listing
    ensures LazyExpire(listing, now).status == listing.status && LazyExpire(listing, now).seller == listing.seller
  {
  }

  datatype ReadResponse = ListingNotFound | ListingFound(listing: Listing)

  /** `getListingById`: a missing listing is answered 404; otherwise the
      listing is returned after the lazy expiry, which is also stored. */
  method GetListingById(db: Db, id: Id, now: Ms) returns (resp: ReadResponse)
    modifies db`listings
    ensures id !in old(db.listings) ==> resp == ListingNotFound && db.listings == old(db.listings)
    ensures id in old(db.listings) ==>
      resp == ListingFound(LazyExpire(old(db.listings)[id], now))
      && db.listings == old(db.listings)[id := resp.listing]
  {
    if id !in db.listings {
      return ListingNotFound;
    }
    var listing := db.listings[id];
    if listing.isBoosted && listing.boostExpiresAt.Some? && listing.boostExpiresAt.value < now {
      listing := listing.(isBoosted := false, boostExpiresAt := None);
    }
    db.listings := db.listings[id := listing];
    resp := ListingFound(listing);
  }
}
