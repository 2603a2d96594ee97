/** The seller plan middleware `checkSellerPlan`
    (`src/middleware/checkSellerPlan.js`): it resolves the seller's plan from
    the subscription ledger, brings the user's plan cache in line with it, and
    lets a new listing through only while the seller is under the plan's
    quota. */
module SellerPlan {
  import opened Common
  import opened Catalog
  import opened Records
  import opened Ledger
  import opened Store
  import opened Plans

  /** What the ledger says the seller's plan is. */
  datatype Resolution =
    | NoSubscription                          // no active, unexpired subscription
    | Subscribed(name: string, endDate: Ms)   // the subscription's package name and end
    | PackageMissing                          // the subscription's package no longer exists

  /** `Subscription.findOne({ userId, isActive: true, endDate: { $gt: now } })
      .populate("packageId")`. */
  function ResolvePlan(st: State, u: Id, now: Ms): (r: Resolution)
    ensures r.NoSubscription? <==> forall i :: 0 <= i < |st.subscriptions| ==>
      !(st.subscriptions[i].userId == u && st.subscriptions[i].isActive && st.subscriptions[i].endDate > now)
    ensures r.Subscribed? ==>
      exists i, p ::
        && 0 <= i < |st.subscriptions| && p in st.packages
        && st.subscriptions[i].userId == u && st.subscriptions[i].isActive && st.subscriptions[i].endDate > now
        && p.id == st.subscriptions[i].packageId && r.name == p.name && r.endDate == st.subscriptions[i].endDate
  {
    match FindActiveSubscription(st.subscriptions, u, now)
    case None => NoSubscription
    case Some(i) =>
      match FindPackageById(st.packages, st.subscriptions[i].packageId)
      case None => PackageMissing
      case Some(p) => Subscribed(p.name, st.subscriptions[i].endDate)
  }

  /** The plan name a resolution stands for: the package's, else "basic". */
  function PlanName(r: Resolution): string {
    if r.Subscribed? then r.name else "basic"
  }

  /** The plan cache a resolution calls for. */
  function CachedExpiry(r: Resolution): Option<Ms> {
    if r.Subscribed? then Some(r.endDate) else None
  }

  /** The middleware's answers: 403 for a missing user or a non-seller, 500
      when the subscription's package is gone, 403 for a plan missing from
      the table, 403 `PLAN_LIMIT_REACHED`, or on to the next handler. */
  datatype PlanCheck = SellerNotFound | PlanServerError | InvalidPlan | PlanLimitReached(maxListings: nat) | Proceed

  /** The quota step, after the cache sync. */
  function QuotaCheck(st: State, u: Id, name: string): PlanCheck {
    if name !in SellerPlans then InvalidPlan
    else match SellerPlans[name].maxListings
      case Unlimited => Proceed
      case Limited(n) => if CountActiveListings(st.listings, u) >= n then PlanLimitReached(n) else Proceed
  }

  /** The whole middleware on a store state. The cache is written only when
      the cached plan name differs from the resolved one. */
  function CheckSellerPlanSpec(st: State, u: Id, now: Ms): (PlanCheck, State) {
    if u !in st.users || st.users[u].role != Seller then (SellerNotFound, st)
    else
      var res := ResolvePlan(st, u, now);
      if res.PackageMissing? then (PlanServerError, st)
      else
        var st' := if st.users[u].plan != Some(PlanName(res))
          then st.(users := SetPlanCache(st.users, u, Some(PlanName(res)), CachedExpiry(res)))
          else st;
        (QuotaCheck(st', u, PlanName(res)), st')
  }

  /** Only the seller's plan cache is ever written, and only to what the
      ledger says; it is written exactly when it disagreed; the request
      proceeds exactly when the resolved plan is in the table and the seller
      is under its quota; a refusal for quota names the plan's limit, which
      the seller's active listings have reached. */
  lemma CheckSellerPlanContract(st: State, u: Id, now: Ms)
    ensures var (r, st') := CheckSellerPlanSpec(st, u, now);
      var res := ResolvePlan(st, u, now);
      && st' == st.(users := st'.users)
      && st'.users.Keys == st.users.Keys
      && (Invariant(st) ==> Invariant(st'))
      && (r.SellerNotFound? <==> u !in st.users || st.users[u].role != Seller)
      && (r.SellerNotFound? || r.PlanServerError? ==> st' == st)
      && (u in st.users && st.users[u].role == Seller ==> (r.PlanServerError? <==> res.PackageMissing?))
      && (!r.SellerNotFound? && !r.PlanServerError? ==>
            && st'.users == st.users[u := st'.users[u]]
            && st'.users[u].plan == Some(PlanName(res))
            && (st' == st <==> st.users[u].plan == Some(PlanName(res)))
            && (st' != st ==> st'.users[u] == st.users[u].(plan := Some(PlanName(res)), planExpiresAt := CachedExpiry(res))))
      && (r.Proceed? <==>
            && u in st.users && st.users[u].role == Seller && !res.PackageMissing?
            && PlanName(res) in SellerPlans
            && UnderQuota(CountActiveListings(st.listings, u), SellerPlans[PlanName(res)].maxListings))
      && (r.PlanLimitReached? ==>
            && PlanName(res) in SellerPlans
            && SellerPlans[PlanName(res)].maxListings == Limited(r.maxListings)
            && CountActiveListings(st.listings, u) >= r.maxListings)
  {
  }

  /** A second run right after the first gives the same answer and writes
      nothing: the first one left the cache in sync. */
  lemma CheckSellerPlanIsIdempotent(st: State, u: Id, now: Ms)
    ensures var (r, st') := CheckSellerPlanSpec(st, u, now);
      CheckSellerPlanSpec(st', u, now) == (r, st')
  {
    var (r, st') := CheckSellerPlanSpec(st, u, now);
    if u in st.users && st.users[u].role == Seller {
      assert st'.subscriptions == st.subscriptions && st'.packages == st.packages;
      assert ResolvePlan(st', u, now) == ResolvePlan(st, u, now);
    }
  }

  /** A seller with no running subscription is on the basic plan: five active
      listings at most, and a cached plan of anything else is reset to
      "basic" with no expiry. */
  lemma UnsubscribedSellerIsBasic(st: State, u: Id, now: Ms)
    requires u in st.users && st.users[u].role == Seller
    requires forall i :: 0 <= i < |st.subscriptions| ==> st.subscriptions[i].userId != u
    ensures var (r, st') := CheckSellerPlanSpec(st, u, now);
      && (r.Proceed? <==> CountActiveListings(st.listings, u) < 5)
      && (!r.Proceed? ==> r == PlanLimitReached(5))
      && st'.users[u].plan == Some("basic")
      && (st.users[u].plan != Some("basic") ==> st'.users[u].planExpiresAt.None?)
  {
    SellerPlansShape();
  }

  /** `checkSellerPlan`: the plan name is reassigned as the ledger is read,
      the cache fields are written in place, and the answer is returned. */
  method CheckSellerPlan(db: Db, u: Id, now: Ms) returns (r: PlanCheck)
    modifies db`users
    ensures (r, db.Snapshot()) == CheckSellerPlanSpec(old(db.Snapshot()), u, now)
  {
    if u !in db.users || db.users[u].role != Seller {
      return SellerNotFound;
    }
    var user := db.users[u];
    var found := FindActiveSubscription(db.subscriptions, u, now);
    var planName := "basic";
    if found.Some? {
      var sub := db.subscriptions[found.value];
      var pkg := FindPackageById(db.packages, sub.packageId);
      if pkg.None? {
        return PlanServerError;
      }
      planName := pkg.value.name;
      if user.plan != Some(planName) {
        db.users := db.users[u := user.(plan := Some(planName), planExpiresAt := Some(sub.endDate))];
      }
    } else {
      if user.plan != Some("basic") {
        db.users := db.users[u := user.(plan := Some("basic"), planExpiresAt := None)];
      }
    }
    if planName !in SellerPlans {
      return InvalidPlan;
    }
    var count := CountActiveListings(db.listings, u);
    match SellerPlans[planName].maxListings
    case Unlimited =>
      r := Proceed;
    case Limited(n) =>
      r := if count >= n then PlanLimitReached(n) else Proceed;
  }
}
