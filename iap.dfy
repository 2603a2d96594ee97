/** The App Store receipt flow of `src/controllers/iapController.js`: the
    product maps, receipt verification with its sandbox retry, the mock
    bypass, the premium and boost grants with boost de-duplication, and the
    subscription status query. */
module Iap {
  import opened Common
  import opened Catalog
  import opened Records
  import opened Ledger
  import opened Store

  /* ---------------------------------------------------------------
     Product maps
     --------------------------------------------------------------- */

  /** `PREMIUM_MAP`: the plan a premium product id buys. */
  function PremiumPlan(productId: string): (r: Option<string>)
    ensures r.Some? ==> r.value in {"basic", "standard", "pro"}
  {
    if productId == "trphone.premium.basic1" then Some("basic")
    else if productId == "trphone.premium.standard" then Some("standard")
    else if productId == "trphone.premium.pro" then Some("pro")
    else None
  }

  /** `BOOST_MAP`: the days a boost product id buys. */
  function BoostDays(productId: string): (r: Option<nat>)
    ensures r.Some? ==> r.value in {1, 7, 30}
  {
    if productId == "trphone.featured.1day" then Some(1)
    else if productId == "trphone.featured.7day" then Some(7)
    else if productId == "trphone.featured.30day" then Some(30)
    else None
  }

  /** The maps are disjoint, each plan and each duration is sold under one
      product id, and every product is backed by a seeded package of the
      same kind (and, for boosts, the same duration). */
  lemma ProductMapsAgreeWithSeed(p: string, q: string)
    ensures !(PremiumPlan(p).Some? && BoostDays(p).Some?)
    ensures PremiumPlan(p).Some? && PremiumPlan(p) == PremiumPlan(q) ==> p == q
    ensures BoostDays(p).Some? && BoostDays(p) == BoostDays(q) ==> p == q
    ensures PremiumPlan(p).Some? ==>
      exists i :: 0 <= i < |Seed| && Seed[i].name == PremiumPlan(p).value && Seed[i].kind == Membership
    ensures BoostDays(p).Some? ==>
      exists i :: 0 <= i < |Seed| && Seed[i].kind == BoostKind && Seed[i].durationDays == BoostDays(p).value
  {
    if PremiumPlan(p) == Some("basic") { assert Seed[0].name == "basic"; }
    if PremiumPlan(p) == Some("standard") { assert Seed[1].name == "standard"; }
    if PremiumPlan(p) == Some("pro") { assert Seed[2].name == "pro"; }
    if BoostDays(p) == Some(1) { assert Seed[3].durationDays == 1; }
    if BoostDays(p) == Some(7) { assert Seed[4].durationDays == 7; }
    if BoostDays(p) == Some(30) { assert Seed[5].durationDays == 30; }
  }

  /* ---------------------------------------------------------------
     Receipt verification
     --------------------------------------------------------------- */

  /** The newest transaction of a receipt (`latest_receipt_info[0]`); the
      instants are absent when Apple omits them. */
  datatype LatestReceipt = LatestReceipt(transactionId: Option<string>, purchaseMs: Option<Ms>, expiresMs: Option<Ms>)

  /** Apple's `verifyReceipt` answer. */
  datatype AppleResponse = AppleResponse(status: int, latest: Option<LatestReceipt>)

  /** The verification service: receipt data and whether the sandbox
      endpoint is asked. */
  type Verifier = (string, bool) -> AppleResponse

  /** The status Apple answers when a sandbox receipt is sent to production. */
  const SandboxReceiptStatus: int := 21007

  /** The answer the flow acts on. */
  function AppleVerdict(verify: Verifier, receipt: string): AppleResponse {
    var first := verify(receipt, false);
    if first.status == SandboxReceiptStatus then verify(receipt, true) else first
  }

  /** Verification as the handler performs it. `calls` lists the endpoints
      asked, in order (`true` for the sandbox): production first, and the
      sandbox once, exactly when production answered 21007. */
  method VerifyWithRetry(verify: Verifier, receipt: string) returns (res: AppleResponse, calls: seq<bool>)
    ensures calls == [false] || calls == [false, true]
    ensures |calls| == 2 <==> verify(receipt, false).status == SandboxReceiptStatus
    ensures res == verify(receipt, calls[|calls| - 1])
    ensures res == AppleVerdict(verify, receipt)
  {
    res := verify(receipt, false);
    calls := [false];
    if res.status == SandboxReceiptStatus {
      res := verify(receipt, true);
      calls := calls + [true];
    }
  }

  /* ---------------------------------------------------------------
     verifyIapPayment
     --------------------------------------------------------------- */

  /** The fields of the request the flow reads; `userId` is absent when the
      caller is not identified. */
  datatype IapRequest = IapRequest(userId: Option<Id>, receiptData: Option<string>, productId: Option<string>, listingId: Option<Id>)

  datatype IapResponse =
    | IapRejected(code: nat)
    | IapFailed                                     // an exception, answered 500
    | IapSubscription(plan: string, endDate: Ms, mock: bool)
    | IapBoost(listingId: Id, endDate: Ms, mock: bool)
    | IapDuplicate

  /** The receipt the mock path accepts. */
  const MockReceipt: string := "TEST_RECEIPT_DATA"

  /** Whether the mock path handles a request. A product in neither map
      falls through to real verification. */
  predicate MockApplies(mockEnv: Option<string>, receipt: string, product: string) {
    mockEnv == Some("true") && receipt == MockReceipt && (PremiumPlan(product).Some? || BoostDays(product).Some?)
  }

  /** Whether a receipt boost for this product and transaction was recorded. */
  predicate ReceiptUsed(boosts: seq<ListingBoost>, product: string, txn: Option<string>) {
    exists b :: b in boosts && b.productId == Some(product) && b.transactionId == txn
  }

  /** The mock path. Premium lasts 30 days, emits no notification, and throws
      after closing the user's subscriptions when its package is missing.
      Boost needs a listing id and checks neither ownership nor duplicates. */
  function MockGrant(st: State, u: Id, product: string, listingId: Option<Id>, now: Ms): (IapResponse, State)
    requires PremiumPlan(product).Some? || BoostDays(product).Some?
  {
    if PremiumPlan(product).Some? then
      var plan := PremiumPlan(product).value;
      var end := now + 30 * DayMs;
      match FindPackageByName(st.packages, plan, Membership)
      case None => (IapFailed, st.(subscriptions := CloseUserSubscriptions(st.subscriptions, u)))
      case Some(pkg) =>
        (IapSubscription(plan, end, true),
         st.(subscriptions := GrantSubscription(st.subscriptions, Subscription(u, pkg.id, now, end, true)),
             users := SetPlanCache(st.users, u, Some(plan), Some(end))))
    else if listingId.None? then (IapRejected(400), st)
    else
      var l := listingId.value;
      var end := now + BoostDays(product).value * DayMs;
      (IapBoost(l, end, true),
       st.(boosts := GrantBoost(st.boosts, ListingBoost(l, u, None, None, now, end, true, Some("mock"), Some(product), None)),
           listings := SetBoostCache(st.listings, l, true, Some(end))))
  }

  /** A verified premium receipt: the subscription spans the receipt's
      purchase and expiry instants. A missing package or instant makes the
      record creation throw after the user's subscriptions were closed. */
  function PremiumGrant(st: State, u: Id, plan: string, latest: LatestReceipt): (IapResponse, State) {
    var pkg := FindPackageByName(st.packages, plan, Membership);
    if pkg.None? || latest.purchaseMs.None? || latest.expiresMs.None? then
      (IapFailed, st.(subscriptions := CloseUserSubscriptions(st.subscriptions, u)))
    else
      var end := latest.expiresMs.value;
      (IapSubscription(plan, end, false),
       st.(subscriptions := GrantSubscription(st.subscriptions, Subscription(u, pkg.value.id, latest.purchaseMs.value, end, true)),
           users := SetPlanCache(st.users, u, Some(plan), Some(end)),
           notifications := st.notifications + [Notification(u, PremiumActivated)]))
  }

  /** The boost a verified receipt grants. */
  function ReceiptBoostRecord(l: Id, u: Id, product: string, txn: Option<string>, days: nat, now: Ms): (b: ListingBoost)
    ensures b.isActive && b.listingId == l && b.sellerId == u && b.startDate == now && b.endDate == now + days * DayMs
    ensures b.source == Some("iap") && b.productId == Some(product) && b.transactionId == txn
  {
    ListingBoost(l, u, None, None, now, now + days * DayMs, true, Some("iap"), Some(product), txn)
  }

  /** A verified boost receipt: listing id, de-duplication, listing,
      ownership, then the grant. */
  function ReceiptBoost(st: State, u: Id, product: string, listingId: Option<Id>, txn: Option<string>, days: nat, now: Ms): (IapResponse, State) {
    if listingId.None? then (IapRejected(400), st)
    else if ReceiptUsed(st.boosts, product, txn) then (IapDuplicate, st)
    else if listingId.value !in st.listings then (IapRejected(404), st)
    else if st.listings[listingId.value].seller != u then (IapRejected(403), st)
    else
      var l := listingId.value;
      var b := ReceiptBoostRecord(l, u, product, txn, days, now);
      (IapBoost(l, b.endDate, false),
       st.(boosts := GrantBoost(st.boosts, b),
           listings := SetBoostCache(st.listings, l, true, Some(b.endDate)),
           notifications := st.notifications + [Notification(u, ListingFeatured)]))
  }

  /** `verifyIapPayment`. */
  function IapSpec(st: State, rq: IapRequest, mockEnv: Option<string>, verify: Verifier, now: Ms): (IapResponse, State) {
    if rq.userId.None? then (IapRejected(401), st)
    else if !Truthy(rq.receiptData) || !Truthy(rq.productId) then (IapRejected(400), st)
    else
      var u := rq.userId.value;
      var product := rq.productId.value;
      if MockApplies(mockEnv, rq.receiptData.value, product) then MockGrant(st, u, product, rq.listingId, now)
      else
        var apple := AppleVerdict(verify, rq.receiptData.value);
        if apple.status != 0 || apple.latest.None? then (IapRejected(400), st)
        else if PremiumPlan(product).Some? then PremiumGrant(st, u, PremiumPlan(product).value, apple.latest.value)
        else if BoostDays(product).Some? then
          ReceiptBoost(st, u, product, rq.listingId, apple.latest.value.transactionId, BoostDays(product).value, now)
        else (IapRejected(400), st)
  }

  /** What a handled request may have written: the invariant holds; a
      rejection or a duplicate wrote nothing; a failure only switched
      subscriptions off. */
  ghost predicate Settled(st: State, resp: IapResponse, st': State) {
    && Invariant(st')
    && (resp.IapRejected? || resp.IapDuplicate? ==> st' == st)
    && (resp.IapFailed? ==> st' == st.(subscriptions := st'.subscriptions) && SubsOnlyDeactivated(st.subscriptions, st'.subscriptions))
  }

  lemma MockGrantSettles(st: State, u: Id, product: string, listingId: Option<Id>, now: Ms)
    requires Invariant(st) && (PremiumPlan(product).Some? || BoostDays(product).Some?)
    ensures var (resp, st') := MockGrant(st, u, product, listingId, now); Settled(st, resp, st')
  {
    if PremiumPlan(product).Some? {
      var pkg := FindPackageByName(st.packages, PremiumPlan(product).value, Membership);
      if pkg.Some? {
        GrantSubscriptionSpec(st.subscriptions, Subscription(u, pkg.value.id, now, now + 30 * DayMs, true));
      }
    } else if listingId.Some? {
      var l := listingId.value;
      var end := now + BoostDays(product).value * DayMs;
      GrantBoostSpec(st.boosts, ListingBoost(l, u, None, None, now, end, true, Some("mock"), Some(product), None));
    }
  }

  lemma PremiumGrantSettles(st: State, u: Id, plan: string, latest: LatestReceipt)
    requires Invariant(st)
    ensures var (resp, st') := PremiumGrant(st, u, plan, latest); Settled(st, resp, st')
  {
    var pkg := FindPackageByName(st.packages, plan, Membership);
    if pkg.Some? && latest.purchaseMs.Some? && latest.expiresMs.Some? {
      GrantSubscriptionSpec(st.subscriptions, Subscription(u, pkg.value.id, latest.purchaseMs.value, latest.expiresMs.value, true));
    }
  }

  lemma ReceiptBoostSettles(st: State, u: Id, product: string, listingId: Option<Id>, txn: Option<string>, days: nat, now: Ms)
    requires Invariant(st)
    ensures var (resp, st') := ReceiptBoost(st, u, product, listingId, txn, days, now); Settled(st, resp, st')
  {
    if listingId.Some? {
      GrantBoostSpec(st.boosts, ReceiptBoostRecord(listingId.value, u, product, txn, days, now));
    }
  }

  /** Validation precedes every write: a rejection or a duplicate leaves the
      store as it was, and a failure has only switched subscriptions off.
      Every outcome keeps the store invariant. */
  lemma IapValidatesBeforeWriting(st: State, rq: IapRequest, mockEnv: Option<string>, verify: Verifier, now: Ms)
    requires Invariant(st)
    ensures var (resp, st') := IapSpec(st, rq, mockEnv, verify, now);
      && Settled(st, resp, st')
      && (rq.userId.None? ==> resp == IapRejected(401))
      && (rq.userId.Some? && (!Truthy(rq.receiptData) || !Truthy(rq.productId)) ==> resp == IapRejected(400))
  {
    if rq.userId.Some? && Truthy(rq.receiptData) && Truthy(rq.productId) {
      var u := rq.userId.value;
      var product := rq.productId.value;
      if MockApplies(mockEnv, rq.receiptData.value, product) {
        MockGrantSettles(st, u, product, rq.listingId, now);
      } else {
        var apple := AppleVerdict(verify, rq.receiptData.value);
        if apple.status == 0 && apple.latest.Some? {
          if PremiumPlan(product).Some? {
            PremiumGrantSettles(st, u, PremiumPlan(product).value, apple.latest.value);
          } else if BoostDays(product).Some? {
            ReceiptBoostSettles(st, u, product, rq.listingId, apple.latest.value.transactionId, BoostDays(product).value, now);
          }
        }
      }
    }
  }

  /** Outside the mock path, a final verification status other than 0, or a
      receipt without a latest transaction, is refused and writes nothing. */
  lemma IapRejectsUnverified(st: State, rq: IapRequest, mockEnv: Option<string>, verify: Verifier, now: Ms)
    requires rq.userId.Some? && Truthy(rq.receiptData) && Truthy(rq.productId)
    requires !MockApplies(mockEnv, rq.receiptData.value, rq.productId.value)
    requires AppleVerdict(verify, rq.receiptData.value).status != 0 || AppleVerdict(verify, rq.receiptData.value).latest.None?
    ensures IapSpec(st, rq, mockEnv, verify, now) == (IapRejected(400), st)
  {
  }

  /** A verified premium receipt leaves the user exactly one active
      subscription, spanning the receipt's purchase and expiry instants, and
      the user's plan cache names the mapped plan until that expiry. */
  lemma IapPremiumGrants(st: State, rq: IapRequest, mockEnv: Option<string>, verify: Verifier, now: Ms)
    requires Invariant(st)
    requires IapSpec(st, rq, mockEnv, verify, now).0.IapSubscription? && !IapSpec(st, rq, mockEnv, verify, now).0.mock
    ensures var (resp, st') := IapSpec(st, rq, mockEnv, verify, now);
      var u := rq.userId.value;
      var latest := AppleVerdict(verify, rq.receiptData.value).latest.value;
      var n := |st.subscriptions|;
      && PremiumPlan(rq.productId.value) == Some(resp.plan)
      && |st'.subscriptions| == n + 1
      && st'.subscriptions[n].userId == u && st'.subscriptions[n].isActive
      && Some(st'.subscriptions[n].startDate) == latest.purchaseMs
      && Some(st'.subscriptions[n].endDate) == latest.expiresMs == Some(resp.endDate)
      && (forall i :: 0 <= i < |st'.subscriptions| && st'.subscriptions[i].isActive && st'.subscriptions[i].userId == u ==> i == n)
      && (u in st.users ==> st'.users[u].plan == Some(resp.plan) && st'.users[u].planExpiresAt == Some(resp.endDate))
      && st'.notifications == st.notifications + [Notification(u, PremiumActivated)]
  {
    var u := rq.userId.value;
    var latest := AppleVerdict(verify, rq.receiptData.value).latest.value;
    var pkg := FindPackageByName(st.packages, PremiumPlan(rq.productId.value).value, Membership);
    GrantSubscriptionSpec(st.subscriptions, Subscription(u, pkg.value.id, latest.purchaseMs.value, latest.expiresMs.value, true));
  }

  /** A verified boost receipt leaves the listing exactly one active boost,
      the new one, lasting the mapped number of days and carrying the
      transaction id; the listing's cache fields mirror it. */
  lemma IapBoostGrants(st: State, rq: IapRequest, mockEnv: Option<string>, verify: Verifier, now: Ms)
    requires Invariant(st)
    requires IapSpec(st, rq, mockEnv, verify, now).0.IapBoost? && !IapSpec(st, rq, mockEnv, verify, now).0.mock
    ensures var (resp, st') := IapSpec(st, rq, mockEnv, verify, now);
      var l := resp.listingId;
      var n := |st.boosts|;
      && rq.listingId == Some(l) && l in st.listings && st.listings[l].seller == rq.userId.value
      && !ReceiptUsed(st.boosts, rq.productId.value, AppleVerdict(verify, rq.receiptData.value).latest.value.transactionId)
      && |st'.boosts| == n + 1
      && st'.boosts[n].endDate == now + BoostDays(rq.productId.value).value * DayMs == resp.endDate
      && st'.boosts[n].transactionId == AppleVerdict(verify, rq.receiptData.value).latest.value.transactionId
      && (forall i :: 0 <= i < |st'.boosts| && st'.boosts[i].isActive && st'.boosts[i].listingId == l ==> i == n)
      && st'.listings[l].isBoosted && st'.listings[l].boostExpiresAt == Some(resp.endDate)
  {
    var latest := AppleVerdict(verify, rq.receiptData.value).latest.value;
    var l := rq.listingId.value;
    GrantBoostSpec(st.boosts, ReceiptBoostRecord(l, rq.userId.value, rq.productId.value, latest.transactionId, BoostDays(rq.productId.value).value, now));
  }

  /** A receipt boost already recorded is answered as a duplicate and writes
      nothing, whatever the listing. */
  lemma IapBoostDeduplicates(st: State, rq: IapRequest, mockEnv: Option<string>, verify: Verifier, now: Ms)
    requires rq.userId.Some? && Truthy(rq.receiptData) && Truthy(rq.productId) && rq.listingId.Some?
    requires !MockApplies(mockEnv, rq.receiptData.value, rq.productId.value) && BoostDays(rq.productId.value).Some?
    requires AppleVerdict(verify, rq.receiptData.value).status == 0 && AppleVerdict(verify, rq.receiptData.value).latest.Some?
    requires ReceiptUsed(st.boosts, rq.productId.value, AppleVerdict(verify, rq.receiptData.value).latest.value.transactionId)
    ensures IapSpec(st, rq, mockEnv, verify, now) == (IapDuplicate, st)
  {
  }

  /** Redelivering a boost receipt that was just granted is a duplicate and
      changes nothing. */
  lemma IapBoostRedeliveryIsDuplicate(st: State, rq: IapRequest, mockEnv: Option<string>, verify: Verifier, now1: Ms, now2: Ms)
    requires IapSpec(st, rq, mockEnv, verify, now1).0.IapBoost? && !IapSpec(st, rq, mockEnv, verify, now1).0.mock
    ensures var st1 := IapSpec(st, rq, mockEnv, verify, now1).1;
      IapSpec(st1, rq, mockEnv, verify, now2) == (IapDuplicate, st1)
  {
    var st1 := IapSpec(st, rq, mockEnv, verify, now1).1;
    var latest := AppleVerdict(verify, rq.receiptData.value).latest.value;
    var b := ReceiptBoostRecord(rq.listingId.value, rq.userId.value, rq.productId.value, latest.transactionId, BoostDays(rq.productId.value).value, now1);
    assert st1.boosts[|st1.boosts| - 1] == b;
    assert ReceiptUsed(st1.boosts, rq.productId.value, latest.transactionId);
  }

  /** Premium receipts are not de-duplicated: redelivering one records
      another subscription, though the user still has only one active. */
  lemma IapPremiumRedeliveryGrantsAgain(st: State, rq: IapRequest, mockEnv: Option<string>, verify: Verifier, now1: Ms, now2: Ms)
    requires IapSpec(st, rq, mockEnv, verify, now1).0.IapSubscription? && !IapSpec(st, rq, mockEnv, verify, now1).0.mock
    ensures var st1 := IapSpec(st, rq, mockEnv, verify, now1).1;
      var st2 := IapSpec(st1, rq, mockEnv, verify, now2).1;
      IapSpec(st1, rq, mockEnv, verify, now2).0.IapSubscription? && |st2.subscriptions| == |st.subscriptions| + 2
  {
  }

  /** The mock boost trusts the caller: it grants a boost on a listing the
      caller does not own, and on one that does not exist. */
  lemma MockBoostSkipsOwnership(st: State, rq: IapRequest, now: Ms, verify: Verifier)
    requires rq.userId.Some? && rq.receiptData == Some(MockReceipt) && rq.productId.Some? && rq.listingId.Some?
    requires BoostDays(rq.productId.value).Some?
    requires rq.listingId.value in st.listings ==> st.listings[rq.listingId.value].seller != rq.userId.value
    ensures IapSpec(st, rq, Some("true"), verify, now).0 ==
      IapBoost(rq.listingId.value, now + BoostDays(rq.productId.value).value * DayMs, true)
  {
    assert Truthy(rq.receiptData) && Truthy(rq.productId);
    assert PremiumPlan(rq.productId.value).None?;
  }

  /** The mock path on the store in place. */
  method MockGrantInPlace(db: Db, u: Id, product: string, listingId: Option<Id>, now: Ms) returns (resp: IapResponse)
    requires PremiumPlan(product).Some? || BoostDays(product).Some?
    modifies db
    ensures (resp, db.Snapshot()) == MockGrant(old(db.Snapshot()), u, product, listingId, now)
  {
    if PremiumPlan(product).Some? {
      var plan := PremiumPlan(product).value;
      var end := now + 30 * DayMs;
      var pkg := FindPackageByName(db.packages, plan, Membership);
      db.DeactivateSubscriptionsOf(u);
      if pkg.None? {
        return IapFailed;
      }
      db.subscriptions := db.subscriptions + [Subscription(u, pkg.value.id, now, end, true)];
      db.users := SetPlanCache(db.users, u, Some(plan), Some(end));
      return IapSubscription(plan, end, true);
    }
    if listingId.None? {
      return IapRejected(400);
    }
    var l := listingId.value;
    var end := now + BoostDays(product).value * DayMs;
    db.DeactivateBoostsOf(l);
    db.boosts := db.boosts + [ListingBoost(l, u, None, None, now, end, true, Some("mock"), Some(product), None)];
    db.listings := SetBoostCache(db.listings, l, true, Some(end));
    resp := IapBoost(l, end, true);
  }

  /** A verified premium receipt on the store in place. */
  method PremiumGrantInPlace(db: Db, u: Id, plan: string, latest: LatestReceipt) returns (resp: IapResponse)
    modifies db
    ensures (resp, db.Snapshot()) == PremiumGrant(old(db.Snapshot()), u, plan, latest)
  {
    var pkg := FindPackageByName(db.packages, plan, Membership);
    db.DeactivateSubscriptionsOf(u);
    if pkg.None? || latest.purchaseMs.None? || latest.expiresMs.None? {
      return IapFailed;
    }
    db.subscriptions := db.subscriptions + [Subscription(u, pkg.value.id, latest.purchaseMs.value, latest.expiresMs.value, true)];
    db.users := SetPlanCache(db.users, u, Some(plan), latest.expiresMs);
    db.notifications := db.notifications + [Notification(u, PremiumActivated)];
    resp := IapSubscription(plan, latest.expiresMs.value, false);
  }

  /** A verified boost receipt on the store in place. */
  method ReceiptBoostInPlace(db: Db, u: Id, product: string, listingId: Option<Id>, txn: Option<string>, days: nat, now: Ms)
    returns (resp: IapResponse)
    modifies db
    ensures (resp, db.Snapshot()) == ReceiptBoost(old(db.Snapshot()), u, product, listingId, txn, days, now)
  {
    if listingId.None? {
      return IapRejected(400);
    }
    if ReceiptUsed(db.boosts, product, txn) {
      return IapDuplicate;
    }
    var l := listingId.value;
    if l !in db.listings {
      return IapRejected(404);
    }
    if db.listings[l].seller != u {
      return IapRejected(403);
    }
    var b := ReceiptBoostRecord(l, u, product, txn, days, now);
    db.DeactivateBoostsOf(l);
    db.boosts := db.boosts + [b];
    db.listings := db.listings[l := db.listings[l].(isBoosted := true, boostExpiresAt := Some(b.endDate))];
    db.notifications := db.notifications + [Notification(u, ListingFeatured)];
    resp := IapBoost(l, b.endDate, false);
  }

  /** The receipt handler. */
  method VerifyIapPayment(db: Db, rq: IapRequest, mockEnv: Option<string>, verify: Verifier, now: Ms) returns (resp: IapResponse)
    modifies db
    ensures (resp, db.Snapshot()) == IapSpec(old(db.Snapshot()), rq, mockEnv, verify, now)
  {
    if rq.userId.None? {
      return IapRejected(401);
    }
    if !Truthy(rq.receiptData) || !Truthy(rq.productId) {
      return IapRejected(400);
    }
    var u := rq.userId.value;
    var product := rq.productId.value;
    if MockApplies(mockEnv, rq.receiptData.value, product) {
      resp := MockGrantInPlace(db, u, product, rq.listingId, now);
      return;
    }
    var apple, _ := VerifyWithRetry(verify, rq.receiptData.value);
    if apple.status != 0 || apple.latest.None? {
      return IapRejected(400);
    }
    if PremiumPlan(product).Some? {
      resp := PremiumGrantInPlace(db, u, PremiumPlan(product).value, apple.latest.value);
    } else if BoostDays(product).Some? {
      resp := ReceiptBoostInPlace(db, u, product, rq.listingId, apple.latest.value.transactionId, BoostDays(product).value, now);
    } else {
      resp := IapRejected(400);
    }
  }

  /* ---------------------------------------------------------------
     getMySubscriptionStatus
     --------------------------------------------------------------- */

  /** A plan counts as premium when it is not "free" and has an expiry
      strictly after now. */
  predicate IsPremium(user: User, now: Ms) {
    user.plan != Some("free") && user.planExpiresAt.Some? && user.planExpiresAt.value > now
  }

  datatype SubscriptionStatus = SubscriptionStatus(isPremium: bool, plan: Option<string>, planExpiresAt: Option<Ms>)

  /** The status reported for a user: the cached plan while premium,
      otherwise "free" with no expiry. */
  function StatusOf(user: User, now: Ms): (r: SubscriptionStatus)
    ensures r.isPremium ==>
      r.plan == user.plan != Some("free") && r.planExpiresAt == user.planExpiresAt
      && r.planExpiresAt.Some? && r.planExpiresAt.value > now
    ensures !r.isPremium ==> r.plan == Some("free") && r.planExpiresAt.None?
    ensures r.isPremium <==> IsPremium(user, now)
  {
    if IsPremium(user, now) then SubscriptionStatus(true, user.plan, user.planExpiresAt)
    else SubscriptionStatus(false, Some("free"), None)
  }

  /** A premium status holds only until its expiry. */
  lemma PremiumLapses(user: User, now: Ms, later: Ms)
    requires now <= later && StatusOf(user, now).isPremium
    ensures StatusOf(user, later).isPremium <==> later < user.planExpiresAt.value
    ensures !StatusOf(user, user.planExpiresAt.value).isPremium
  {
  }

  /** A verified premium receipt makes its buyer premium, on the mapped
      plan, at every instant before the receipt's expiry. */
  lemma IapPremiumMakesPremium(st: State, rq: IapRequest, mockEnv: Option<string>, verify: Verifier, now: Ms, later: Ms)
    requires IapSpec(st, rq, mockEnv, verify, now).0.IapSubscription?
    requires rq.userId.value in st.users
    requires later < IapSpec(st, rq, mockEnv, verify, now).0.endDate
    ensures var (resp, st') := IapSpec(st, rq, mockEnv, verify, now);
      StatusOf(st'.users[rq.userId.value], later) == SubscriptionStatus(true, Some(resp.plan), Some(resp.endDate))
  {
    var (resp, st') := IapSpec(st, rq, mockEnv, verify, now);
    var u := rq.userId.value;
    assert resp.plan in {"basic", "standard", "pro"};
    assert st'.users[u].plan == Some(resp.plan) && st'.users[u].planExpiresAt == Some(resp.endDate);
  }

  datatype StatusResponse = StatusUnauthorized | StatusUserNotFound | StatusFound(status: SubscriptionStatus)

  /** The status handler; it reads the store and writes nothing. */
  method GetMySubscriptionStatus(db: Db, userId: Option<Id>, now: Ms) returns (resp: StatusResponse)
    ensures userId.None? <==> resp.StatusUnauthorized?
    ensures userId.Some? && userId.value !in db.users <==> resp.StatusUserNotFound?
    ensures resp.StatusFound? ==>
      var user := db.users[userId.value];
      && (resp.status.isPremium <==> user.plan != Some("free") && user.planExpiresAt.Some? && user.planExpiresAt.value > now)
      && (resp.status.isPremium ==> resp.status.plan == user.plan && resp.status.planExpiresAt == user.planExpiresAt)
      && (!resp.status.isPremium ==> resp.status.plan == Some("free") && resp.status.planExpiresAt.None?)
  {
    if userId.None? {
      return StatusUnauthorized;
    }
    if userId.value !in db.users {
      return StatusUserNotFound;
    }
    resp := StatusFound(StatusOf(db.users[userId.value], now));
  }
}
