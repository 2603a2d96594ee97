/** The gateway payment flow of `src/controllers/paymentController.js`:
    product naming, checkout, the callback's lock, the success applier and
    the legacy success entry. Each step that changes the store is a method
    on `Store.Db` proved equal to a function on `Store.State`; the
    properties are proved about those functions. */
module Payments {
  import opened Common
  import opened Text
  import opened Catalog
  import opened PaymentModel
  import opened Records
  import opened Ledger
  import opened Store

  /* ---------------------------------------------------------------
     Product naming
     --------------------------------------------------------------- */

  /** `mapBoostDurationToPackageName`: the boost package a checkout duration
      label names, if any. */
  function BoostPackageName(duration: string): (r: Option<string>)
    ensures r.Some? <==> duration == "24h" || duration == "7d" || duration == "30d"
  {
    if duration == "24h" then Some("boost_1_day")
    else if duration == "7d" then Some("boost_1_week")
    else if duration == "30d" then Some("boost_1_month")
    else None
  }

  /** Each duration label names a distinct seeded boost package whose
      duration is the one the label spells. */
  lemma BoostPackageNamesMatchSeed(d: string, e: string)
    ensures d == "24h" ==> Seed[3] == SeedEntry(BoostPackageName(d).value, BoostKind, 1, 49)
    ensures d == "7d" ==> Seed[4] == SeedEntry(BoostPackageName(d).value, BoostKind, 7, 149)
    ensures d == "30d" ==> Seed[5] == SeedEntry(BoostPackageName(d).value, BoostKind, 30, 299)
    ensures BoostPackageName(d).Some? && BoostPackageName(d) == BoostPackageName(e) ==> d == e
  {
  }

  /** `buildProductName`: the basket item name shown by the gateway. */
  function ProductName(pkg: Package): (r: string)
    ensures pkg.kind == Membership ==>
      |r| == |pkg.name| + 8 && r[|pkg.name|..] == " PREMIUM"
      && forall i :: 0 <= i < |pkg.name| ==> r[i] == UpperChar(pkg.name[i])
    ensures pkg.kind == BoostKind ==>
      |r| == |pkg.name|
      && forall i :: 0 <= i < |pkg.name| ==> r[i] == (if pkg.name[i] == '_' then ' ' else UpperChar(pkg.name[i]))
    ensures pkg.kind.OtherKind? ==> r == pkg.name
  {
    match pkg.kind
    case Membership => ToUpper(pkg.name) + " PREMIUM"
    case BoostKind => ReplaceCharByChar(pkg.name, '_', ' '); ToUpper(ReplaceChar(pkg.name, '_', " "))
    case OtherKind(_) => pkg.name
  }

  /** The name the top membership plan is sold under. */
  lemma ProPlanProductName()
    ensures ProductName(Package(0, "pro", Membership, 30, 399, true)) == "PRO PREMIUM"
  {
    assert ToUpper("pro") == "PRO" by {
      assert ToUpper("pro")[0] == 'P' && ToUpper("pro")[1] == 'R' && ToUpper("pro")[2] == 'O';
    }
  }

  /* ---------------------------------------------------------------
     Checkout
     --------------------------------------------------------------- */

  /** The fields of the checkout request body the flow reads; an absent field is `None`. */
  datatype CheckoutRequest = CheckoutRequest(
    kind: Option<string>, plan: Option<string>, duration: Option<string>,
    listingId: Option<Id>, userId: Option<Id>)

  /** The validation verdict: an HTTP status, or the package to sell. */
  datatype Admission = Refuse(code: nat) | Admit(pkg: Package)

  /** The checks made before any record is written, in the source's order.
      A type that is neither premium nor boost leaves no package, and reading
      its id throws, which the handler answers with 500. */
  function AdmitCheckout(st: State, rq: CheckoutRequest): (r: Admission)
    ensures r.Refuse? ==> r.code in {400, 403, 404, 500}
    ensures r.Admit? ==> rq.userId.Some? && rq.userId.value in st.users && r.pkg in st.packages
    ensures r.Admit? && rq.kind == Some("premium") ==> r.pkg.kind == Membership && rq.plan == Some(r.pkg.name)
    ensures r.Admit? && rq.kind == Some("boost") ==>
      && r.pkg.kind == BoostKind
      && rq.duration.Some? && BoostPackageName(rq.duration.value) == Some(r.pkg.name)
      && rq.listingId.Some? && rq.listingId.value in st.listings
      && st.listings[rq.listingId.value].seller == rq.userId.value
    ensures r.Admit? ==> rq.kind == Some("premium") || rq.kind == Some("boost")
    ensures (rq.kind == Some("premium") && rq.userId.Some? && rq.userId.value in st.users
             && Truthy(rq.plan) && FindPackageByName(st.packages, rq.plan.value, Membership).Some?) ==>
      r == Admit(FindPackageByName(st.packages, rq.plan.value, Membership).value)
    ensures (rq.kind == Some("boost") && rq.userId.Some? && rq.userId.value in st.users
             && Truthy(rq.duration) && BoostPackageName(rq.duration.value).Some?
             && FindPackageByName(st.packages, BoostPackageName(rq.duration.value).value, BoostKind).Some?
             && rq.listingId.Some? && rq.listingId.value in st.listings
             && st.listings[rq.listingId.value].seller == rq.userId.value) ==>
      r == Admit(FindPackageByName(st.packages, BoostPackageName(rq.duration.value).value, BoostKind).value)
  {
    if !Truthy(rq.kind) then Refuse(400)
    else if rq.userId.None? then Refuse(400)
    else if rq.userId.value !in st.users then Refuse(404)
    else if rq.kind.value == "premium" then
      if !Truthy(rq.plan) then Refuse(400)
      else match FindPackageByName(st.packages, rq.plan.value, Membership)
        case None => Refuse(404)
        case Some(pkg) => Admit(pkg)
    else if rq.kind.value == "boost" then
      if !Truthy(rq.duration) || rq.listingId.None? then Refuse(400)
      else match BoostPackageName(rq.duration.value)
        case None => Refuse(400)
        case Some(name) =>
          match FindPackageByName(st.packages, name, BoostKind)
          case None => Refuse(404)
          case Some(pkg) =>
            if rq.listingId.value !in st.listings then Refuse(404)
            else if st.listings[rq.listingId.value].seller != rq.userId.value then Refuse(403)
            else Admit(pkg)
    else Refuse(500)
  }

  /** The payment record checkout creates for an admitted request. */
  function CheckoutRecord(rq: CheckoutRequest, pkg: Package): (p: Payment)
    requires rq.userId.Some? && rq.kind.Some?
    ensures p.status == Pending && p.provider == Iyzico && p.amount == pkg.price && p.packageId == pkg.id
    ensures p.userId == rq.userId.value
    ensures p.listingId == (if rq.kind == Some("boost") then rq.listingId else None)
    ensures p.iyzicoToken.None? && p.iyzicoResult.None? && p.failReason.None?
  {
    NewPayment(rq.userId.value, pkg.id, pkg.price).(
      listingId := if rq.kind == Some("boost") then rq.listingId else None,
      meta := Some(PaymentMeta(rq.kind.value,
                               if Truthy(rq.plan) then rq.plan else None,
                               if Truthy(rq.duration) then rq.duration else None)))
  }

  /** What the gateway's form initialisation reports: a transport error, no
      result, or a result with its status, token and error message. */
  datatype InitReply = InitError | NoInitResult | InitResult(status: string, token: Option<string>, errorMessage: Option<string>)

  /** The payment after the initialisation reply, and the HTTP status answered. */
  function AfterInit(p: Payment, reply: InitReply): (r: (Payment, nat))
    ensures r.1 == 200 <==> reply.InitResult? && reply.status == "success"
    ensures r.1 == 200 ==> r.0 == p.(iyzicoToken := reply.token)
    ensures r.1 != 200 ==> r.0 == p.(status := Failed, failReason := r.0.failReason) && Truthy(r.0.failReason)
    ensures reply.InitError? ==> r.1 == 500 && r.0.failReason == Some("IYZICO_INIT_ERROR")
  {
    match reply
    case InitError => (p.(status := Failed, failReason := Some("IYZICO_INIT_ERROR")), 500)
    case NoInitResult => (p.(status := Failed, failReason := Some("IYZICO_INIT_FAILED")), 400)
    case InitResult(status, token, errorMessage) =>
      if status != "success" then
        (p.(status := Failed, failReason := if Truthy(errorMessage) then errorMessage else Some("IYZICO_INIT_FAILED")), 400)
      else (p.(iyzicoToken := token), 200)
  }

  datatype CheckoutResponse =
    | CheckoutRefused(code: nat)
    | CheckoutInitFailed(code: nat, paymentId: Id)
    | CheckoutStarted(paymentId: Id)

  /** `checkoutPayment`: validate, create the pending payment under a fresh
      id, then record the gateway's initialisation reply on it. */
  function CheckoutSpec(st: State, rq: CheckoutRequest, reply: InitReply): (CheckoutResponse, State) {
    match AdmitCheckout(st, rq)
    case Refuse(code) => (CheckoutRefused(code), st)
    case Admit(pkg) =>
      var pid := st.nextId;
      var r := AfterInit(CheckoutRecord(rq, pkg), reply);
      (if r.1 == 200 then CheckoutStarted(pid) else CheckoutInitFailed(r.1, pid),
       st.(payments := st.payments[pid := r.0], nextId := pid + 1))
  }

  /** A refused checkout writes nothing; an admitted one adds exactly one
      payment under a fresh id, pending or (when initialisation failed)
      failed, priced as its package, and touches no other collection. */
  lemma CheckoutCreatesOnePayment(st: State, rq: CheckoutRequest, reply: InitReply)
    requires Invariant(st)
    ensures var (resp, st') := CheckoutSpec(st, rq, reply);
      && Invariant(st')
      && (resp.CheckoutRefused? <==> AdmitCheckout(st, rq).Refuse?)
      && (resp.CheckoutRefused? ==> st' == st)
      && (!resp.CheckoutRefused? ==>
            var pid := st.nextId;
            && pid !in st.payments
            && st'.payments.Keys == st.payments.Keys + {pid}
            && (forall q :: q in st.payments ==> st'.payments[q] == st.payments[q])
            && st'.payments[pid].amount == AdmitCheckout(st, rq).pkg.price
            && (st'.payments[pid].status == Pending <==> resp.CheckoutStarted?)
            && (resp.CheckoutInitFailed? ==> st'.payments[pid].status == Failed && Step(Iyzico, Pending, Failed))
            && st'.(payments := st.payments, nextId := st.nextId) == st)
  {
  }

  /** A boost on somebody else's listing is refused and leaves no payment behind. */
  lemma CheckoutRefusesForeignListing(st: State, rq: CheckoutRequest, reply: InitReply)
    requires rq.kind == Some("boost") && rq.userId.Some? && rq.listingId.Some?
    requires rq.listingId.value in st.listings && st.listings[rq.listingId.value].seller != rq.userId.value
    ensures CheckoutSpec(st, rq, reply).0.CheckoutRefused?
    ensures CheckoutSpec(st, rq, reply).1 == st
  {
  }

  /** The checkout handler. */
  method Checkout(db: Db, rq: CheckoutRequest, reply: InitReply) returns (resp: CheckoutResponse)
    modifies db
    ensures (resp, db.Snapshot()) == CheckoutSpec(old(db.Snapshot()), rq, reply)
  {
    var verdict := AdmitCheckout(db.Snapshot(), rq);
    if verdict.Refuse? {
      return CheckoutRefused(verdict.code);
    }
    ghost var st := db.Snapshot();
    var pid := db.NewId();
    var payment := CheckoutRecord(rq, verdict.pkg);
    db.payments := db.payments[pid := payment];
    var (updated, code) := AfterInit(payment, reply);
    db.payments := db.payments[pid := updated];
    assert db.payments == st.payments[pid := updated];
    assert db.Snapshot() == st.(payments := st.payments[pid := updated], nextId := pid + 1);
    if code == 200 {
      resp := CheckoutStarted(pid);
    } else {
      resp := CheckoutInitFailed(code, pid);
    }
  }

  /* ---------------------------------------------------------------
     Success applier
     --------------------------------------------------------------- */

  datatype ApplyError = PaymentNotFound | PackageNotFound | ListingIdMissing | ListingNotFound | PaymentNotLocked

  /** `Applied`: the entitlement was granted; `AlreadySucceeded`: the
      idempotence guard returned early; `Thrown`: the applier threw. */
  datatype ApplyOutcome = Applied | AlreadySucceeded | Thrown(error: ApplyError)

  /** The subscription a membership payment grants. */
  function MembershipGrant(p: Payment, pkg: Package, now: Ms): (s: Subscription)
    ensures s.isActive && s.userId == p.userId && s.startDate == now
    ensures s.endDate - s.startDate == pkg.durationDays * DayMs
  {
    Subscription(p.userId, pkg.id, now, now + pkg.durationDays * DayMs, true)
  }

  /** The boost a boost payment grants to listing `l`. */
  function BoostGrant(p: Payment, pkg: Package, l: Id, now: Ms): (b: ListingBoost)
    ensures b.isActive && b.listingId == l && b.sellerId == p.userId && b.packageId == Some(pkg.id)
    ensures b.endDate - b.startDate == pkg.durationDays * DayMs && b.startDate == now
  {
    ListingBoost(l, p.userId, None, Some(pkg.id), now, now + pkg.durationDays * DayMs, true, None, None, None)
  }

  /** `applyPaymentSuccess` as written: the only guard is `status == success`. */
  function ApplySuccess(st: State, pid: Id, result: Option<GatewayResult>, now: Ms): (ApplyOutcome, State) {
    if pid !in st.payments then (Thrown(PaymentNotFound), st)
    else
      var p := st.payments[pid];
      if p.status == Success then (AlreadySucceeded, st)
      else match FindPackageById(st.packages, p.packageId)
        case None => (Thrown(PackageNotFound), st)
        case Some(pkg) => ApplyPackage(st, pid, pkg, result, now)
  }

  /** The applier once payment `pid` and its package `pkg` are found: the
      grant the package's kind calls for, then the payment marked
      successful with the gateway result. */
  function ApplyPackage(st: State, pid: Id, pkg: Package, result: Option<GatewayResult>, now: Ms): (ApplyOutcome, State)
    requires pid in st.payments
  {
    var p := st.payments[pid];
    var end := now + pkg.durationDays * DayMs;
    var payments := st.payments[pid := p.(status := Success, iyzicoResult := result)];
    if pkg.kind == Membership then
      (Applied, st.(subscriptions := GrantSubscription(st.subscriptions, MembershipGrant(p, pkg, now)),
                    users := SetPlanCache(st.users, p.userId, Some(pkg.name), Some(end)),
                    notifications := st.notifications + [Notification(p.userId, MembershipActivated)],
                    payments := payments))
    else if pkg.kind == BoostKind then
      if p.listingId.None? then (Thrown(ListingIdMissing), st)
      else if p.listingId.value !in st.listings then (Thrown(ListingNotFound), st)
      else
        var l := p.listingId.value;
        (Applied, st.(boosts := GrantBoost(st.boosts, BoostGrant(p, pkg, l, now)),
                      listings := SetBoostCache(st.listings, l, true, Some(end)),
                      notifications := st.notifications + [Notification(p.userId, BoostActivated)],
                      payments := payments))
    else (Applied, st.(payments := payments))
  }

  /** The applier with the guard the lifecycle calls for: a failed payment,
      and a gateway payment no callback has locked, is refused; a
      successful one returns early; a locked payment, and a pending manual
      or bank payment, is handled as written. */
  function ApplySuccessGuarded(st: State, pid: Id, result: Option<GatewayResult>, now: Ms): (ApplyOutcome, State) {
    if pid in st.payments && !ApplyProceeds(st.payments[pid].provider, st.payments[pid].status) && st.payments[pid].status != Success
    then (Thrown(PaymentNotLocked), st)
    else ApplySuccess(st, pid, result, now)
  }

  /** The applier writes payment `pid` only, and only to mark it
      successful with the gateway result; it writes nothing unless it
      applies. */
  lemma ApplyPackagePayments(st: State, pid: Id, pkg: Package, result: Option<GatewayResult>, now: Ms)
    requires pid in st.payments
    ensures var (out, st') := ApplyPackage(st, pid, pkg, result, now);
      && (!out.Applied? ==> st' == st)
      && (out.Applied? ==> st'.payments == st.payments[pid := st.payments[pid].(status := Success, iyzicoResult := result)])
  {
  }

  /** The grant keeps the store invariant and touches neither the catalog,
      the chats, the messages nor the id counter. */
  lemma ApplyPackageFrame(st: State, pid: Id, pkg: Package, result: Option<GatewayResult>, now: Ms)
    requires Invariant(st) && pid in st.payments
    ensures var (out, st') := ApplyPackage(st, pid, pkg, result, now);
      && Invariant(st')
      && st'.packages == st.packages && st'.chats == st.chats && st'.messages == st.messages
      && st'.nextId == st.nextId
  {
    var p := st.payments[pid];
    if pkg.kind == Membership {
      GrantSubscriptionSpec(st.subscriptions, MembershipGrant(p, pkg, now));
    } else if pkg.kind == BoostKind && p.listingId.Some? && p.listingId.value in st.listings {
      GrantBoostSpec(st.boosts, BoostGrant(p, pkg, p.listingId.value, now));
    }
  }

  /** What every run of the applier guarantees: it keeps the store
      invariant; it writes nothing when it throws or when the payment has
      already succeeded; otherwise the payment ends successful with the
      gateway result stored, and no other payment, no chat and no message
      changes. */
  lemma ApplySuccessFrame(st: State, pid: Id, result: Option<GatewayResult>, now: Ms)
    requires Invariant(st)
    ensures var (out, st') := ApplySuccess(st, pid, result, now);
      && Invariant(st')
      && (out.AlreadySucceeded? <==> pid in st.payments && st.payments[pid].status == Success)
      && (!out.Applied? ==> st' == st)
      && (out.Applied? ==>
            && pid in st.payments
            && st'.payments == st.payments[pid := st.payments[pid].(status := Success, iyzicoResult := result)]
            && st'.packages == st.packages && st'.chats == st.chats && st'.messages == st.messages
            && st'.nextId == st.nextId)
  {
    if pid in st.payments && st.payments[pid].status != Success {
      var found := FindPackageById(st.packages, st.payments[pid].packageId);
      if found.Some? {
        ApplyPackagePayments(st, pid, found.value, result, now);
        ApplyPackageFrame(st, pid, found.value, result, now);
      }
    }
  }

  /** A membership payment leaves the buyer exactly one active subscription,
      the new one, ending `durationDays` days from now; the plan resolver
      finds it at every instant before its end; and the user's plan cache
      mirrors it. */
  lemma ApplyMembershipGrants(st: State, pid: Id, result: Option<GatewayResult>, now: Ms, later: Ms)
    requires Invariant(st) && pid in st.payments
    requires ApplySuccess(st, pid, result, now).0 == Applied
    requires FindPackageById(st.packages, st.payments[pid].packageId).value.kind == Membership
    ensures var p := st.payments[pid];
      var pkg := FindPackageById(st.packages, p.packageId).value;
      var st' := ApplySuccess(st, pid, result, now).1;
      var n := |st.subscriptions|;
      && |st'.subscriptions| == n + 1
      && st'.subscriptions[n] == Subscription(p.userId, pkg.id, now, now + pkg.durationDays * DayMs, true)
      && (forall i :: 0 <= i < n ==> !(st'.subscriptions[i].isActive && st'.subscriptions[i].userId == p.userId))
      && (later < now + pkg.durationDays * DayMs ==> FindActiveSubscription(st'.subscriptions, p.userId, later) == Some(n))
      && (p.userId in st.users ==>
            st'.users[p.userId].plan == Some(pkg.name)
            && st'.users[p.userId].planExpiresAt == Some(now + pkg.durationDays * DayMs))
      && st'.notifications == st.notifications + [Notification(p.userId, MembershipActivated)]
      && st'.boosts == st.boosts && st'.listings == st.listings
  {
    var p := st.payments[pid];
    var pkg := FindPackageById(st.packages, p.packageId).value;
    var s := MembershipGrant(p, pkg, now);
    var st' := ApplySuccess(st, pid, result, now).1;
    GrantSubscriptionSpec(st.subscriptions, s);
    if later < now + pkg.durationDays * DayMs {
      ActiveSubscriptionIsUnique(st'.subscriptions, p.userId, later, |st.subscriptions|);
    }
  }

  /** A boost payment leaves the listing exactly one active boost, the new
      one; the listing's cache fields mirror it; boosts of other listings are
      untouched. */
  lemma ApplyBoostGrants(st: State, pid: Id, result: Option<GatewayResult>, now: Ms)
    requires Invariant(st) && pid in st.payments
    requires ApplySuccess(st, pid, result, now).0 == Applied
    requires FindPackageById(st.packages, st.payments[pid].packageId).value.kind == BoostKind
    ensures var p := st.payments[pid];
      var pkg := FindPackageById(st.packages, p.packageId).value;
      var st' := ApplySuccess(st, pid, result, now).1;
      var n := |st.boosts|;
      && p.listingId.Some? && p.listingId.value in st.listings
      && |st'.boosts| == n + 1
      && st'.boosts[n] == BoostGrant(p, pkg, p.listingId.value, now)
      && (forall i :: 0 <= i < |st'.boosts| && st'.boosts[i].isActive && st'.boosts[i].listingId == p.listingId.value ==> i == n)
      && (forall i :: 0 <= i < n && st.boosts[i].listingId != p.listingId.value ==> st'.boosts[i] == st.boosts[i])
      && st'.listings[p.listingId.value].isBoosted
      && st'.listings[p.listingId.value].boostExpiresAt == Some(st'.boosts[n].endDate)
      && st'.subscriptions == st.subscriptions && st'.users == st.users
  {
    var p := st.payments[pid];
    var pkg := FindPackageById(st.packages, p.packageId).value;
    GrantBoostSpec(st.boosts, BoostGrant(p, pkg, p.listingId.value, now));
  }

  /** Applying twice grants once: after a successful application every
      further call returns early and writes nothing. */
  lemma ApplySuccessIdempotent(st: State, pid: Id, r1: Option<GatewayResult>, r2: Option<GatewayResult>, now1: Ms, now2: Ms)
    requires ApplySuccess(st, pid, r1, now1).0 != Thrown(PaymentNotFound)
    ensures var st' := ApplySuccess(st, pid, r1, now1).1;
      ApplySuccess(st', pid, r2, now2).0.AlreadySucceeded? ==> ApplySuccess(st', pid, r2, now2).1 == st'
    ensures ApplySuccess(st, pid, r1, now1).0 == Applied ==>
      var st' := ApplySuccess(st, pid, r1, now1).1;
      ApplySuccess(st', pid, r2, now2) == (AlreadySucceeded, st')
  {
  }

  /** The as-written applier moves a failed payment, or a gateway payment
      that the gateway never confirmed (pending, no callback has locked it),
      straight to success and grants its entitlement, a move the lifecycle
      does not have. */
  lemma LegacySuccessBypassesLifecycle(st: State, pid: Id, now: Ms)
    requires pid in st.payments
    requires st.payments[pid].status == Failed || (st.payments[pid].status == Pending && st.payments[pid].provider == Iyzico)
    requires FindPackageById(st.packages, st.payments[pid].packageId).Some?
    requires FindPackageById(st.packages, st.payments[pid].packageId).value.kind == Membership
    ensures ApplySuccess(st, pid, None, now).0 == Applied
    ensures ApplySuccess(st, pid, None, now).1.payments[pid].status == Success
    ensures !Step(st.payments[pid].provider, st.payments[pid].status, Success)
    ensures st.payments[pid].status == Failed ==> Terminal(st.payments[pid].status)
    ensures |ApplySuccess(st, pid, None, now).1.subscriptions| == |st.subscriptions| + 1
  {
  }

  /** With the intended guard every status change is a step of the
      payment's lifecycle: only a locked payment, or a pending manual or
      bank payment, is applied, and only it moves, to success; a failed
      payment, an unlocked gateway payment and a successful payment are left
      as they are and the store is unchanged. */
  lemma GuardedApplyFollowsLifecycle(st: State, pid: Id, result: Option<GatewayResult>, now: Ms)
    ensures var (out, st') := ApplySuccessGuarded(st, pid, result, now);
      && (pid in st.payments && !ApplyProceeds(st.payments[pid].provider, st.payments[pid].status) ==> st' == st)
      && (pid in st.payments && ApplyProceeds(st.payments[pid].provider, st.payments[pid].status) ==>
            (out, st') == ApplySuccess(st, pid, result, now))
      && (out.Applied? ==>
            pid in st.payments && st'.payments[pid].status == Success
            && Step(st.payments[pid].provider, st.payments[pid].status, Success))
      && (forall q :: q in st.payments ==>
            (q in st'.payments
             && st'.payments[q].provider == st.payments[q].provider
             && (st'.payments[q].status == st.payments[q].status
                 || (q == pid && Step(st.payments[q].provider, st.payments[q].status, st'.payments[q].status)))))
  {
    if pid in st.payments && ApplyProceeds(st.payments[pid].provider, st.payments[pid].status) {
      var found := FindPackageById(st.packages, st.payments[pid].packageId);
      if found.Some? {
        ApplyPackagePayments(st, pid, found.value, result, now);
      }
    }
  }

  /** The legacy entry behind the intended guard serves the flow it exists
      for: a pending manual or bank membership payment is applied and its
      subscription granted, while a gateway payment that was never
      confirmed, and a failed payment, are refused with nothing written. */
  lemma GuardedLegacyEntry(st: State, pid: Id, now: Ms)
    requires pid in st.payments
    requires FindPackageById(st.packages, st.payments[pid].packageId).Some?
    requires FindPackageById(st.packages, st.payments[pid].packageId).value.kind == Membership
    ensures var p := st.payments[pid];
      var (out, st') := ApplySuccessGuarded(st, pid, None, now);
      && (p.status == Pending && p.provider != Iyzico ==>
            out == Applied && st'.payments[pid].status == Success && |st'.subscriptions| == |st.subscriptions| + 1)
      && (p.status == Pending && p.provider == Iyzico ==> out == Thrown(PaymentNotLocked) && st' == st)
      && (p.status == Failed ==> out == Thrown(PaymentNotLocked) && st' == st)
  {
  }

  /** The membership branch of the applier: the user's running
      subscriptions are closed, the new one is recorded, the plan cache is
      set and the user is notified. */
  method GrantMembershipInPlace(db: Db, p: Payment, pkg: Package, now: Ms)
    modifies db`subscriptions, db`users, db`notifications
    ensures db.subscriptions == GrantSubscription(old(db.subscriptions), MembershipGrant(p, pkg, now))
    ensures db.users == SetPlanCache(old(db.users), p.userId, Some(pkg.name), Some(now + pkg.durationDays * DayMs))
    ensures db.notifications == old(db.notifications) + [Notification(p.userId, MembershipActivated)]
  {
    db.DeactivateSubscriptionsOf(p.userId);
    db.subscriptions := db.subscriptions + [MembershipGrant(p, pkg, now)];
    db.users := SetPlanCache(db.users, p.userId, Some(pkg.name), Some(now + pkg.durationDays * DayMs));
    db.notifications := db.notifications + [Notification(p.userId, MembershipActivated)];
  }

  /** The boost branch of the applier for an existing listing `l`: the
      listing's running boosts are closed, the new one is recorded, the
      listing's boost cache is set and the seller is notified. */
  method GrantBoostInPlace(db: Db, p: Payment, pkg: Package, l: Id, now: Ms)
    requires l in db.listings
    modifies db`boosts, db`listings, db`notifications
    ensures db.boosts == GrantBoost(old(db.boosts), BoostGrant(p, pkg, l, now))
    ensures db.listings == SetBoostCache(old(db.listings), l, true, Some(now + pkg.durationDays * DayMs))
    ensures db.notifications == old(db.notifications) + [Notification(p.userId, BoostActivated)]
  {
    var listing := db.listings[l];
    db.DeactivateBoostsOf(l);
    db.boosts := db.boosts + [BoostGrant(p, pkg, l, now)];
    db.listings := db.listings[l := listing.(isBoosted := true, boostExpiresAt := Some(now + pkg.durationDays * DayMs))];
    db.notifications := db.notifications + [Notification(p.userId, BoostActivated)];
  }

  /** The applier's grant, on the store in place. */
  method ApplyPackageInPlace(db: Db, pid: Id, pkg: Package, result: Option<GatewayResult>, now: Ms) returns (out: ApplyOutcome)
    requires pid in db.payments
    modifies db
    ensures (out, db.Snapshot()) == ApplyPackage(old(db.Snapshot()), pid, pkg, result, now)
  {
    var p := db.payments[pid];
    if pkg.kind == Membership {
      GrantMembershipInPlace(db, p, pkg, now);
    } else if pkg.kind == BoostKind {
      if p.listingId.None? {
        return Thrown(ListingIdMissing);
      }
      if p.listingId.value !in db.listings {
        return Thrown(ListingNotFound);
      }
      GrantBoostInPlace(db, p, pkg, p.listingId.value, now);
    }
    db.payments := db.payments[pid := p.(status := Success, iyzicoResult := result)];
    out := Applied;
  }

  /** The applier as a store method. */
  method ApplyPaymentSuccess(db: Db, pid: Id, result: Option<GatewayResult>, now: Ms) returns (out: ApplyOutcome)
    modifies db
    ensures (out, db.Snapshot()) == ApplySuccess(old(db.Snapshot()), pid, result, now)
  {
    if pid !in db.payments {
      return Thrown(PaymentNotFound);
    }
    if db.payments[pid].status == Success {
      return AlreadySucceeded;
    }
    var found := FindPackageById(db.packages, db.payments[pid].packageId);
    if found.None? {
      return Thrown(PackageNotFound);
    }
    out := ApplyPackageInPlace(db, pid, found.value, result, now);
  }

  /** The applier behind the intended guard, as the callback uses it. */
  method ApplyPaymentSuccessGuarded(db: Db, pid: Id, result: Option<GatewayResult>, now: Ms) returns (out: ApplyOutcome)
    modifies db
    ensures (out, db.Snapshot()) == ApplySuccessGuarded(old(db.Snapshot()), pid, result, now)
  {
    if pid in db.payments && !ApplyProceeds(db.payments[pid].provider, db.payments[pid].status) && db.payments[pid].status != Success {
      return Thrown(PaymentNotLocked);
    }
    out := ApplyPaymentSuccess(db, pid, result, now);
  }

  /* ---------------------------------------------------------------
     Callback
     --------------------------------------------------------------- */

  /** What the gateway's `retrieve` call reports. */
  datatype RetrieveReply = RetrieveError | NoRetrieveResult | Retrieved(result: GatewayResult)

  /** Where the browser is sent; `NoRedirect` when the applier throws inside
      the gateway's callback, where no handler catches it. */
  datatype Redirect = ErrorPage | SuccessPage | SuccessPageFor(paymentId: Id) | NoRedirect

  /** The conditional update `pending -> processing`: it succeeds only on a
      pending payment. */
  function Lock(payments: map<Id, Payment>, pid: Id): (r: Option<map<Id, Payment>>)
    ensures r.Some? <==> pid in payments && payments[pid].status == Pending
    ensures r.Some? ==> r.value == payments[pid := payments[pid].(status := Processing)]
  {
    if pid in payments && payments[pid].status == Pending
    then Some(payments[pid := payments[pid].(status := Processing)])
    else None
  }

  /** The payment after the gateway reported a declined charge. */
  function Declined(p: Payment, g: GatewayResult): (q: Payment)
    ensures q.status == Failed && q.iyzicoResult == Some(g) && Truthy(q.failReason)
    ensures q == p.(status := Failed, failReason := q.failReason, iyzicoResult := Some(g))
  {
    p.(status := Failed,
       failReason := if Truthy(g.errorMessage) then g.errorMessage else Some("IYZICO_PAYMENT_FAILED"),
       iyzicoResult := Some(g))
  }

  /** `iyzicoCallback`. */
  function CallbackSpec(st: State, token: Option<string>, reply: RetrieveReply, now: Ms): (Redirect, State) {
    if !Truthy(token) || !reply.Retrieved? || reply.result.status != "success" || reply.result.conversationId.None?
    then (ErrorPage, st)
    else
      var g := reply.result;
      var pid := g.conversationId.value;
      match Lock(st.payments, pid)
      case None => (SuccessPage, st)
      case Some(locked) =>
        if g.paymentStatus != "SUCCESS" then (ErrorPage, st.(payments := locked[pid := Declined(locked[pid], g)]))
        else
          var (out, st') := ApplySuccessGuarded(st.(payments := locked), pid, Some(g), now);
          (if out.Thrown? then NoRedirect else SuccessPageFor(pid), st')
  }

  /** Statuses move only along the lifecycle: the callback changes at most
      the payment it names, that payment was pending, and it ends locked,
      failed or successful. A declined charge grants nothing. */
  lemma CallbackFollowsLifecycle(st: State, token: Option<string>, reply: RetrieveReply, now: Ms)
    requires Invariant(st)
    ensures var (redirect, st') := CallbackSpec(st, token, reply, now);
      && Invariant(st')
      && st'.payments.Keys == st.payments.Keys
      && (forall q :: q in st.payments && st'.payments[q].status != st.payments[q].status ==>
            && reply.Retrieved? && reply.result.conversationId == Some(q)
            && st.payments[q].status == Pending
            && var pv := st.payments[q].provider;
            && (Step(pv, Pending, st'.payments[q].status)
                || (Step(pv, Pending, Processing) && Step(pv, Processing, st'.payments[q].status))))
      && (redirect.ErrorPage? ==> st'.subscriptions == st.subscriptions && st'.boosts == st.boosts
                                  && st'.users == st.users && st'.listings == st.listings)
      && (redirect == NoRedirect ==>
            && reply.Retrieved? && reply.result.conversationId.Some?
            && var pid := reply.result.conversationId.value;
            && pid in st.payments && st.payments[pid].status == Pending
            && st'.payments[pid].status == Processing
            && st'.subscriptions == st.subscriptions && st'.boosts == st.boosts
            && st'.users == st.users && st'.listings == st.listings)
  {
    if Truthy(token) && reply.Retrieved? && reply.result.status == "success" && reply.result.conversationId.Some? {
      var g := reply.result;
      var pid := g.conversationId.value;
      if Lock(st.payments, pid).Some? {
        if g.paymentStatus == "SUCCESS" {
          CallbackApplyStep(st, pid, g, now);
        } else {
          CallbackDeclineStep(st, pid, g);
        }
      }
    }
  }

  /** The declined branch: the locked payment is marked failed and nothing
      else changes. */
  lemma CallbackDeclineStep(st: State, pid: Id, g: GatewayResult)
    requires Invariant(st) && pid in st.payments && st.payments[pid].status == Pending
    ensures var locked := Lock(st.payments, pid).value;
      var st' := st.(payments := locked[pid := Declined(locked[pid], g)]);
      && Invariant(st')
      && st'.payments.Keys == st.payments.Keys
      && st'.payments[pid].status == Failed
      && (forall q :: q in st.payments && q != pid ==> st'.payments[q] == st.payments[q])
  {
  }

  /** The applied branch: the payment is locked, then handed to the guarded
      applier; it ends locked when the applier throws and successful
      otherwise, and no other payment changes. */
  lemma CallbackApplyStep(st: State, pid: Id, g: GatewayResult, now: Ms)
    requires Invariant(st) && pid in st.payments && st.payments[pid].status == Pending
    ensures var mid := st.(payments := Lock(st.payments, pid).value);
      var (out, st') := ApplySuccessGuarded(mid, pid, Some(g), now);
      && Invariant(st')
      && st'.payments.Keys == st.payments.Keys
      && (forall q :: q in st.payments && q != pid ==> st'.payments[q] == st.payments[q])
      && (out.Thrown? ==> st'.payments[pid].status == Processing && st' == mid)
      && (!out.Thrown? ==> st'.payments[pid].status == Success)
  {
    var mid := st.(payments := Lock(st.payments, pid).value);
    assert mid.payments[pid].status == Processing;
    assert Invariant(mid);
    ApplySuccessFrame(mid, pid, Some(g), now);
  }

  /** The lock is exclusive: once a payment has left pending, every further
      callback for it redirects to the success page and writes nothing. */
  lemma CallbackLockIsExclusive(st: State, token: Option<string>, g: GatewayResult, now: Ms)
    requires Truthy(token) && g.status == "success" && g.conversationId.Some?
    requires g.conversationId.value in st.payments && st.payments[g.conversationId.value].status != Pending
    ensures CallbackSpec(st, token, Retrieved(g), now) == (SuccessPage, st)
  {
  }

  /** A redelivered successful callback grants once: the second delivery
      finds the payment no longer pending. */
  lemma CallbackRedeliveryGrantsOnce(st: State, token: Option<string>, g: GatewayResult, now1: Ms, now2: Ms)
    requires Truthy(token) && g.status == "success" && g.conversationId.Some? && g.paymentStatus == "SUCCESS"
    requires g.conversationId.value in st.payments
    ensures var st1 := CallbackSpec(st, token, Retrieved(g), now1).1;
      CallbackSpec(st1, token, Retrieved(g), now2) == (SuccessPage, st1)
  {
    var pid := g.conversationId.value;
    var st1 := CallbackSpec(st, token, Retrieved(g), now1).1;
    if st.payments[pid].status == Pending {
      var mid := st.(payments := Lock(st.payments, pid).value);
      assert mid.payments[pid].status == Processing;
      assert st1.payments[pid].status != Pending;
    }
  }

  /** The test-and-set step of the callback. */
  method LockForProcessing(db: Db, pid: Id) returns (locked: bool)
    modifies db`payments
    ensures locked <==> Lock(old(db.payments), pid).Some?
    ensures locked ==> db.payments == Lock(old(db.payments), pid).value
    ensures !locked ==> db.payments == old(db.payments)
  {
    locked := pid in db.payments && db.payments[pid].status == Pending;
    if locked {
      db.payments := db.payments[pid := db.payments[pid].(status := Processing)];
    }
  }

  /** The callback handler. */
  method Callback(db: Db, token: Option<string>, reply: RetrieveReply, now: Ms) returns (redirect: Redirect)
    modifies db
    ensures (redirect, db.Snapshot()) == CallbackSpec(old(db.Snapshot()), token, reply, now)
  {
    if !Truthy(token) || !reply.Retrieved? || reply.result.status != "success" || reply.result.conversationId.None? {
      return ErrorPage;
    }
    var g := reply.result;
    var pid := g.conversationId.value;
    var locked := LockForProcessing(db, pid);
    if !locked {
      return SuccessPage;
    }
    if g.paymentStatus != "SUCCESS" {
      db.payments := db.payments[pid := Declined(db.payments[pid], g)];
      return ErrorPage;
    }
    var out := ApplyPaymentSuccessGuarded(db, pid, Some(g), now);
    redirect := if out.Thrown? then NoRedirect else SuccessPageFor(pid);
  }

  /* ---------------------------------------------------------------
     Legacy success entry
     --------------------------------------------------------------- */

  /** The legacy `/success` handler, as written: it applies without taking
      the lock, and answers 500 whenever the applier throws (a missing
      payment id included). */
  method PaymentSuccess(db: Db, pid: Option<Id>, now: Ms) returns (code: nat)
    modifies db
    ensures pid.None? ==> code == 500 && db.Snapshot() == old(db.Snapshot())
    ensures pid.Some? ==>
      var (out, st') := ApplySuccess(old(db.Snapshot()), pid.value, None, now);
      db.Snapshot() == st' && code == (if out.Thrown? then 500 else 200)
  {
    if pid.None? {
      return 500;
    }
    var out := ApplyPaymentSuccess(db, pid.value, None, now);
    code := if out.Thrown? then 500 else 200;
  }
}
