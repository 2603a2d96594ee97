/** The account routes of `src/routes/authRoutes.js` that decide something
    about plans: registration's field validation, buying a plan, and the plan
    summary `/me` returns. */
module AuthRoutes {
  import opened Common
  import opened Catalog
  import opened Records
  import opened Ledger
  import opened Store
  import opened Plans
  import opened SellerPlan

  // ---------------------------------------------------------------- register

  /** The registration form. The tax document upload is only its presence. */
  datatype RegisterRequest = RegisterRequest(
    name: Option<string>, email: Option<string>, phone: Option<string>, password: Option<string>,
    role: Option<string>,
    storeName: Option<string>, taxOrTcNo: Option<string>, city: Option<string>, address: Option<string>,
    hasTaxDocument: bool)

  /** The roles one may register with. */
  function RegistrableRole(role: string): (r: Option<Role>)
    ensures r.Some? <==> role == "buyer" || role == "seller"
    ensures r == Some(Seller) <==> role == "seller"
  {
    if role == "buyer" then Some(Buyer) else if role == "seller" then Some(Seller) else None
  }

  /** Why a registration was refused: 400 for the first four and the last,
      409 for a taken email. */
  datatype RegisterError = MissingField | InvalidRole | EmailTaken | TaxDocumentMissing | SellerInfoMissing

  function RegisterErrorStatus(e: RegisterError): nat {
    if e == EmailTaken then 409 else 400
  }

  datatype RegisterResponse = RegisterFailed(error: RegisterError) | Registered(userId: Id)

  /** `User.findOne({ email })` finds someone. */
  predicate EmailInUse(users: map<Id, User>, email: string) {
    exists k :: k in users && users[k].email == email
  }

  /** No two users share an email, as the schema's unique index demands. */
  ghost predicate EmailsUnique(users: map<Id, User>) {
    forall a, b :: a in users && b in users && users[a].email == users[b].email ==> a == b
  }

  predicate AllBasicFields(rq: RegisterRequest) {
    Truthy(rq.name) && Truthy(rq.email) && Truthy(rq.phone) && Truthy(rq.password) && Truthy(rq.role)
  }

  predicate AllSellerFields(rq: RegisterRequest) {
    Truthy(rq.storeName) && Truthy(rq.taxOrTcNo) && Truthy(rq.city) && Truthy(rq.address)
  }

  /** The user record registration creates: a seller starts on the "free"
      plan with no expiry; a buyer has no plan. */
  function NewUser(rq: RegisterRequest, role: Role): User
    requires AllBasicFields(rq)
  {
    User(rq.name.value, rq.email.value, rq.phone.value, role,
         rq.storeName, rq.taxOrTcNo, rq.city, rq.address,
         role == Seller, if role == Seller then Some("free") else None, None)
  }

  /** `POST /register`: the checks in the order the route makes them, then
      the new user. */
  function RegisterSpec(st: State, rq: RegisterRequest): (RegisterResponse, State) {
    if !AllBasicFields(rq) then (RegisterFailed(MissingField), st)
    else match RegistrableRole(rq.role.value)
      case None => (RegisterFailed(InvalidRole), st)
      case Some(role) =>
        if EmailInUse(st.users, rq.email.value) then (RegisterFailed(EmailTaken), st)
        else if role == Seller && !rq.hasTaxDocument then (RegisterFailed(TaxDocumentMissing), st)
        else if role == Seller && !AllSellerFields(rq) then (RegisterFailed(SellerInfoMissing), st)
        else (Registered(st.nextId), st.(users := st.users[st.nextId := NewUser(rq, role)], nextId := st.nextId + 1))
  }

  /** A refused registration writes nothing; one is accepted exactly when
      every check passes; each refusal names the first check that failed; an
      accepted one adds exactly one user under a fresh id, with the requested
      role and, for a seller, the tax document and the "free" plan; and it
      keeps the store invariant and emails unique. */
  lemma RegisterContract(st: State, rq: RegisterRequest)
    ensures var (r, st') := RegisterSpec(st, rq);
      && (r.RegisterFailed? ==> st' == st)
      && (r == RegisterFailed(MissingField) <==> !AllBasicFields(rq))
      && (r == RegisterFailed(InvalidRole) <==> AllBasicFields(rq) && RegistrableRole(rq.role.value).None?)
      && (r == RegisterFailed(EmailTaken) <==>
            AllBasicFields(rq) && RegistrableRole(rq.role.value).Some? && EmailInUse(st.users, rq.email.value))
      && (r == RegisterFailed(TaxDocumentMissing) <==>
            AllBasicFields(rq) && rq.role.value == "seller" && !EmailInUse(st.users, rq.email.value)
            && !rq.hasTaxDocument)
      && (r == RegisterFailed(SellerInfoMissing) <==>
            AllBasicFields(rq) && rq.role.value == "seller" && !EmailInUse(st.users, rq.email.value)
            && rq.hasTaxDocument && !AllSellerFields(rq))
      && (r.Registered? <==>
            && AllBasicFields(rq) && RegistrableRole(rq.role.value).Some?
            && !EmailInUse(st.users, rq.email.value)
            && (rq.role.value == "seller" ==> rq.hasTaxDocument && AllSellerFields(rq)))
      && (r.Registered? ==>
            && (Invariant(st) ==> r.userId !in st.users && Invariant(st'))
            && st'.users == st.users[r.userId := st'.users[r.userId]]
            && st'.users[r.userId].email == rq.email.value
            && Some(st'.users[r.userId].role) == RegistrableRole(rq.role.value)
            && (st'.users[r.userId].role == Seller <==> rq.role.value == "seller")
            && (st'.users[r.userId].role == Seller ==> st'.users[r.userId].hasTaxDocument && st'.users[r.userId].plan == Some("free"))
            && st' == st.(users := st'.users, nextId := st'.nextId)
            && (Invariant(st) && EmailsUnique(st.users) ==> EmailsUnique(st'.users)))
  {
  }

  /** `POST /register` on the store. */
  method Register(db: Db, rq: RegisterRequest) returns (r: RegisterResponse)
    modifies db`users, db`nextId
    ensures (r, db.Snapshot()) == RegisterSpec(old(db.Snapshot()), rq)
  {
    if !Truthy(rq.name) || !Truthy(rq.email) || !Truthy(rq.phone) || !Truthy(rq.password) || !Truthy(rq.role) {
      return RegisterFailed(MissingField);
    }
    var role := RegistrableRole(rq.role.value);
    if role.None? {
      return RegisterFailed(InvalidRole);
    }
    if exists k :: k in db.users && db.users[k].email == rq.email.value {
      return RegisterFailed(EmailTaken);
    }
    if role.value == Seller {
      if !rq.hasTaxDocument {
        return RegisterFailed(TaxDocumentMissing);
      }
      if !Truthy(rq.storeName) || !Truthy(rq.taxOrTcNo) || !Truthy(rq.city) || !Truthy(rq.address) {
        return RegisterFailed(SellerInfoMissing);
      }
    }
    var id := db.NewId();
    db.users := db.users[id := NewUser(rq, role.value)];
    r := Registered(id);
  }

  // ---------------------------------------------------------------- buy-plan

  datatype BuyPlanResponse = InvalidPlanChoice | BuyerNotFound | PlanBought(plan: string, expiresAt: Ms)

  function BuyPlanStatus(r: BuyPlanResponse): nat {
    match r
    case InvalidPlanChoice => 400
    case BuyerNotFound => 404
    case PlanBought(_, _) => 200
  }

  /** `POST /buy-plan`: the plan must be a key of the plan table; then the
      user's plan cache is set. `expires` is the calendar date thirty days on,
      which the route computes from the clock. */
  function BuyPlanSpec(st: State, u: Id, plan: Option<string>, expires: Ms): (BuyPlanResponse, State) {
    if !Truthy(plan) || plan.value !in SellerPlans then (InvalidPlanChoice, st)
    else if u !in st.users then (BuyerNotFound, st)
    else (PlanBought(plan.value, expires), st.(users := SetPlanCache(st.users, u, plan, Some(expires))))
  }

  /** The plan is checked before the user is looked up; a refusal writes
      nothing; a purchase writes only the buyer's plan cache, to a plan the
      table holds, and keeps the store invariant. No subscription is
      recorded. */
  lemma BuyPlanContract(st: State, u: Id, plan: Option<string>, expires: Ms)
    ensures var (r, st') := BuyPlanSpec(st, u, plan, expires);
      && (r == InvalidPlanChoice <==> !Truthy(plan) || plan.value !in SellerPlans)
      && (r == BuyerNotFound <==> Truthy(plan) && plan.value in SellerPlans && u !in st.users)
      && (!r.PlanBought? ==> st' == st)
      && (r.PlanBought? ==>
            && r.plan in SellerPlans && Some(r.plan) == plan
            && st'.users == st.users[u := st.users[u].(plan := plan, planExpiresAt := Some(expires))]
            && st' == st.(users := st'.users))
      && (Invariant(st) ==> Invariant(st'))
  {
  }

  /** Buying a plan writes only the cache, which the plan middleware rebuilds
      from the ledger: a seller with no subscription who buys "pro" is still
      held to the basic quota, and the middleware puts "basic" back. */
  lemma BoughtPlanIsOverriddenByLedger(st: State, u: Id, expires: Ms, now: Ms)
    requires u in st.users && st.users[u].role == Seller
    requires forall i :: 0 <= i < |st.subscriptions| ==> st.subscriptions[i].userId != u
    ensures var (_, st1) := BuyPlanSpec(st, u, Some("pro"), expires);
      var (r, st2) := CheckSellerPlanSpec(st1, u, now);
      && st1.users[u].plan == Some("pro")
      && st2.users[u].plan == Some("basic") && st2.users[u].planExpiresAt.None?
      && (r.Proceed? <==> CountActiveListings(st.listings, u) < 5)
  {
    var (_, st1) := BuyPlanSpec(st, u, Some("pro"), expires);
    UnsubscribedSellerIsBasic(st1, u, now);
  }

  /** `POST /buy-plan` on the store. */
  method BuyPlan(db: Db, u: Id, plan: Option<string>, expires: Ms) returns (r: BuyPlanResponse)
    modifies db`users
    ensures (r, db.Snapshot()) == BuyPlanSpec(old(db.Snapshot()), u, plan, expires)
  {
    if !Truthy(plan) || plan.value !in SellerPlans {
      return InvalidPlanChoice;
    }
    if u !in db.users {
      return BuyerNotFound;
    }
    db.users := db.users[u := db.users[u].(plan := plan, planExpiresAt := Some(expires))];
    r := PlanBought(plan.value, expires);
  }

  // ---------------------------------------------------------------------- me

  /** `remainingListings`: "unlimited" for an unlimited plan, else a count. */
  datatype Remaining = RemainingUnlimited | RemainingCount(n: nat)

  /** `maxListings === Infinity ? "unlimited" : Math.max(maxListings - used, 0)`. */
  function RemainingListings(max: MaxListings, used: nat): (r: Remaining)
    ensures r.RemainingUnlimited? <==> max.Unlimited?
    ensures r.RemainingCount? ==> r.n <= max.n && (used <= max.n ==> used + r.n == max.n) && (used >= max.n ==> r.n == 0)
  {
    match max
    case Unlimited => RemainingUnlimited
    case Limited(n) => RemainingCount(if used >= n then 0 else n - used)
  }

  /** The count `/me` shows is positive exactly when the middleware would let
      one more listing through. */
  lemma RemainingAgreesWithQuota(max: MaxListings, used: nat)
    ensures UnderQuota(used, max) <==> RemainingListings(max, used).RemainingUnlimited? || RemainingListings(max, used).n > 0
  {
  }

  datatype SubscriptionSummary = SubscriptionSummary(packageName: string, endDate: Ms)

  datatype PlanInfo = PlanInfo(plan: string, maxListings: MaxListings, usedListings: nat, remaining: Remaining)

  /** What `/me` answers: 404, the user alone for a non-seller, the user with
      the plan summary for a seller, or 500 when the summary cannot be built
      (a plan missing from the table, or a subscription whose package is
      gone). */
  datatype MeResponse =
    | MeNotFound
    | MeNonSeller(user: User)
    | MeSeller(user: User, subscription: Option<SubscriptionSummary>, planInfo: PlanInfo)
    | MeServerError

  function MeSpec(st: State, u: Id, now: Ms): MeResponse {
    if u !in st.users then MeNotFound
    else if st.users[u].role != Seller then MeNonSeller(st.users[u])
    else
      var res := ResolvePlan(st, u, now);
      var name := PlanName(res);
      if name !in SellerPlans || res.PackageMissing? then MeServerError
      else
        var max := SellerPlans[name].maxListings;
        var used := CountActiveListings(st.listings, u);
        MeSeller(st.users[u],
                 if res.Subscribed? then Some(SubscriptionSummary(res.name, res.endDate)) else None,
                 PlanInfo(name, max, used, RemainingListings(max, used)))
  }

  /** A non-seller gets no subscription and no plan summary; a seller's plan
      is the running subscription's package, else "basic", with that plan's
      quota and the seller's active listing count; and the summary agrees
      with the plan middleware: it shows listings remaining exactly when the
      middleware would let a new one through. */
  lemma MeContract(st: State, u: Id, now: Ms)
    ensures var r := MeSpec(st, u, now);
      var res := ResolvePlan(st, u, now);
      && (r.MeNotFound? <==> u !in st.users)
      && (r.MeNonSeller? <==> u in st.users && st.users[u].role != Seller)
      && (r.MeServerError? <==> CheckSellerPlanSpec(st, u, now).0.PlanServerError? || CheckSellerPlanSpec(st, u, now).0.InvalidPlan?)
      && (r.MeSeller? ==>
            && r.user == st.users[u]
            && (r.subscription.Some? <==> res.Subscribed?)
            && r.planInfo.plan == PlanName(res) && r.planInfo.plan in SellerPlans
            && r.planInfo.maxListings == SellerPlans[r.planInfo.plan].maxListings
            && r.planInfo.usedListings == CountActiveListings(st.listings, u)
            && (CheckSellerPlanSpec(st, u, now).0.Proceed? <==>
                  r.planInfo.remaining.RemainingUnlimited? || r.planInfo.remaining.n > 0))
  {
    var r := MeSpec(st, u, now);
    CheckSellerPlanContract(st, u, now);
    if r.MeSeller? {
      RemainingAgreesWithQuota(r.planInfo.maxListings, r.planInfo.usedListings);
    }
  }

  /** `GET /me`: reads the store and reassigns the plan name as the ledger
      is read. */
  method Me(db: Db, u: Id, now: Ms) returns (r: MeResponse)
    ensures r == MeSpec(db.Snapshot(), u, now)
  {
    if u !in db.users {
      return MeNotFound;
    }
    var user := db.users[u];
    if user.role != Seller {
      return MeNonSeller(user);
    }
    var found := FindActiveSubscription(db.subscriptions, u, now);
    var planName := "basic";
    var summary: Option<SubscriptionSummary> := None;
    var packageGone := false;
    if found.Some? {
      var sub := db.subscriptions[found.value];
      var pkg := FindPackageById(db.packages, sub.packageId);
      if pkg.Some? {
        planName := pkg.value.name;
        summary := Some(SubscriptionSummary(planName, sub.endDate));
      } else {
        packageGone := true;
      }
    }
    if planName !in SellerPlans || packageGone {
      return MeServerError;
    }
    var max := SellerPlans[planName].maxListings;
    var used := CountActiveListings(db.listings, u);
    r := MeSeller(user, summary, PlanInfo(planName, max, used, RemainingListings(max, used)));
  }
}
