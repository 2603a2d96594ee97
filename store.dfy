/** The database the controllers share: one class holding every collection,
    and the value `State` its fields make up, which the specifications of the
    operations are written against. */
module Store {
  import opened Common
  import opened Catalog
  import opened PaymentModel
  import opened Records
  import opened Ledger

  /** Every collection at one instant. */
  datatype State = State(
    packages: seq<Package>,
    payments: map<Id, Payment>,
    users: map<Id, User>,
    listings: map<Id, Listing>,
    subscriptions: seq<Subscription>,
    boosts: seq<ListingBoost>,
    notifications: seq<Notification>,
    chats: map<Id, Chat>,
    messages: seq<Message>,
    nextId: nat)

  /** The ledger's overlap invariant, and the id counter lies above every id
      handed out. */
  ghost predicate Invariant(st: State) {
    && SubsOverlapFree(st.subscriptions)
    && BoostsOverlapFree(st.boosts)
    && (forall k :: k in st.payments ==> k < st.nextId)
    && (forall k :: k in st.users ==> k < st.nextId)
    && (forall k :: k in st.chats ==> k < st.nextId)
  }

  /** `User.findByIdAndUpdate(u, { plan, planExpiresAt })`: no effect when the
      user does not exist. */
  function SetPlanCache(users: map<Id, User>, u: Id, plan: Option<string>, expires: Option<Ms>): (r: map<Id, User>)
    ensures r.Keys == users.Keys
    ensures u in users ==> r[u].plan == plan && r[u].planExpiresAt == expires
    ensures forall v :: v in users && v != u ==> r[v] == users[v]
  {
    if u in users then users[u := users[u].(plan := plan, planExpiresAt := expires)] else users
  }

  /** Setting a listing's boost cache fields (`isBoosted`, `boostExpiresAt`). */
  function SetBoostCache(listings: map<Id, Listing>, l: Id, boosted: bool, expires: Option<Ms>): (r: map<Id, Listing>)
    ensures r.Keys == listings.Keys
    ensures l in listings ==> r[l].isBoosted == boosted && r[l].boostExpiresAt == expires
    ensures forall m :: m in listings && m != l ==> r[m] == listings[m]
  {
    if l in listings then listings[l := listings[l].(isBoosted := boosted, boostExpiresAt := expires)] else listings
  }

  /** One notification of `kind` per listing in `ids`, in that order,
      addressed to the listing's seller. */
  function SellerNotices(listings: map<Id, Listing>, ids: seq<Id>, kind: NotificationKind): seq<Notification>
    requires forall k :: 0 <= k < |ids| ==> ids[k] in listings
  {
    if ids == [] then []
    else SellerNotices(listings, ids[..|ids| - 1], kind) + [Notification(listings[ids[|ids| - 1]].seller, kind)]
  }

  /** One notification per listing, in order, to that listing's seller. */
  lemma {:induction false} SellerNoticesAt(listings: map<Id, Listing>, ids: seq<Id>, kind: NotificationKind)
    requires forall k :: 0 <= k < |ids| ==> ids[k] in listings
    ensures |SellerNotices(listings, ids, kind)| == |ids|
    ensures forall k :: 0 <= k < |ids| ==> SellerNotices(listings, ids, kind)[k] == Notification(listings[ids[k]].seller, kind)
  {
    if ids != [] {
      SellerNoticesAt(listings, ids[..|ids| - 1], kind);
    }
  }

  /** Visiting one more listing appends its seller's notification. */
  lemma SellerNoticesStep(listings: map<Id, Listing>, ids: seq<Id>, id: Id, kind: NotificationKind)
    requires forall k :: 0 <= k < |ids| ==> ids[k] in listings
    requires id in listings
    ensures SellerNotices(listings, ids + [id], kind) == SellerNotices(listings, ids, kind) + [Notification(listings[id].seller, kind)]
  {
    assert (ids + [id])[..|ids|] == ids;
  }

  /** The ids a sequence holds. */
  function Elems(ids: seq<Id>): set<Id> {
    set id | id in ids
  }

  /** The documents a `find` query returns: every selected id once, in an
      order the database does not fix. */
  method Enumerate(ids: set<Id>) returns (found: seq<Id>)
    ensures Elems(found) == ids
    ensures forall a, b :: 0 <= a < b < |found| ==> found[a] != found[b]
  {
    var todo := ids;
    found := [];
    while todo != {}
      invariant todo <= ids
      invariant forall id :: id in ids ==> (id in found <==> id !in todo)
      invariant forall id :: id in found ==> id in ids
      invariant forall a, b :: 0 <= a < b < |found| ==> found[a] != found[b]
      decreases |todo|
    {
      var id :| id in todo;
      found := found + [id];
      todo := todo - {id};
    }
  }

  class Db {
    var packages: seq<Package>
    var payments: map<Id, Payment>
    var users: map<Id, User>
    var listings: map<Id, Listing>
    var subscriptions: seq<Subscription>
    var boosts: seq<ListingBoost>
    var notifications: seq<Notification>
    var chats: map<Id, Chat>
    var messages: seq<Message>
    var nextId: nat

    function Snapshot(): State
      reads this
    {
      State(packages, payments, users, listings, subscriptions, boosts, notifications, chats, messages, nextId)
    }

    ghost predicate Valid()
      reads this
    {
      Invariant(Snapshot())
    }

    /** A database holding the given catalog, users and listings and no
        ledger records; `firstId` lies above every user id. */
    constructor (pkgs: seq<Package>, us: map<Id, User>, ls: map<Id, Listing>, firstId: nat)
      requires forall k :: k in us ==> k < firstId
      ensures Valid()
      ensures Snapshot() == State(pkgs, map[], us, ls, [], [], [], map[], [], firstId)
    {
      packages, payments, users, listings := pkgs, map[], us, ls;
      subscriptions, boosts, notifications := [], [], [];
      chats, messages, nextId := map[], [], firstId;
    }

    /** `Subscription.updateMany({ userId: u }, { isActive: false })`, one
        record at a time. */
    method DeactivateSubscriptionsOf(u: Id)
      modifies this`subscriptions
      ensures subscriptions == CloseUserSubscriptions(old(subscriptions), u)
    {
      var i := 0;
      while i < |subscriptions|
        invariant 0 <= i <= |subscriptions| == |old(subscriptions)|
        invariant subscriptions[..i] == CloseUserSubscriptions(old(subscriptions), u)[..i]
        invariant subscriptions[i..] == old(subscriptions)[i..]
      {
        if subscriptions[i].userId == u {
          subscriptions := subscriptions[i := subscriptions[i].(isActive := false)];
        }
        i := i + 1;
      }
    }

    /** `ListingBoost.updateMany({ listingId: l, isActive: true }, { isActive: false })`. */
    method DeactivateBoostsOf(l: Id)
      modifies this`boosts
      ensures boosts == CloseListingBoosts(old(boosts), l)
    {
      var i := 0;
      while i < |boosts|
        invariant 0 <= i <= |boosts| == |old(boosts)|
        invariant boosts[..i] == CloseListingBoosts(old(boosts), l)[..i]
        invariant boosts[i..] == old(boosts)[i..]
      {
        if boosts[i].listingId == l && boosts[i].isActive {
          boosts := boosts[i := boosts[i].(isActive := false)];
        }
        i := i + 1;
      }
    }

    /** A fresh identifier, as the database assigns one to a created record. */
    method NewId() returns (id: Id)
      modifies this`nextId
      ensures id == old(nextId) && nextId == id + 1
    {
      id := nextId;
      nextId := nextId + 1;
    }
  }
}
