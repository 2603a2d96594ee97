/** The records the core reads and writes, with the fields the controllers
    actually write (fields the schemas lack are optional). */
module Records {
  import opened Common

  /** A grant of a membership plan to a user for `[startDate, endDate)`. */
  datatype Subscription = Subscription(userId: Id, packageId: Id, startDate: Ms, endDate: Ms, isActive: bool)

  /** A grant of promoted visibility to a listing. `boostType` is written only by
      direct activation; `packageId` only by the gateway path; `source`,
      `productId` and `transactionId` only by the receipt path. */
  datatype ListingBoost = ListingBoost(
    listingId: Id, sellerId: Id,
    boostType: Option<string>, packageId: Option<Id>,
    startDate: Ms, endDate: Ms, isActive: bool,
    source: Option<string>, productId: Option<string>, transactionId: Option<string>)

  datatype ListingStatus = ActiveListing | PassiveListing

  /** A listing with its boost cache fields (`isBoosted`, `boostExpiresAt`),
      its publication expiry and the store name chat reads from it. */
  datatype Listing = Listing(
    seller: Id, title: string, status: ListingStatus,
    isBoosted: bool, boostExpiresAt: Option<Ms>, expiresAt: Option<Ms>, storeName: Option<string>)

  datatype Role = Buyer | Seller | Admin

  /** A user with the plan cache fields `plan` and `planExpiresAt`. */
  datatype User = User(
    name: string, email: string, phone: string, role: Role,
    storeName: Option<string>, taxOrTcNo: Option<string>, city: Option<string>, address: Option<string>,
    hasTaxDocument: bool, plan: Option<string>, planExpiresAt: Option<Ms>)

  /** The notifications the core emits (their text is not modelled). */
  datatype NotificationKind =
    | MembershipActivated   // gateway membership granted
    | BoostActivated        // gateway or direct boost granted
    | PremiumActivated      // receipt membership granted
    | ListingFeatured       // receipt boost granted
    | ListingExpired        // listing-expiry sweep
    | BoostEnded            // listing-flag sweep

  /** A notification addressed to `user`. */
  datatype Notification = Notification(user: Id, kind: NotificationKind)

  /** A conversation about a listing. Missing counters count as zero. */
  datatype Chat = Chat(
    buyers: seq<Id>, seller: Id, listing: Id,
    lastMessage: Option<string>, storeName: Option<string>,
    buyerUnreadCount: Option<nat>, sellerUnreadCount: Option<nat>)

  /** A message; `seenBy` has set semantics (`$addToSet`). */
  datatype Message = Message(chat: Id, sender: Id, text: Option<string>, seenBy: seq<Id>)
}
