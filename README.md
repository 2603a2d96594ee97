# Entitlement and payment core of the TrPhone marketplace backend

This project is a Dafny model of the part of the TrPhone marketplace backend
(Node.js, Express, MongoDB) that decides who is entitled to what. It covers:

- **Payments.** A payment record moves through the statuses pending,
  processing, success and failed. The gateway callback locks a pending payment
  (pending to processing) before the success applier runs. The applier grants
  exactly one entitlement, a seller membership or a listing boost. The legacy
  `/success` entry calls the applier without taking the lock.
- **App Store receipts.** Product ids map to plans and boost durations. The
  receipt is verified against production and retried once against the sandbox
  on status 21007. Receipt boosts are de-duplicated. A mock path serves
  testing. The subscription status query is included.
- **Grants and expiry.** A listing boost can be activated directly. A read
  expires a boost lazily. Three sweeps run on a schedule: the boost expiry
  cron, the listing expiry cron and the boost watcher tick.
- **Plans and quota.** The seller plan middleware resolves a seller's plan
  from the subscription ledger, syncs the plan cache and enforces the listing
  quota. It relies on the `SELLER_PLANS` table. The account routes
  `/register`, `/buy-plan` and `/me` are covered where they decide something
  about plans.
- **Chats.** Opening a chat, sending a message and reading messages keep two
  unread counters and the `seenBy` lists.
- **Mail.** The new-message e-mail escapes HTML and normalises the receiver's
  name and the message.

Every collection lives in one class, `Store.Db`, whose fields are the
database's collections. Each handler that writes is a method on that store.
Its `ensures` clause equates the result and the new store contents with a
function over the value `Store.State`. The source's promises are proved as
lemmas about those functions. The main invariant, `Store.Invariant`, is
proved preserved by every writing operation. It says:

- a user has at most one active subscription;
- a listing has at most one active boost;
- the id counter lies above every id handed out.

Time is an integer number of milliseconds, and the current instant is always
a parameter. The payment gateway's replies and Apple's verification service
are parameters too.

Three facts about the code shape the model:

- checkout has no guard against a second pending payment for the same
  purchase (src/controllers/paymentController.js:152-313);
- the payment provider is one of iyzico, manual or bank
  (src/models/Payment.js:45-49);
- each expiry sweep catches errors once around its whole loop, so a failure
  stops the records after it (src/cron/deactivateExpiredBoosts.js,
  src/cron/deactivateExpiredListings.js).

## Model

| member | source | states |
|---|---|---|
| Catalog.SeedIsWellFormed | src/seed/packagesSeed.js:10-16 | The seeded catalog has one row per package name and only positive durations. |
| Catalog.FindPackageByName | src/controllers/paymentController.js:178 | The package found has the requested name and type and belongs to the catalog; no package is found only when none matches. |
| Catalog.FindPackageById | src/controllers/paymentController.js:384-385 | The package found has the requested id; none is found only when no package has it. |
| Plans.SellerPlansShape | src/config/plans.js:1-22 | The plan table holds exactly basic, standard and pro; each entry's key is its own name; the quotas are 5, 15 and unlimited. |
| Plans.QuotasAreOrdered | src/config/plans.js:5-19 | Quotas grow from basic to standard to pro. |
| Plans.UnderQuotaMonotone | src/middleware/checkSellerPlan.js:56-61 | A seller under quota on one plan is under quota on every plan with a larger quota. |
| Ledger.DeactivatingKeepsOverlapFree | src/controllers/paymentController.js:390-393 | Switching ledger records off never creates two active subscriptions of one user or two active boosts of one listing. |
| Ledger.GrantSubscriptionSpec | src/controllers/paymentController.js:389-403 | Overlap close plus create keeps at most one active subscription per user; it appends the new record, only switches off records of the same user and leaves the new one the user's only active subscription. |
| Ledger.GrantBoostSpec | src/controllers/paymentController.js:425-438 | The same for boosts: afterwards the new boost is the listing's only active one, and boosts of other listings are untouched. |
| Ledger.CloseSubscriptionsSpec | src/controllers/iapController.js:176-179 | Closing a user's subscriptions alone keeps the invariant and leaves the user no active subscription. |
| Ledger.FindActiveSubscription | src/middleware/checkSellerPlan.js:17-21 | The record found is the user's, active and ending after now; nothing is found only when no record qualifies. |
| Ledger.ActiveSubscriptionIsUnique | src/middleware/checkSellerPlan.js:17-21 | Under the invariant the running subscription query has exactly one possible answer, so the resolved plan does not depend on the order records are returned in. |
| PaymentModel.NewPayment | src/models/Payment.js:20-84 | A new payment is pending, with provider iyzico and no listing, token, gateway result, fail reason or meta. |
| PaymentModel.LifecycleShape | src/models/Payment.js:31-49 | Success and failed are final; pending and processing can still fail; an iyzico payment reaches success only from processing, a manual or bank payment also straight from pending. |
| PaymentModel.AsWrittenGuardAdmitsFailed | src/controllers/paymentController.js:381-382 | The written guard lets a failed payment, and an iyzico payment still pending (never confirmed by the gateway), through to success; the lifecycle reaches success from neither. |
| PaymentModel.ApplyGuardRespectsLifecycle | src/models/Payment.js:31-49 | The intended guard admits exactly the statuses from which the payment's provider reaches success: processing for every provider, pending too for manual and bank payments; the written guard admits these plus failed and pending iyzico payments. |
| Store.SetPlanCache | src/controllers/paymentController.js:405-408 | Writing a user's plan cache sets that user's plan and expiry only and leaves a missing user missing. |
| Store.SetBoostCache | src/controllers/paymentController.js:440-442 | Writing a listing's boost cache sets that listing's flag and expiry only. |
| Store.SellerNoticesAt | src/cron/deactivateExpiredListings.js:13-24 | A sweep's notifications are one per visited listing, in visiting order, each addressed to that listing's seller. |
| Store.Enumerate | src/cron/deactivateExpiredListings.js:8-11 | A query result lists every selected id exactly once. |
| Store.Db.constructor | src/seed/packagesSeed.js:9-17 | A fresh store holds the catalog, users and listings, an empty ledger, and satisfies the invariant. |
| Store.Db.DeactivateSubscriptionsOf | src/controllers/paymentController.js:390-393 | The in-place `updateMany` switches off exactly the user's subscriptions. |
| Store.Db.DeactivateBoostsOf | src/controllers/paymentController.js:426-429 | The in-place `updateMany` switches off exactly the listing's active boosts. |
| Store.Db.NewId | src/controllers/paymentController.js:214 | A created record gets a fresh id above every id in use. |
| Text.TrimStart | src/utils/mailTemplates.js:9 | The result is a suffix of the input that starts with no white space; everything cut off is white space. |
| Text.TrimEnd | src/utils/mailTemplates.js:9 | The result is a prefix of the input that ends with no white space; everything cut off is white space. |
| Text.FramedInfix | src/utils/mailTemplates.js:9 | An infix cut from a suffix, with white space on both sides, is framed by white space in the whole string. |
| Text.TrimFrames | src/utils/mailTemplates.js:9 | Trimming both ends leaves an infix with no white space at either end and only white space around it. |
| Text.Trim | src/utils/mailTemplates.js:9 | `trim()` gives the infix without white space at either end, with only white space cut away. |
| Text.TrimOfTrimmed | src/utils/mailTemplates.js:9 | Trimming a string that is already trimmed changes nothing. |
| Text.UpperChar | src/controllers/paymentController.js:51 | A lower-case ASCII letter becomes its upper-case letter; every other character is kept. |
| Text.ToUpper | src/controllers/paymentController.js:51-52 | Upper-casing keeps the length and maps each position on its own. |
| Text.ReplaceChar | src/controllers/paymentController.js:52 | Replacing an absent character, or a character by itself, leaves the string unchanged. |
| Text.ReplaceCharConcat | src/utils/mailTemplates.js:137-142 | `replaceAll` with a one-character pattern distributes over concatenation. |
| Text.ReplaceCharByChar | src/controllers/paymentController.js:52 | Replacing a character by one character keeps the length and rewrites exactly the matching positions. |
| MailTemplates.EscapeChar | src/utils/mailTemplates.js:137-142 | A character's escape starts with `&` exactly when the character is one of the five special ones. |
| MailTemplates.EscapedConsKeepsEntities | src/utils/mailTemplates.js:137-142 | Putting an escaped character in front of text in which every `&` starts an entity keeps that property. |
| MailTemplates.EscapeEach | src/utils/mailTemplates.js:137-142 | Per-character escaping yields no `<`, `>`, `"` or `'`, and every `&` in it starts an entity. |
| MailTemplates.EscapeHtmlConcat | src/utils/mailTemplates.js:136-143 | `escapeHtml` distributes over concatenation. |
| MailTemplates.EscapeHtmlSingle | src/utils/mailTemplates.js:137-142 | On one character the chain of replacements gives that character's entity; a later step never rewrites an earlier step's output. |
| MailTemplates.EscapeHtmlIsPerChar | src/utils/mailTemplates.js:137-142 | Because `&` is replaced first, the chain of `replaceAll` calls equals escaping each character independently. |
| MailTemplates.UnescapeStep | src/utils/mailTemplates.js:137-142 | Decoding an escaped character followed by any text gives back the character, then the decoded text. |
| MailTemplates.EscapeHtmlRoundTrip | src/utils/mailTemplates.js:136-143 | Decoding the five entities in `escapeHtml`'s output gives back its input. |
| MailTemplates.EscapeEachRoundTrip | src/utils/mailTemplates.js:137-142 | The same round trip for the per-character escaping. |
| MailTemplates.EscapeHtmlIsInert | src/utils/mailTemplates.js:136-143 | `escapeHtml`'s output holds no `<`, `>`, `"` or `'`, and every `&` in it starts one of the five entities. |
| MailTemplates.EscapeHtmlPreservesPlainText | src/utils/mailTemplates.js:137-142 | Escaping is piecewise, and text without special characters is kept in place and order. |
| MailTemplates.EscapeEachPlain | src/utils/mailTemplates.js:137-142 | Per-character escaping keeps text without special characters unchanged. |
| MailTemplates.SafeName | src/utils/mailTemplates.js:9 | The greeting name is the trimmed receiver name, or "Merhaba" when that is empty or absent; it is never empty and never framed by white space. |
| MailTemplates.Units | src/utils/mailTemplates.js:10 | A character takes two UTF-16 code units exactly when it lies outside the Basic Multilingual Plane, one otherwise. |
| MailTemplates.Utf16LenBounds | src/utils/mailTemplates.js:10 | A string's UTF-16 length lies between its character count and twice it, and equals the count exactly when every character is in the Basic Multilingual Plane. |
| MailTemplates.TakeUnits | src/utils/mailTemplates.js:10 | The cut is a prefix within the unit budget, the whole string when it fits, and otherwise the next character would overflow the budget. |
| MailTemplates.SafeMsg | src/utils/mailTemplates.js:10 | The message shown is empty when absent, otherwise a prefix of the text at most 1200 UTF-16 code units long: the whole text when it fits, else the longest whole-character prefix that fits. |
| MailTemplates.SafeMsgOfPlaneZeroText | src/utils/mailTemplates.js:10 | On text within the Basic Multilingual Plane the cut is exactly the first 1200 characters. |
| MailTemplates.MessageIsInert | src/utils/mailTemplates.js:96-99 | The message inserted into the mail holds no markup character and decodes back to the shortened message. |
| MailTemplates.MarkupNameIsKept | src/utils/mailTemplates.js:9 | Every non-empty receiver name without white space at either end, markup characters included, passes the name normalisation unchanged. |
| MailTemplates.OtherValuesAreVerbatim | src/utils/mailTemplates.js:83-115 | For every input, the name (when not framed by white space) and the role label are inserted without escaping. |
| MailTemplates.DefaultsApply | src/utils/mailTemplates.js:1-10 | With every parameter left out, the mail greets "Merhaba", shows an empty message and uses the default role label, link, brand and support address. |
| Payments.BoostPackageName | src/controllers/paymentController.js:43-48 | A boost package is named exactly for the durations "24h", "7d" and "30d". |
| Payments.BoostPackageNamesMatchSeed | src/controllers/paymentController.js:43-48 | Each duration label names a distinct seeded boost package whose duration is the one the label spells. |
| Payments.ProductName | src/controllers/paymentController.js:50-54 | A membership is sold as its upper-cased name plus " PREMIUM"; a boost as its name with `_` turned into spaces and upper-cased; any other package under its own name. |
| Payments.ProPlanProductName | src/controllers/paymentController.js:51 | The pro membership is sold as "PRO PREMIUM". |
| Payments.AdmitCheckout | src/controllers/paymentController.js:156-211 | A request is admitted only for a known user and a catalog package of the requested kind, and a boost only with a known duration on a listing the user sells; conversely a known user with a truthy plan naming a membership package, or with a known duration whose boost package exists on a listing the user sells, is admitted with that package; every refusal is 400, 403, 404 or 500. |
| Payments.CheckoutRecord | src/controllers/paymentController.js:214-226 | The new payment is pending via iyzico, priced as its package, for the requesting user, and carries a listing only for a boost. |
| Payments.AfterInit | src/controllers/paymentController.js:279-302 | Only a successful initialisation answers 200 and stores the token; any other reply marks the payment failed with a non-empty reason, which is `IYZICO_INIT_ERROR` with 500 for a transport error. |
| Payments.CheckoutCreatesOnePayment | src/controllers/paymentController.js:152-302 | A refused checkout writes nothing; an admitted one adds exactly one payment under a fresh id, priced as its package, pending or (when initialisation failed) failed, and changes no other collection. |
| Payments.CheckoutRefusesForeignListing | src/controllers/paymentController.js:205-210 | A boost on another seller's listing is refused before any payment exists. |
| Payments.Checkout | src/controllers/paymentController.js:152-313 | The checkout handler on the store does what the checkout specification says. |
| Payments.MembershipGrant | src/controllers/paymentController.js:395-403 | The granted subscription is active, is the buyer's, and runs from now for the package's days. |
| Payments.BoostGrant | src/controllers/paymentController.js:423-438 | The granted boost is active, on the payment's listing, for the buyer, from this package, and runs from now for the package's days. |
| Payments.ApplyPackagePayments | src/controllers/paymentController.js:451-454 | The applier writes only the applied payment, marking it successful with the gateway result, and writes nothing when it throws. |
| Payments.ApplyPackageFrame | src/controllers/paymentController.js:389-449 | A grant keeps the store invariant and leaves the catalog, chats, messages and id counter alone. |
| Payments.ApplySuccessFrame | src/controllers/paymentController.js:377-455 | The applier keeps the invariant; it returns early on a payment already successful and writes nothing then or when it throws; otherwise the payment ends successful with the result stored and no other payment changes. |
| Payments.ApplyMembershipGrants | src/controllers/paymentController.js:389-415 | A membership payment leaves the buyer exactly one active subscription, the new one, ending the package's days from now; the plan resolver finds it until then; the plan cache and a notification mirror it. |
| Payments.ApplyBoostGrants | src/controllers/paymentController.js:417-449 | A boost payment needs an existing listing and leaves it exactly one active boost, the new one; the listing's cache mirrors it; other listings' boosts are untouched. |
| Payments.ApplySuccessIdempotent | src/controllers/paymentController.js:377-385 | After one successful application, every further call returns early and writes nothing. |
| Payments.LegacySuccessBypassesLifecycle | src/controllers/paymentController.js:377-403 | The as-written applier moves a failed payment, or an iyzico payment the gateway never confirmed, straight to success and grants a subscription, a move the lifecycle does not have. |
| Payments.GuardedApplyFollowsLifecycle | src/models/Payment.js:31-49 | Behind the intended guard every status change is a step of the payment's lifecycle: only a locked payment, or a pending manual or bank payment, is applied, and only it moves, to success; otherwise the store is unchanged. |
| Payments.GuardedLegacyEntry | src/controllers/paymentController.js:461-499 | Behind the intended guard the legacy entry still applies the pending manual membership payment the legacy flow opens, granting its subscription, while an unconfirmed iyzico payment and a failed payment are refused with nothing written. |
| Payments.GrantMembershipInPlace | src/controllers/paymentController.js:389-415 | The in-place membership branch performs the overlap close, the new subscription, the plan cache and the notification. |
| Payments.GrantBoostInPlace | src/controllers/paymentController.js:417-449 | The in-place boost branch performs the overlap close, the new boost, the listing cache and the notification. |
| Payments.ApplyPackageInPlace | src/controllers/paymentController.js:387-454 | The in-place grant does what the applier's specification says once the package is found. |
| Payments.ApplyPaymentSuccess | src/controllers/paymentController.js:377-455 | The in-place applier does what the as-written applier's specification says. |
| Payments.ApplyPaymentSuccessGuarded | src/controllers/paymentController.js:377-455 | The in-place applier behind the intended guard does what the guarded specification says. |
| Payments.Lock | src/controllers/paymentController.js:342-346 | The lock succeeds exactly on a pending payment and only moves it to processing. |
| Payments.Declined | src/controllers/paymentController.js:354-361 | A declined charge marks the payment failed with the gateway result and a non-empty reason, and changes nothing else. |
| Payments.CallbackFollowsLifecycle | src/controllers/paymentController.js:319-371 | The callback keeps the invariant and changes at most the payment it names; that payment was pending and ends in a status its lifecycle reaches from pending; an error redirect grants nothing; a thrown applier leaves the named payment locked and grants nothing. |
| Payments.CallbackDeclineStep | src/controllers/paymentController.js:354-361 | A locked payment that the gateway declined ends failed, and no other payment changes. |
| Payments.CallbackApplyStep | src/controllers/paymentController.js:363-365 | A locked payment ends successful, or stays locked with nothing else written when the applier throws, and no other payment changes. |
| Payments.CallbackLockIsExclusive | src/controllers/paymentController.js:342-352 | Once a payment has left pending, every further callback redirects to success and writes nothing. |
| Payments.CallbackRedeliveryGrantsOnce | src/controllers/paymentController.js:342-365 | A redelivered successful callback grants nothing the second time. |
| Payments.LockForProcessing | src/controllers/paymentController.js:342-346 | The in-place test-and-set locks exactly when the lock specification succeeds and writes nothing otherwise. |
| Payments.Callback | src/controllers/paymentController.js:319-371 | The callback handler on the store does what the callback specification says. |
| Payments.PaymentSuccess | src/controllers/paymentController.js:488-499 | The legacy entry answers 500 without a payment id; otherwise it applies without the lock and answers 500 exactly when the applier throws. |
| Iap.PremiumPlan | src/controllers/iapController.js:21-25 | A premium product id buys basic, standard or pro. |
| Iap.BoostDays | src/controllers/iapController.js:27-31 | A boost product id buys 1, 7 or 30 days. |
| Iap.ProductMapsAgreeWithSeed | src/controllers/iapController.js:21-31 | The two product maps are disjoint and injective, and each product is backed by a seeded package of its kind (and, for boosts, its duration). |
| Iap.VerifyWithRetry | src/controllers/iapController.js:154-157 | Production is asked first, and the sandbox once, exactly when production answered 21007; the answer used is the last one. |
| Iap.ReceiptBoostRecord | src/controllers/iapController.js:251-272 | A receipt boost is active, on the listing, for the buyer, from now for the mapped days, and carries the product and transaction ids. |
| Iap.MockGrantSettles | src/controllers/iapController.js:69-148 | The mock path keeps the invariant; its refusal writes nothing, and its failure only switches subscriptions off. |
| Iap.PremiumGrantSettles | src/controllers/iapController.js:172-217 | The premium grant keeps the invariant, and its failure only switches subscriptions off. |
| Iap.ReceiptBoostSettles | src/controllers/iapController.js:221-286 | The boost grant keeps the invariant, and its refusals and duplicates write nothing. |
| Iap.IapValidatesBeforeWriting | src/controllers/iapController.js:51-293 | A missing user is 401 and a missing receipt or product is 400; every rejection or duplicate writes nothing; a failure only switches subscriptions off; every outcome keeps the invariant. |
| Iap.IapRejectsUnverified | src/controllers/iapController.js:159-166 | Outside the mock path, a final status other than 0, or no latest receipt, is refused with 400 and writes nothing. |
| Iap.IapPremiumGrants | src/controllers/iapController.js:172-217 | A verified premium receipt leaves the user exactly one active subscription, spanning the receipt's purchase and expiry; the plan cache names the mapped plan until that expiry; the user is notified. |
| Iap.IapBoostGrants | src/controllers/iapController.js:221-286 | A verified boost receipt needs the user's own listing and an unused transaction, and leaves that listing exactly one active boost, the new one, lasting the mapped days and carrying the transaction id; the cache mirrors it. |
| Iap.IapBoostDeduplicates | src/controllers/iapController.js:227-238 | A receipt boost already recorded is answered as a duplicate and writes nothing, whatever the listing. |
| Iap.IapBoostRedeliveryIsDuplicate | src/controllers/iapController.js:227-238 | Redelivering a boost receipt just granted is a duplicate and changes nothing. |
| Iap.IapPremiumRedeliveryGrantsAgain | src/controllers/iapController.js:172-217 | Premium receipts are not de-duplicated: a redelivery records another subscription. |
| Iap.MockBoostSkipsOwnership | src/controllers/iapController.js:112-147 | The mock boost grants on a listing the caller does not own, or one that does not exist. |
| Iap.MockGrantInPlace | src/controllers/iapController.js:69-148 | The in-place mock path does what the mock specification says. |
| Iap.PremiumGrantInPlace | src/controllers/iapController.js:172-217 | The in-place premium grant does what its specification says. |
| Iap.ReceiptBoostInPlace | src/controllers/iapController.js:221-286 | The in-place boost grant does what its specification says. |
| Iap.VerifyIapPayment | src/controllers/iapController.js:51-293 | The receipt handler on the store does what the receipt specification says. |
| Iap.StatusOf | src/controllers/iapController.js:311-319 | A user is premium exactly when the plan is not "free" and expires after now; then the cached plan and expiry are reported, otherwise "free" with no expiry. |
| Iap.PremiumLapses | src/controllers/iapController.js:311-319 | A premium status lasts until, and not including, its expiry. |
| Iap.IapPremiumMakesPremium | src/controllers/iapController.js:172-217 | A premium receipt makes its buyer premium on the mapped plan at every instant before the receipt's expiry. |
| Iap.GetMySubscriptionStatus | src/controllers/iapController.js:297-324 | The status query answers 401 without a user and 404 for an unknown one, and otherwise reports premium exactly as the premium rule says. |
| Listings.BoostTypeDays | src/controllers/listingController.js:23-32 | Exactly DAY_1, WEEK_1 and MONTH_1 have a duration, and it is positive. |
| Listings.BoostTypesAreOrdered | src/controllers/listingController.js:23-27 | DAY_1 is shorter than WEEK_1, which is shorter than MONTH_1, and a week is seven days. |
| Listings.ActivateGrantsOneBoost | src/controllers/listingController.js:5-84 | Listing, ownership and type are checked before any write; a success keeps the invariant, leaves the listing exactly one active boost, the new one, ending the type's days from now, and the cache and the returned dates match it. |
| Listings.ActivateListingBoost | src/controllers/listingController.js:5-84 | The activation on the store does what the activation specification says. |
| Listings.ClearBoost | src/controllers/listingController.js:99-103 | Clearing a boost unsets the flag and the expiry and changes nothing else. |
| Listings.LazyExpire | src/controllers/listingController.js:97-105 | A read clears the boost exactly when the listing is boosted with an expiry strictly before now, and otherwise returns it unchanged. |
| Listings.LazyExpireSettles | src/controllers/listingController.js:97-105 | After a read no expired boost shows; a later read agrees with reading once; a boost still running is left alone. |
| Listings.GetListingById | src/controllers/listingController.js:87-112 | An unknown listing is 404 and nothing is written; otherwise the lazily expired listing is returned and stored. |
| ExpiredBoosts.ExpiredIndices | src/cron/deactivateExpiredBoosts.js:8-11 | The selection holds exactly the active boosts ending at or before now, each once, in storage order. |
| ExpiredBoosts.SweepOnlyDeactivates | src/cron/deactivateExpiredBoosts.js:17-27 | The sweep only switches boosts off and keeps the overlap invariant; a boost still running is untouched; a boost stays active exactly when it was active and still running; a second sweep changes nothing. |
| ExpiredBoosts.NothingSelected | src/cron/deactivateExpiredBoosts.js:8-11 | A ledger with no ended active boost selects nothing. |
| ExpiredBoosts.ClearedListingsHaveNoActiveBoost | src/cron/deactivateExpiredBoosts.js:17-27 | Under the invariant, a listing whose boost cache the sweep clears has no active boost left. |
| ExpiredBoosts.EmptySelectionWritesNothing | src/cron/deactivateExpiredBoosts.js:13-15 | With nothing selected the sweep writes nothing. |
| ExpiredBoosts.SweepStep | src/cron/deactivateExpiredBoosts.js:17-27 | One more visited boost is switched off and its listing's cache is cleared. |
| ExpiredBoosts.SweepComplete | src/cron/deactivateExpiredBoosts.js:17-27 | Once every selected boost is visited, the steps add up to the sweep. |
| ExpiredBoosts.DeactivateExpiredBoosts | src/cron/deactivateExpiredBoosts.js:4-33 | The in-place loop switches off exactly the selected boosts, clears the cache of exactly their listings, and reports how many. |
| ExpiredListings.ExpireListingsSpec | src/cron/deactivateExpiredListings.js:8-24 | The sweep makes exactly the selected listings passive and changes nothing else; it never reactivates a listing; a second sweep changes nothing. |
| ExpiredListings.PassivateStep | src/cron/deactivateExpiredListings.js:13-15 | Making one more listing passive extends the passivated set by it. |
| ExpiredListings.ExpireStep | src/cron/deactivateExpiredListings.js:13-21 | One more visited listing becomes passive and its seller gets one more notification. |
| ExpiredListings.DeactivateExpiredListings | src/cron/deactivateExpiredListings.js:4-28 | The in-place loop visits each selected listing once, makes exactly those passive and notifies each one's seller once, in visiting order. |
| BoostJobs.WatcherTickSpec | src/jobs/boostJobs.js:12-21 | A tick clears exactly the selected boost caches and changes nothing else; a second tick changes nothing. |
| BoostJobs.TickThenReadAgree | src/jobs/boostJobs.js:12-15 | After a tick a read finds nothing to expire; a boost expiring exactly now is cleared by the tick but left showing by a read. |
| BoostJobs.TickStep | src/jobs/boostJobs.js:17-28 | One more visited listing has its cache cleared and its seller gets one more notification. |
| BoostJobs.BoostWatcherTick | src/jobs/boostJobs.js:8-36 | The in-place tick visits each selected listing once, clears exactly those caches and notifies each one's seller once, in visiting order. |
| SellerPlan.ResolvePlan | src/middleware/checkSellerPlan.js:17-27 | No subscription is resolved exactly when the seller has no active one ending after now; a resolved plan is the package name and end of such a subscription. |
| SellerPlan.CheckSellerPlanContract | src/middleware/checkSellerPlan.js:6-69 | Only the seller's plan cache is written, to what the ledger says, exactly when it disagreed; a missing user or non-seller is refused; the request proceeds exactly when the plan is in the table and the seller is under its quota; a quota refusal names the reached limit. |
| SellerPlan.CheckSellerPlanIsIdempotent | src/middleware/checkSellerPlan.js:29-41 | A second run gives the same answer and writes nothing. |
| SellerPlan.UnsubscribedSellerIsBasic | src/middleware/checkSellerPlan.js:24-41 | A seller without a subscription is held to the basic quota of five, and a cached plan of anything else is reset to basic with no expiry. |
| SellerPlan.CheckSellerPlan | src/middleware/checkSellerPlan.js:6-69 | The middleware on the store does what its specification says. |
| AuthRoutes.RegistrableRole | src/routes/authRoutes.js:62-64 | Exactly "buyer" and "seller" can register, and only "seller" gives a seller. |
| AuthRoutes.RegisterContract | src/routes/authRoutes.js:58-108 | A refusal writes nothing; each of the five refusals happens exactly when its check fails and every earlier one passed (missing field, invalid role, taken email with 409, missing tax document, missing seller details); a registration succeeds exactly when every check passes and adds one user under a fresh id with the requested role (a seller with its tax document and the "free" plan); the invariant and unique emails are kept. |
| AuthRoutes.Register | src/routes/authRoutes.js:25-142 | The registration route on the store does what its specification says. |
| AuthRoutes.BuyPlanContract | src/routes/authRoutes.js:198-231 | The plan is checked before the user; a refusal writes nothing; a purchase writes only the buyer's plan cache, to a plan in the table, and records no subscription. |
| AuthRoutes.BoughtPlanIsOverriddenByLedger | src/routes/authRoutes.js:214-220 | A plan bought without a subscription is undone by the plan middleware, which holds the seller to the basic quota. |
| AuthRoutes.BuyPlan | src/routes/authRoutes.js:198-231 | The buy-plan route on the store does what its specification says. |
| AuthRoutes.RemainingListings | src/routes/authRoutes.js:304-312 | The remaining count is "unlimited" exactly for an unlimited plan; otherwise it is the quota minus the used count, never below zero. |
| AuthRoutes.RemainingAgreesWithQuota | src/routes/authRoutes.js:304-312 | The remaining count is positive (or unlimited) exactly when the middleware would let one more listing through. |
| AuthRoutes.MeContract | src/routes/authRoutes.js:233-340 | `/me` is 404 for an unknown user and gives no plan summary to a non-seller; a seller's plan is the running subscription's package or basic, with that quota and the active listing count; it fails exactly when the middleware would; it shows listings remaining exactly when the middleware would admit one. |
| AuthRoutes.Me | src/routes/authRoutes.js:233-340 | The `/me` route reads the store and answers what its specification says. |
| ChatRoutes.FindChatFrom | src/controllers/chatController.js:25-28 | The chat found is the first one, in creation order, about the listing with the buyer among its buyers; none is found only when no chat qualifies. |
| ChatRoutes.StoreNameOf | src/controllers/chatController.js:22-23 | The store name is the listing's when non-empty, else "Mağaza"; it is never empty. |
| ChatRoutes.StartOrGetChatContract | src/controllers/chatController.js:8-46 | Without a listing id or with an unknown listing nothing is written; otherwise the buyer's chat is reused, with an empty store name filled in, or exactly one new chat with the seller, the buyer alone and zero unread counters is created; the invariant is kept. |
| ChatRoutes.StartOrGetChatKeepsChatsUnique | src/controllers/chatController.js:25-36 | No buyer ever gets two chats about the same listing. |
| ChatRoutes.StartOrGetChatIsIdempotent | src/controllers/chatController.js:8-46 | Opening the same chat twice gives the same chat and writes nothing the second time. |
| ChatRoutes.StartOrGetChat | src/controllers/chatController.js:8-46 | The handler on the store does what its specification says. |
| ChatRoutes.SendMessageContract | src/controllers/chatController.js:128-169 | The message, seen by its sender only, is stored even when the chat is missing; in an existing chat a buyer's message raises only the seller's counter and anyone else's only the buyers', each by one, and the last message is the text. |
| ChatRoutes.SendMessage | src/controllers/chatController.js:128-169 | The handler on the store does what its specification says. |
| ChatRoutes.AddSeen | src/controllers/chatController.js:106-109 | Adding to the seen list is a set insertion: it keeps every reader, adds only the new one and creates no duplicates. |
| ChatRoutes.MarkSeenContract | src/controllers/chatController.js:106-109 | Every message of the chat is seen by the reader afterwards, other chats' messages are untouched, and marking again changes nothing. |
| ChatRoutes.MessagesOf | src/controllers/chatController.js:102-104 | Every message listed belongs to the chat and is stored, and every stored message of the chat is listed. |
| ChatRoutes.MessagesOfConcat | src/controllers/chatController.js:102-104 | The listing keeps storage order and multiplicity: the messages of an earlier stretch of the store come before those of a later one. |
| ChatRoutes.MessagesOfSingle | src/controllers/chatController.js:102-104 | A single stored message is listed exactly when it belongs to the chat. |
| ChatRoutes.SentMessageIsListedLast | src/controllers/chatController.js:97-139 | A message just sent is listed after all earlier messages of its chat, and other chats' lists are unchanged, matching the `createdAt` ascending sort. |
| ChatRoutes.GetMessagesContract | src/controllers/chatController.js:97-125 | Reading resets exactly the reader's side of the unread counters and keeps the other side, the rest of the chat and every other chat. |
| ChatRoutes.GetMessagesIsIdempotent | src/controllers/chatController.js:106-119 | A second read at once writes nothing. |
| ChatRoutes.SellerReadClearsBuyerMessage | src/controllers/chatController.js:148-158 | A buyer's message raises the seller's counter by one, and the seller's read clears it while the buyers' counter stays. |
| ChatRoutes.MarkSeenInPlace | src/controllers/chatController.js:106-109 | The in-place update marks exactly what the marking specification says. |
| ChatRoutes.GetMessages | src/controllers/chatController.js:97-125 | The handler on the store does what its specification says. |
| ChatRoutes.MarkSellerReadContract | src/controllers/chatController.js:172-187 | The seller's counter ends at zero whoever reads, the buyers' counter and other chats are kept, and a second call writes nothing. |
| ChatRoutes.MarkSellerRead | src/controllers/chatController.js:172-187 | The handler on the store does what its specification says. |

## Left out

- The gateway and Apple network calls are not modelled. The iyzico client, its `checkoutFormInitialize` and `retrieve` calls and `verifyApple` are replaced by the replies they produce, passed as parameters (`InitReply`, `RetrieveReply`, `Verifier`).
- The checkout request body built for the gateway and `pickClientIp` are not modelled; they only feed the network call.
- `previewPayment` and `initPayment` are not modelled; neither writes an entitlement. `initPayment` opens a pending manual payment (src/controllers/paymentController.js:461-480); `Payments.GuardedLegacyEntry` starts from such a payment. Its package lookup by a `key` field the package schema does not declare depends on the database driver's query-filtering mode, which is not modelled.
- Concurrency is not modelled. The conditional `findOneAndUpdate` lock is one atomic step; racing callers and several server instances are not.
- Persistence failures are not modelled. The store never fails, so the sweeps' catch-all handlers never fire, and a create never throws after its overlap close except where the model says so (a missing package or receipt instant in the receipt flow).
- Schema validation and strict-mode field stripping are not modelled. Records carry every field the controllers write, the schema-less ones as optional fields. The schema's required `boostType` on a boost is not enforced, although only direct activation writes it.
- Database ids are natural numbers from a counter; whether an id string is a valid ObjectId is not modelled.
- Text is not modelled. Notification titles and messages, socket emits, push and mail sending, `updatedAt` timestamps and the static markup of the mail are left out. A notification is its addressee and its kind.
- Iap.PremiumPlan: a product id that names a property every JavaScript object inherits (`constructor`, `toString`, …) finds a truthy value in the source's plain-object map, so the source enters the premium branch, closes the user's subscriptions and then fails; the model finds no plan and refuses with 400 before any write.
- Iap.BoostDays: the same inherited-name lookup enters the source's boost branch; the model finds no duration and refuses with 400.
- Listings.BoostTypeDays: a boost type naming an inherited property passes the source's `!days` check, so it closes the listing's active boosts before the record creation fails; the model answers `UnknownBoostType` with no write.
- AuthRoutes.BuyPlanContract: a plan naming an inherited property passes the source's `SELLER_PLANS[plan]` check and goes on to the user lookup and save; the model refuses it with 400.
- MailTemplates.SafeMsg: when the 1200th code unit is the first half of a surrogate pair, the source keeps that lone half; the model's strings hold whole Unicode scalar values only, so it drops the whole character.
- ChatRoutes.MessagesOf: messages created in the same millisecond share a `createdAt`, and the sort leaves their order open; the model lists them in storage order.
- Text.ToUpper: upper-cases ASCII letters only, because the product names it is applied to are ASCII; JavaScript's full Unicode case mapping is not modelled.
- Payments.Checkout: the payment's `meta` record is built as the source builds it, but no property is stated about it, since nothing reads it.
- The calendar arithmetic of `/buy-plan` (`setDate(getDate() + 30)`) is not modelled; the resulting expiry is a parameter.
- Email normalisation, password hashing, login, tokens, password reset and the other account routes are not modelled; `/register` is modelled up to the record it creates.
- The mail's year comes from the clock and is a parameter.
- A missing optional string is one `None`; JavaScript's distinction between `null` and `undefined` for a parameter with a default is not modelled.
- The chat lookup also matches chats by a legacy single `buyer` field; the model keeps only the `buyers` list.
- The chat lookup returns the chat with the least id. MongoDB returns an unspecified matching document, and under the one-chat-per-buyer-and-listing rule there is only one.
- The premium receipt flow's check for a missing end date is not modelled as a separate branch, because an invalid date object is truthy and the check never fires; a missing instant instead makes the record creation fail, as it does in the source.
- Boost de-duplication for a receipt without a transaction id is modelled as matching recorded boosts that also lack one; how the database query treats an undefined value is not modelled.
- The scheduling of the boost watcher (`setInterval`) and of the crons is not modelled; one run is one call.
- Prices in the plan table are kept in kuruş as whole numbers; no decision depends on them.

## Findings

| source | as written | input that shows it | evidently intended | confidence | as-written member | corrected member |
|---|---|---|---|---|---|---|
| src/controllers/paymentController.js:382 | The success applier's only guard is `status === "success"`, although the comment above it names processing as well, and the legacy `/success` entry (lines 488-499, no login) calls it without taking the lock. | An iyzico membership payment still pending because the gateway never confirmed it, or any failed membership payment, passed to `/success`: it becomes success and a subscription is granted. | An iyzico payment moves to success only while its callback holds the lock (processing); a pending manual or bank payment opened by the legacy flow (lines 461-480) may move straight to success; a failed payment is never granted. | not executed | Payments.LegacySuccessBypassesLifecycle | Payments.GuardedApplyFollowsLifecycle |

The gateway callback runs the applier behind the corrected guard
(`Payments.ApplySuccessGuarded`). This changes nothing there, because the
callback only applies a payment it has just locked, so the payment is in
processing. The legacy entry,
`Payments.PaymentSuccess`, is modelled as written so that the finding stays
visible. `PaymentModel.AsWrittenGuardAdmitsFailed` and
`PaymentModel.ApplyGuardRespectsLifecycle` state the two guards against the
lifecycle. The payment record's schema
(src/models/Payment.js:31-49) names the statuses and providers but no
transitions. The model's lifecycle, `PaymentModel.Step`, is read off the code
that moves them: checkout, the callback's lock and decline, and the legacy
flow. `Payments.GuardedLegacyEntry` shows that the corrected guard still
serves the legacy flow's manual payments.
