/** The seller plan table `SELLER_PLANS` (`src/config/plans.js`). */
module Plans {

  /** `maxListings`, where the source's `Infinity` is its own case. */
  datatype MaxListings = Limited(n: nat) | Unlimited

  /** One plan. The price is in kuruş (hundredths of a lira): 49.9 is 4990. */
  datatype PlanConfig = PlanConfig(key: string, name: string, maxListings: MaxListings, priceKurus: nat)

  const SellerPlans: map<string, PlanConfig> := map[
    "basic" := PlanConfig("basic", "Basic Premium", Limited(5), 4990),
    "standard" := PlanConfig("standard", "Orta Seviye", Limited(15), 9990),
    "pro" := PlanConfig("pro", "PRO Premium", Unlimited, 14990)
  ]

  /** `count >= maxListings` is false: a seller with `count` active listings
      may publish another one. */
  predicate UnderQuota(count: nat, max: MaxListings) {
    match max
    case Unlimited => true
    case Limited(n) => count < n
  }

  /** Quota `a` allows no more listings than quota `b`. */
  predicate QuotaAtMost(a: MaxListings, b: MaxListings) {
    b.Unlimited? || (a.Limited? && a.n <= b.n)
  }

  /** The table holds exactly basic, standard and pro; every entry's `key`
      is its own name; the quotas are 5, 15 and unlimited. */
  lemma SellerPlansShape()
    ensures SellerPlans.Keys == {"basic", "standard", "pro"}
    ensures forall k :: k in SellerPlans ==> SellerPlans[k].key == k
    ensures SellerPlans["basic"].maxListings == Limited(5)
    ensures SellerPlans["standard"].maxListings == Limited(15)
    ensures SellerPlans["pro"].maxListings == Unlimited
  {
  }

  /** Quotas grow with the plan: basic, then standard, then pro. */
  lemma QuotasAreOrdered()
    ensures QuotaAtMost(SellerPlans["basic"].maxListings, SellerPlans["standard"].maxListings)
    ensures QuotaAtMost(SellerPlans["standard"].maxListings, SellerPlans["pro"].maxListings)
  {
  }

  /** A seller under quota on a plan is under quota on any larger plan. */
  lemma UnderQuotaMonotone(count: nat, a: MaxListings, b: MaxListings)
    requires QuotaAtMost(a, b) && UnderQuota(count, a)
    ensures UnderQuota(count, b)
  {
  }
}
