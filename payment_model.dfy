/** The payment record of `src/models/Payment.js`: its status and provider
    enumerations, its defaults, and the lifecycle its documentation gives the
    statuses. */
module PaymentModel {
  import opened Common

  /** pending: the gateway was initialised; processing: a callback holds the
      lock; success: the entitlement was granted; failed: the payment failed. */
  datatype PaymentStatus = Pending | Processing | Success | Failed

  datatype Provider = Iyzico | Manual | Bank

  /** What the gateway's `retrieve` call reports; stored on the payment for audit. */
  datatype GatewayResult = GatewayResult(
    status: string, paymentStatus: string, conversationId: Option<Id>, errorMessage: Option<string>)

  /** The checkout request as recorded in `meta`. */
  datatype PaymentMeta = PaymentMeta(kind: string, plan: Option<string>, duration: Option<string>)

  datatype Payment = Payment(
    userId: Id, packageId: Id, listingId: Option<Id>, amount: int,
    status: PaymentStatus, provider: Provider,
    iyzicoToken: Option<string>, iyzicoResult: Option<GatewayResult>,
    failReason: Option<string>, meta: Option<PaymentMeta>)

  /** A payment created with only its required fields: every other field
      takes the schema default. */
  function NewPayment(userId: Id, packageId: Id, amount: int): (p: Payment)
    ensures p.status == Pending && p.provider == Iyzico
    ensures p.listingId.None? && p.iyzicoToken.None? && p.iyzicoResult.None? && p.failReason.None? && p.meta.None?
    ensures p.userId == userId && p.packageId == packageId && p.amount == amount
  {
    Payment(userId, packageId, None, amount, Pending, Iyzico, None, None, None, None)
  }

  /** The lifecycle. A gateway (iyzico) payment goes from pending to
      processing (the callback's lock) or to failed (initialisation
      failed), and from processing to success or failed. A manual or bank
      payment, opened by the legacy flow, may also go from pending straight
      to success when the bank returns. */
  predicate Step(provider: Provider, from: PaymentStatus, to: PaymentStatus) {
    (from == Pending && (to == Processing || to == Failed))
    || (from == Processing && (to == Success || to == Failed))
    || (provider != Iyzico && from == Pending && to == Success)
  }

  predicate Terminal(s: PaymentStatus) {
    s == Success || s == Failed
  }

  /** Success and failed are final; every other status can still fail; a
      gateway payment reaches success only through processing, a manual or
      bank payment also straight from pending. */
  lemma LifecycleShape(pv: Provider, s: PaymentStatus, t: PaymentStatus)
    ensures Terminal(s) ==> !Step(pv, s, t)
    ensures !Terminal(s) ==> Step(pv, s, Failed)
    ensures Step(Iyzico, s, Success) <==> s == Processing
    ensures pv != Iyzico ==> (Step(pv, s, Success) <==> s == Processing || s == Pending)
  {
  }

  /** The guard of `applyPaymentSuccess` as written: it proceeds on every
      status but success. */
  predicate ApplyProceedsAsWritten(s: PaymentStatus) {
    s != Success
  }

  /** The guard as the lifecycle intends it: a payment may move to success
      only from where its provider's lifecycle allows, so a gateway payment
      must be locked by its callback first and a failed one is never
      granted. */
  predicate ApplyProceeds(pv: Provider, s: PaymentStatus) {
    s == Processing || (pv != Iyzico && s == Pending)
  }

  /** The written guard lets a failed payment, and a gateway payment that no
      callback has locked, through to success; the lifecycle reaches success
      from neither. */
  lemma AsWrittenGuardAdmitsFailed(pv: Provider)
    ensures ApplyProceedsAsWritten(Failed) && Terminal(Failed) && !Step(pv, Failed, Success)
    ensures ApplyProceedsAsWritten(Pending) && !Step(Iyzico, Pending, Success)
  {
  }

  /** The intended guard admits exactly the statuses from which the
      provider's lifecycle reaches success, and is stricter than the written
      one, which also admits every other status but success. */
  lemma ApplyGuardRespectsLifecycle(pv: Provider, s: PaymentStatus)
    ensures ApplyProceeds(pv, s) <==> Step(pv, s, Success)
    ensures ApplyProceeds(pv, s) ==> ApplyProceedsAsWritten(s)
    ensures ApplyProceedsAsWritten(s) <==> ApplyProceeds(pv, s) || s == Failed || (pv == Iyzico && s == Pending)
  {
  }
}
