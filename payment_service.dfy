/** PaymentService: a payment for an order is recorded according to the
    provider named, matched without regard to case; providers other than
    Mock, Stripe and PayPal are refused. */
module PaymentService {
  import opened Common
  import opened Entities
  import opened Data

  /** Guid.ToString() in its default format: 32 hex digits and 4 dashes. */
  predicate IsGuidText(s: string)
  {
    |s| == 36
  }

  /** "MOCK-" and the first twelve characters of a fresh Guid, upper-cased. */
  function MockTransactionId(guidText: string): (r: string)
    requires IsGuidText(guidText)
    ensures StartsWith(r, "MOCK-") && |r| == 17
  {
    var r := "MOCK-" + ToUpper(guidText[..12]);
    assert r[..5] == "MOCK-";
    r
  }

  /** "pi_" and a fresh Guid without its dashes. */
  function StripeIntentId(guidText: string): (r: string)
    ensures StartsWith(r, "pi_")
    ensures '-' !in r[3..]
  {
    var r := "pi_" + RemoveChar(guidText, '-');
    assert r[..3] == "pi_" && r[3..] == RemoveChar(guidText, '-');
    r
  }

  predicate IsMock(provider: string) { EqualsIgnoreCase(provider, "Mock") }
  predicate IsStripe(provider: string) { EqualsIgnoreCase(provider, "Stripe") }
  predicate IsPayPal(provider: string) { EqualsIgnoreCase(provider, "PayPal") }

  predicate IsSupportedProvider(provider: string)
  {
    IsMock(provider) || IsStripe(provider) || IsPayPal(provider)
  }

  function UnsupportedProvider(provider: string): Error
  {
    NotSupported("Payment provider '" + provider + "' is not supported")
  }

  /** The payment ProcessPaymentAsync records for an order, or the error it
      throws: Mock completes at once with a MOCK- transaction id, Stripe and
      PayPal stay pending (Stripe with a pi_ payment intent), anything else is
      not supported. */
  function PaymentFor(orderId: Guid, amount: Cents, provider: string, paymentId: Guid,
                      guidText: string, now: Time): (r: Result<Payment>)
    requires IsGuidText(guidText)
    ensures r.Ok? <==> IsSupportedProvider(provider)
    ensures r.Err? ==> r.error == UnsupportedProvider(provider)
    ensures r.Ok? ==>
      && r.value.id == paymentId
      && r.value.orderId == orderId
      && r.value.amount == amount
      && r.value.provider == provider
      && r.value.createdAt == now
    ensures r.Ok? ==> (r.value.status == PaymentStatus.Completed <==> IsMock(provider))
    ensures r.Ok? && !IsMock(provider) ==> r.value.status == PaymentStatus.Pending
    ensures r.Ok? && IsMock(provider) ==>
      && r.value.transactionId.Some?
      && StartsWith(r.value.transactionId.value, "MOCK-")
      && r.value.paymentIntentId.None?
    ensures r.Ok? && !IsMock(provider) && IsStripe(provider) ==>
      && r.value.transactionId.None?
      && r.value.paymentIntentId.Some?
      && StartsWith(r.value.paymentIntentId.value, "pi_")
    ensures r.Ok? && !IsMock(provider) && !IsStripe(provider) ==>
      r.value.transactionId.None? && r.value.paymentIntentId.None?
  {
    var payment := Payment(paymentId, orderId, provider, PaymentStatus.Processing, None, amount, None, now);
    if IsMock(provider) then
      Ok(payment.(status := PaymentStatus.Completed, transactionId := Some(MockTransactionId(guidText))))
    else if IsStripe(provider) then
      Ok(payment.(paymentIntentId := Some(StripeIntentId(guidText)), status := PaymentStatus.Pending))
    else if IsPayPal(provider) then
      Ok(payment.(status := PaymentStatus.Pending))
    else
      Err(UnsupportedProvider(provider))
  }

  /** Provider names that differ only in case are dispatched alike. */
  lemma {:induction false} ProviderCaseInsensitive(orderId: Guid, amount: Cents, p: string, q: string,
                                                    paymentId: Guid, guidText: string, now: Time)
    requires IsGuidText(guidText) && EqualsIgnoreCase(p, q)
    ensures PaymentFor(orderId, amount, p, paymentId, guidText, now).Ok?
        <==> PaymentFor(orderId, amount, q, paymentId, guidText, now).Ok?
    ensures PaymentFor(orderId, amount, p, paymentId, guidText, now).Ok? ==>
      PaymentFor(orderId, amount, p, paymentId, guidText, now).value.status
        == PaymentFor(orderId, amount, q, paymentId, guidText, now).value.status
  {
  }

  /** ProcessPaymentAsync: builds the payment as Processing, overwrites its
      status and ids per provider, and appends it to the Payments table. */
  method ProcessPayment(db: Database, orderId: Guid, amount: Cents, provider: string,
                        paymentId: Guid, guidText: string, now: Time) returns (r: Result<Payment>)
    requires IsGuidText(guidText)
    modifies db
    ensures r == PaymentFor(orderId, amount, provider, paymentId, guidText, now)
    ensures r.Ok? ==> db.payments == old(db.payments) + [r.value]
    ensures r.Err? ==> db.payments == old(db.payments)
    ensures unchanged(db`products, db`carts, db`orders, db`users, db`addresses)
    ensures old(db.Valid()) ==> db.Valid()
  {
    var payment := Payment(paymentId, orderId, provider, PaymentStatus.Processing, None, amount, None, now);
    if IsMock(provider) {
      payment := payment.(status := PaymentStatus.Completed);
      payment := payment.(transactionId := Some(MockTransactionId(guidText)));
    } else if IsStripe(provider) {
      payment := payment.(paymentIntentId := Some(StripeIntentId(guidText)));
      payment := payment.(status := PaymentStatus.Pending);
    } else if IsPayPal(provider) {
      payment := payment.(status := PaymentStatus.Pending);
    } else {
      return Err(UnsupportedProvider(provider));
    }
    db.payments := db.payments + [payment];
    r := Ok(payment);
  }

  /** HandleWebhookAsync is not implemented: every call fails. */
  function HandleWebhook(provider: string, payload: string): (r: Result<Payment>)
    ensures r.Err? && r.error.NotImplemented?
  {
    Err(NotImplemented("Webhook handling not yet implemented"))
  }
}
