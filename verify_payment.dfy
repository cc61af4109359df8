/** `verifyRazorpayPayment`: hard checks (all three parameters present, the
    signature matches, and a fetched payment's status is authorized or
    captured) and soft ones (a payment fetch that throws, the order's amount)
    that never fail the request. The gateway's answers are parameters; a fetch
    that threw is a `...Failed` value. */
module PaymentVerification {
  import opened JsValue
  import opened Validation
  import opened Signature
  import PaymentCreation

  const VerifyFields: seq<string> := ["razorpay_order_id", "razorpay_payment_id", "razorpay_signature"]
  const MissingParamsMessage := "Payment verification failed: Missing required parameters"
  const BadSignatureMessage := "Invalid payment signature. Payment verification failed."
  const SignErrorMessage := "Error generating signature for verification"
  const StatusPrefix := "Payment verification failed. Payment status is "

  /** `razorpay.payments.fetch(id)`: the payment's status and amount, or a throw. */
  datatype PaymentFetch = PaymentFetched(status: Value, amount: Value) | PaymentFetchFailed
  /** `razorpay.orders.fetch(id)`: the order's amount, or a throw. */
  datatype OrderFetch = OrderFetched(amount: Value) | OrderFetchFailed

  /** Verified: the 200 response, echoing both ids. VerifyFailed: an HTTP
      status, a message and the collected errors (none when the response
      carries no `errors` list). */
  datatype VerifyOutcome =
    | Verified(paymentId: Value, orderId: Value)
    | VerifyFailed(status: int, message: string, errors: seq<string>)

  /** The statuses under which a payment counts as paid. */
  predicate Settled(status: Value)
    ensures Settled(status) ==> status.Str? && Truthy(status) && status.s in {"authorized", "captured"}
  {
    status == Str("authorized") || status == Str("captured")
  }

  /** The outcome of a verification request, rule by rule. The order fetch does
      not appear: its result is only logged. */
  function VerifySpec(body: map<string, Value>, key: Option<string>, hmac: (string, string) -> string,
                      payment: PaymentFetch): (out: VerifyOutcome)
    ensures out.VerifyFailed? ==> out.status == 400
    ensures out.VerifyFailed? && out.errors != [] ==> out.message == MissingParamsMessage
    ensures out.Verified? ==> out == Verified(Field(body, "razorpay_payment_id"), Field(body, "razorpay_order_id"))
  {
    var errs := MissingFields(body, VerifyFields);
    var orderId := Field(body, "razorpay_order_id");
    var paymentId := Field(body, "razorpay_payment_id");
    if errs != [] then VerifyFailed(400, MissingParamsMessage, errs)
    else match CheckSignature(hmac, key, orderId, paymentId, Field(body, "razorpay_signature"))
      case SignError => VerifyFailed(400, SignErrorMessage, [])
      case Mismatch => VerifyFailed(400, BadSignatureMessage, [])
      case Valid =>
        if payment.PaymentFetched? && !Settled(payment.status) then
          VerifyFailed(400, StatusPrefix + ToStr(payment.status), [])
        else Verified(paymentId, orderId)
  }

  /** The "Payment amount mismatch!" warning is logged exactly when both fetches
      succeeded for a settled payment and the amounts differ. */
  predicate AmountMismatchWarned(body: map<string, Value>, key: Option<string>,
                                 hmac: (string, string) -> string, payment: PaymentFetch, order: OrderFetch)
    ensures AmountMismatchWarned(body, key, hmac, payment, order) ==>
      payment.PaymentFetched? && order.OrderFetched? && order.amount != payment.amount
  {
    && MissingFields(body, VerifyFields) == []
    && CheckSignature(hmac, key, Field(body, "razorpay_order_id"), Field(body, "razorpay_payment_id"),
                      Field(body, "razorpay_signature")) == Valid
    && payment.PaymentFetched? && Settled(payment.status)
    && order.OrderFetched? && order.amount != payment.amount
  }

  /** The handler, step by step as the controller runs it; `warned` is whether
      the amount-mismatch warning was logged. */
  method VerifyRazorpayPayment(body: map<string, Value>, key: Option<string>,
                               hmac: (string, string) -> string, payment: PaymentFetch, order: OrderFetch)
    returns (out: VerifyOutcome, warned: bool)
    ensures out == VerifySpec(body, key, hmac, payment)
    ensures warned == AmountMismatchWarned(body, key, hmac, payment, order)
  {
    var razorpayOrderId := Field(body, "razorpay_order_id");
    var razorpayPaymentId := Field(body, "razorpay_payment_id");
    var razorpaySignature := Field(body, "razorpay_signature");
    warned := false;

    var validationErrors := CollectVerifyErrors(body);
    if |validationErrors| > 0 {
      return VerifyFailed(400, MissingParamsMessage, validationErrors), warned;
    }

    match key {
      case None =>
        return VerifyFailed(400, SignErrorMessage, []), warned;
      case Some(secret) =>
        var generatedSignature := hmac(secret, ToStr(razorpayOrderId) + "|" + ToStr(razorpayPaymentId));
        if Str(generatedSignature) != razorpaySignature {
          return VerifyFailed(400, BadSignatureMessage, []), warned;
        }
    }

    match payment {
      case PaymentFetched(status, amount) =>
        if status != Str("authorized") && status != Str("captured") {
          return VerifyFailed(400, StatusPrefix + ToStr(status), []), warned;
        }
        match order {
          case OrderFetched(orderAmount) =>
            if orderAmount != amount {
              warned := true;
            }
          case OrderFetchFailed =>
        }
      case PaymentFetchFailed =>
    }

    out := Verified(razorpayPaymentId, razorpayOrderId);
  }

  /** `validationErrors`: one message per falsy parameter, pushed in order. */
  method CollectVerifyErrors(body: map<string, Value>) returns (validationErrors: seq<string>)
    ensures validationErrors == MissingFields(body, VerifyFields)
  {
    validationErrors := [];
    validationErrors := PushIfMissing(validationErrors, Field(body, "razorpay_order_id"), "razorpay_order_id");
    MissingFieldsPush(body, VerifyFields, 0);
    validationErrors := PushIfMissing(validationErrors, Field(body, "razorpay_payment_id"), "razorpay_payment_id");
    MissingFieldsPush(body, VerifyFields, 1);
    validationErrors := PushIfMissing(validationErrors, Field(body, "razorpay_signature"), "razorpay_signature");
    MissingFieldsPush(body, VerifyFields, 2);
    assert VerifyFields[..0] == [] && VerifyFields[..3] == VerifyFields;
  }

  // ---------------------------------------------------------------------------
  // What the controller promises about verification requests.

  /** Missing parameters are all reported together, one message per falsy
      parameter in the order order id, payment id, signature; nothing else is
      looked at. */
  lemma MissingParamsReported(body: map<string, Value>, key: Option<string>,
                              hmac: (string, string) -> string, payment: PaymentFetch)
    requires exists n :: n in VerifyFields && !Truthy(Field(body, n))
    ensures var out := VerifySpec(body, key, hmac, payment);
      && out.VerifyFailed? && out.status == 400 && out.message == MissingParamsMessage
      && (forall n :: n in VerifyFields ==> (Required(n) in out.errors <==> !Truthy(Field(body, n))))
      && IsSubsequence(out.errors, AllRequired(VerifyFields))
  {
    var errs := MissingFields(body, VerifyFields);
    MissingFieldsEmpty(body, VerifyFields);
    MissingFieldsOrdered(body, VerifyFields);
    forall n | n in VerifyFields
      ensures Required(n) in errs <==> !Truthy(Field(body, n))
    {
      MissingFieldsMember(body, VerifyFields, n);
    }
  }

  /** A request succeeds exactly when all three parameters are present, the
      signature equals Hmac(secret, order_id + "|" + payment_id), and the
      payment fetch either failed or reported authorized or captured. */
  lemma VerifiedExactly(body: map<string, Value>, key: Option<string>,
                        hmac: (string, string) -> string, payment: PaymentFetch)
    ensures VerifySpec(body, key, hmac, payment).Verified? <==>
      && (forall n :: n in VerifyFields ==> Truthy(Field(body, n)))
      && key.Some?
      && Field(body, "razorpay_signature") ==
         Str(hmac(key.value, ToStr(Field(body, "razorpay_order_id")) + "|" + ToStr(Field(body, "razorpay_payment_id"))))
      && (payment.PaymentFetchFailed? || Settled(payment.status))
  {
    MissingFieldsEmpty(body, VerifyFields);
  }

  /** A success echoes the ids it was given. */
  lemma VerifiedEchoesIds(body: map<string, Value>, key: Option<string>,
                          hmac: (string, string) -> string, payment: PaymentFetch)
    requires VerifySpec(body, key, hmac, payment).Verified?
    ensures VerifySpec(body, key, hmac, payment) ==
      Verified(Field(body, "razorpay_payment_id"), Field(body, "razorpay_order_id"))
    ensures Truthy(Field(body, "razorpay_payment_id")) && Truthy(Field(body, "razorpay_order_id"))
  {
    MissingFieldsEmpty(body, VerifyFields);
  }

  /** A signature that does not check out fails before any gateway fetch: the
      outcome does not depend on what the gateway would have said. */
  lemma SignatureFailsBeforeFetch(body: map<string, Value>, key: Option<string>,
                                  hmac: (string, string) -> string, p1: PaymentFetch, p2: PaymentFetch)
    requires MissingFields(body, VerifyFields) == []
    requires CheckSignature(hmac, key, Field(body, "razorpay_order_id"), Field(body, "razorpay_payment_id"),
                            Field(body, "razorpay_signature")) != Valid
    ensures VerifySpec(body, key, hmac, p1) == VerifySpec(body, key, hmac, p2)
    ensures VerifySpec(body, key, hmac, p1).VerifyFailed?
    ensures key.None? ==> VerifySpec(body, key, hmac, p1) == VerifyFailed(400, SignErrorMessage, [])
    ensures key.Some? ==> VerifySpec(body, key, hmac, p1) == VerifyFailed(400, BadSignatureMessage, [])
  {
  }

  /** A fetched status other than authorized or captured fails, and the message
      ends with that status. */
  lemma UnsettledStatusNamed(body: map<string, Value>, key: Option<string>,
                             hmac: (string, string) -> string, status: Value, amount: Value)
    requires MissingFields(body, VerifyFields) == []
    requires CheckSignature(hmac, key, Field(body, "razorpay_order_id"), Field(body, "razorpay_payment_id"),
                            Field(body, "razorpay_signature")) == Valid
    requires !Settled(status)
    ensures var out := VerifySpec(body, key, hmac, PaymentFetched(status, amount));
      && out == VerifyFailed(400, StatusPrefix + ToStr(status), [])
      && out.message[|StatusPrefix|..] == ToStr(status)
  {
    var m := StatusPrefix + ToStr(status);
    assert m[|StatusPrefix|..] == ToStr(status);
  }

  /** A payment fetch that threw counts as a settled payment: a failed fetch
      never turns a success into a failure. */
  lemma FailedFetchIsNotFatal(body: map<string, Value>, key: Option<string>,
                              hmac: (string, string) -> string, amount: Value)
    ensures VerifySpec(body, key, hmac, PaymentFetchFailed) ==
            VerifySpec(body, key, hmac, PaymentFetched(Str("captured"), amount))
  {
  }

  /** A logged mismatch always belongs to a successful verification. */
  lemma MismatchOnlyOnSuccess(body: map<string, Value>, key: Option<string>,
                              hmac: (string, string) -> string, payment: PaymentFetch, order: OrderFetch)
    requires AmountMismatchWarned(body, key, hmac, payment, order)
    ensures VerifySpec(body, key, hmac, payment).Verified?
  {
  }

  /** The two handlers check the same signature: a gateway payment that
      `createPayment` stored passes verification with the same three details,
      unless the gateway reports it unsettled. */
  lemma StoredGatewayPaymentVerifies(body: map<string, Value>, key: Option<string>,
                                     hmac: (string, string) -> string, lookup: PaymentCreation.PriceLookup,
                                     now: int, payment: PaymentFetch)
    requires PaymentCreation.CreatePaymentSpec(body, key, hmac, lookup, now).Persist?
    requires Field(body, "payment_method") == Str("razorpay")
    requires Field(body, "payment_details").Obj?
    requires payment.PaymentFetchFailed? || Settled(payment.status)
    ensures VerifySpec(Field(body, "payment_details").fields, key, hmac, payment) ==
      Verified(Get(Field(body, "payment_details"), "razorpay_payment_id"),
               Get(Field(body, "payment_details"), "razorpay_order_id"))
  {
    var d := Field(body, "payment_details");
    PaymentCreation.PersistedOnlyWhenValid(body, key, hmac, lookup, now);
    assert forall n :: n in VerifyFields ==> n in PaymentCreation.RazorpayFields;
    MissingFieldsEmpty(d.fields, VerifyFields);
  }
}
