/** `createRazorpayOrder`: route apartment bookings away, require the four
    order fields, and build the options handed to the gateway's order API: the
    amount in minor units (paise), the currency, a receipt string and notes.
    The current time and the gateway's answer are parameters. */
module OrderCreation {
  import opened Strings
  import opened JsValue

  const RequiredOrderFields: seq<string> := ["amount", "currency", "user_id", "property_id"]
  const MissingOrderFieldsMessage := "Amount, currency, user_id, and property_id are required"
  const OrderServerError := "Server error while creating Razorpay order"

  /** The options passed to `razorpay.orders.create`; an amount that is not a
      number (NaN) is None. */
  datatype OrderOptions = OrderOptions(amount: Option<int>, currency: Value, receipt: string,
                                       notes: map<string, string>)

  /** DelegateOrder: the apartment order handler takes over. OrderRejected: an
      HTTP status and message. CallGateway: the options to send. */
  datatype OrderOutcome =
    | DelegateOrder
    | OrderRejected(status: int, message: string)
    | CallGateway(options: OrderOptions)

  /** What `razorpay.orders.create` returned, or that it threw. */
  datatype GatewayReply = GatewayOrder(id: Value, amount: Value, currency: Value) | GatewayThrew

  /** The response sent once the gateway has answered. */
  datatype OrderResponse = OrderResponse(status: int, success: bool, orderId: Value, amount: Value,
                                         currency: Value, message: string)

  /** JavaScript's conversion to a number, on the values modelled here: a
      string of decimal digits reads as that number, the empty string as 0 and
      any other string as NaN (None). */
  function ToNumber(v: Value): (r: Option<int>)
    ensures v.Num? ==> r == Some(v.n)
    ensures v.Undefined? || v.Obj? ==> r.None?
  {
    match v
    case Undefined => None
    case Null => Some(0)
    case Bool(b) => Some(if b then 1 else 0)
    case Num(n) => Some(n)
    case Str(s) => if s == "" then Some(0) else if AllDigits(s) then Some(DigitsToNat(s)) else None
    case Obj(_) => None
  }

  /** `Math.round(amount * 100)` for integral amounts: the amount in paise. */
  function MinorUnits(amount: Value): (r: Option<int>)
    ensures r.Some? <==> ToNumber(amount).Some?
    ensures r.Some? ==> r.value == 100 * ToNumber(amount).value
  {
    match ToNumber(amount)
    case None => None
    case Some(n) => Some(n * 100)
  }

  predicate IsApartmentOrder(body: map<string, Value>)
    ensures IsApartmentOrder(body) ==> "is_apartment" in body && "unit_id" in body
  {
    Truthy(Field(body, "is_apartment")) && Truthy(Field(body, "unit_id"))
  }

  function PaymentType(isDeposit: Value): (t: string)
    ensures t in {"deposit", "full"}
    ensures t == "deposit" <==> Truthy(isDeposit)
  {
    if Truthy(isDeposit) then "deposit" else "full"
  }

  /** `prop_${paymentType}_${user_id}_${property_id}_${Date.now()}` */
  function Receipt(paymentType: string, userId: Value, propertyId: Value, now: nat): (r: string)
    ensures |r| > 5 + |paymentType| && r[..5] == "prop_" && r[5..5 + |paymentType|] == paymentType
    ensures |NatToStr(now)| < |r| && r[|r| - |NatToStr(now)|..] == NatToStr(now)
  {
    "prop_" + paymentType + "_" + ToStr(userId) + "_" + ToStr(propertyId) + "_" + NatToStr(now)
  }

  /** `toString()` on a truthy value renders it as a template literal would. */
  function OrderNotes(paymentType: string, userId: Value, propertyId: Value): (notes: map<string, string>)
    ensures notes.Keys == {"user_id", "property_id", "payment_type"}
    ensures notes["user_id"] == ToStr(userId) && notes["property_id"] == ToStr(propertyId)
    ensures notes["payment_type"] == paymentType
  {
    map["user_id" := ToStr(userId), "property_id" := ToStr(propertyId), "payment_type" := paymentType]
  }

  /** What the handler does with a request, before the gateway is called. */
  function OrderSpec(body: map<string, Value>, now: nat): (out: OrderOutcome)
    ensures out == DelegateOrder <==> IsApartmentOrder(body)
    ensures out.OrderRejected? ==> out == OrderRejected(400, MissingOrderFieldsMessage)
    ensures out.CallGateway? ==> out.options.currency == Field(body, "currency") && Truthy(out.options.currency)
    ensures out.CallGateway? ==> "payment_type" in out.options.notes && out.options.notes["payment_type"] in {"deposit", "full"}
  {
    var amount := Field(body, "amount");
    var currency := Field(body, "currency");
    var userId := Field(body, "user_id");
    var propertyId := Field(body, "property_id");
    if IsApartmentOrder(body) then DelegateOrder
    else if !Truthy(amount) || !Truthy(currency) || !Truthy(userId) || !Truthy(propertyId) then
      OrderRejected(400, MissingOrderFieldsMessage)
    else
      var paymentType := PaymentType(Field(body, "is_deposit"));
      CallGateway(OrderOptions(
        amount := MinorUnits(amount),
        currency := Or(currency, Str("INR")),
        receipt := Receipt(paymentType, userId, propertyId, now),
        notes := OrderNotes(paymentType, userId, propertyId)))
  }

  /** The response once the gateway has answered: the new order's id, amount
      and currency on success, a 500 when the gateway threw. */
  function OrderReply(reply: GatewayReply): (r: OrderResponse)
    ensures r.success <==> r.status == 200
    ensures r.success <==> reply.GatewayOrder?
    ensures reply.GatewayOrder? ==> r.orderId == reply.id && r.amount == reply.amount && r.currency == reply.currency
    ensures reply.GatewayThrew? ==> r.status == 500 && r.message == OrderServerError
  {
    match reply
    case GatewayOrder(id, amount, currency) => OrderResponse(200, true, id, amount, currency, "")
    case GatewayThrew => OrderResponse(500, false, Undefined, Undefined, Undefined, OrderServerError)
  }

  // ---------------------------------------------------------------------------
  // What the controller promises about order requests.

  /** Delegated exactly when `is_apartment` and `unit_id` are both truthy;
      otherwise rejected exactly when one of the four order fields is falsy. */
  lemma OrderRouting(body: map<string, Value>, now: nat)
    ensures OrderSpec(body, now) == DelegateOrder <==> IsApartmentOrder(body)
    ensures OrderSpec(body, now).OrderRejected? <==>
      !IsApartmentOrder(body) && exists n :: n in RequiredOrderFields && !Truthy(Field(body, n))
    ensures OrderSpec(body, now).OrderRejected? ==>
      OrderSpec(body, now) == OrderRejected(400, MissingOrderFieldsMessage)
  {
    if exists n :: n in RequiredOrderFields && !Truthy(Field(body, n)) {
      var n :| n in RequiredOrderFields && !Truthy(Field(body, n));
      var i :| 0 <= i < |RequiredOrderFields| && RequiredOrderFields[i] == n;
    }
    assert RequiredOrderFields[0] == "amount" && RequiredOrderFields[1] == "currency";
    assert RequiredOrderFields[2] == "user_id" && RequiredOrderFields[3] == "property_id";
  }

  /** The options sent to the gateway: the type follows `is_deposit`, the
      currency is the given one (the "INR" default cannot be reached once the
      currency was required), the amount is in paise, and the notes carry the
      same ids and type as the receipt. */
  lemma OrderOptionsShape(body: map<string, Value>, now: nat)
    requires OrderSpec(body, now).CallGateway?
    ensures var o := OrderSpec(body, now).options;
      var t := if Truthy(Field(body, "is_deposit")) then "deposit" else "full";
      && o.currency == Field(body, "currency")
      && o.amount == MinorUnits(Field(body, "amount"))
      && (Field(body, "amount").Num? ==> o.amount == Some(100 * Field(body, "amount").n))
      && o.receipt == "prop_" + t + "_" + ToStr(Field(body, "user_id")) + "_"
                      + ToStr(Field(body, "property_id")) + "_" + NatToStr(now)
      && o.notes.Keys == {"user_id", "property_id", "payment_type"}
      && o.notes["user_id"] == ToStr(Field(body, "user_id"))
      && o.notes["property_id"] == ToStr(Field(body, "property_id"))
      && o.notes["payment_type"] == t
  {
  }

  /** An amount sent as a string of digits is converted like a number. */
  lemma DigitStringAmount(n: nat)
    ensures MinorUnits(Str(NatToStr(n))) == Some(100 * n)
    ensures MinorUnits(Str(NatToStr(n))) == MinorUnits(Num(n))
  {
    DigitsRoundTrip(n);
  }

  /** The receipt is the '_'-join of its five parts. */
  lemma ReceiptIsJoin(paymentType: string, userId: Value, propertyId: Value, now: nat)
    ensures Receipt(paymentType, userId, propertyId, now) ==
            Join(["prop", paymentType, ToStr(userId), ToStr(propertyId), NatToStr(now)], '_')
  {
    Join5("prop", paymentType, ToStr(userId), ToStr(propertyId), NatToStr(now), '_');
    assert "prop_" == "prop" + ['_'];
  }

  /** For numeric ids a receipt names its order: the payment type, both ids
      and the timestamp can be read back from it. */
  lemma ReceiptDeterminesOrder(t1: string, u1: int, p1: int, now1: nat,
                               t2: string, u2: int, p2: int, now2: nat)
    requires t1 in {"deposit", "full"} && t2 in {"deposit", "full"}
    requires Receipt(t1, Num(u1), Num(p1), now1) == Receipt(t2, Num(u2), Num(p2), now2)
    ensures t1 == t2 && u1 == u2 && p1 == p2 && now1 == now2
  {
    var xs := ["prop", t1, ToStr(Num(u1)), ToStr(Num(p1)), NatToStr(now1)];
    var ys := ["prop", t2, ToStr(Num(u2)), ToStr(Num(p2)), NatToStr(now2)];
    ReceiptIsJoin(t1, Num(u1), Num(p1), now1);
    ReceiptIsJoin(t2, Num(u2), Num(p2), now2);
    NumberHasNoSeparator(u1, '_');
    NumberHasNoSeparator(p1, '_');
    NumberHasNoSeparator(u2, '_');
    NumberHasNoSeparator(p2, '_');
    assert '_' !in NatToStr(now1) && '_' !in NatToStr(now2);
    assert '_' !in t1 && '_' !in t2;
    JoinInjective(xs, ys, '_');
    assert xs[2] == ys[2] && xs[3] == ys[3] && xs[4] == ys[4];
    IntToStrInjective(u1, u2);
    IntToStrInjective(p1, p2);
    NatToStrInjective(now1, now2);
  }
}
