/** `createPayment`: route apartment bookings away, collect every missing
    top-level field, check the payment method and its details, verify the
    gateway signature for gateway payments, and build the record that is handed
    to the payment store. The property-price query, the store and the
    delegation target are outside; their results are parameters. */
module PaymentCreation {
  import opened JsValue
  import opened Validation
  import opened Signature

  const TopLevelFields: seq<string> :=
    ["user_id", "property_id", "amount_paid", "payment_method", "payment_details", "status"]
  const CardFields: seq<string> := ["card_holder", "card_number", "expiry_date", "cvv"]
  const RazorpayFields: seq<string> := ["razorpay_payment_id", "razorpay_order_id", "razorpay_signature"]
  /** Every key of a stored details record, whatever the method. */
  const DetailKeys: seq<string> := CardFields + ["upi_id"] + RazorpayFields
  const ValidMethods: seq<Value> := [Str("credit_card"), Str("card"), Str("upi"), Str("razorpay")]
  const InvalidMethodMessage := "Invalid payment method. Accepted methods: credit card, UPI, Razorpay"

  /** The result of `SELECT price FROM properties WHERE id = ?`: the price column
      of each row (NULL as None), or a failed query. */
  datatype PriceLookup = PriceRows(prices: seq<Option<int>>) | PriceQueryFailed

  /** What the store is asked to insert. */
  datatype PaymentRecord = PaymentRecord(
    userId: Value,
    propertyId: Value,
    totalPrice: Value,
    amountPaid: Value,
    paymentMethod: Value,
    paymentDetails: map<string, Value>,
    status: Value,
    paymentDate: int,
    invoiceNumber: Value,
    isDeposit: bool)

  /** Delegate: the apartment booking handler takes over the request.
      Reject: an HTTP status, a message and the collected errors (none when
      the response carries no `errors` list). Persist: the record to insert. */
  datatype CreateOutcome =
    | Delegate
    | Reject(status: int, message: string, errors: seq<string>)
    | Persist(record: PaymentRecord)

  /** What the store's insert reported, or that it threw. */
  datatype StoreResult = Stored(success: bool) | StoreThrew

  predicate IsApartmentBooking(body: map<string, Value>)
    ensures IsApartmentBooking(body) ==> "is_apartment" in body && "unit_id" in body
  {
    Truthy(Field(body, "is_apartment")) && Truthy(Field(body, "unit_id"))
  }

  /** "card" is an alias of "credit_card". */
  function StandardizedMethod(m: Value): (r: Value)
    ensures r != Str("card")
    ensures m == Str("card") ==> r == Str("credit_card")
    ensures m != Str("card") ==> r == m
  {
    if m == Str("card") then Str("credit_card") else m
  }

  /** The details record stored for every method: all eight keys, falsy ones null. */
  function SanitizedDetails(details: Value): (r: map<string, Value>)
    ensures r.Keys == set k | k in DetailKeys
    ensures forall k :: k in r ==> r[k] == Null || Truthy(r[k])
  {
    map k | k in DetailKeys :: Or(Get(details, k), Null)
  }

  /** The price the query found: the first row's, when there is a row and its
      price is truthy. */
  function FoundPrice(lookup: PriceLookup): (r: Option<int>)
    ensures r.Some? ==> r.value != 0 && lookup.PriceRows? && |lookup.prices| > 0 && lookup.prices[0] == Some(r.value)
    ensures r.None? <==>
      lookup.PriceQueryFailed? || |lookup.prices| == 0 || lookup.prices[0] == None || lookup.prices[0] == Some(0)
  {
    match lookup
    case PriceRows(prices) =>
      if |prices| > 0 && prices[0].Some? && prices[0].value != 0 then Some(prices[0].value) else None
    case PriceQueryFailed => None
  }

  /** `total_price` as stored: the given value when truthy; for a deposit without
      one, the property's price when the query found one; null otherwise. */
  function StoredTotalPrice(totalPrice: Value, isDeposit: Value, lookup: PriceLookup): (r: Value)
    ensures r == Null || Truthy(r)
    ensures Truthy(totalPrice) ==> r == totalPrice
    ensures !Truthy(totalPrice) && r != Null ==>
      Truthy(isDeposit) && lookup.PriceRows? && |lookup.prices| > 0 && r.Num? && lookup.prices[0] == Some(r.n)
  {
    if Truthy(totalPrice) then totalPrice
    else if Truthy(isDeposit) && FoundPrice(lookup).Some? then Num(FoundPrice(lookup).value)
    else Null
  }

  /** `new paymentModel({...})`: the request's own fields as given, the method
      canonical, the details record complete, and `total_price` and
      `invoice_number` never stored falsy except as null. */
  function NewPayment(body: map<string, Value>, lookup: PriceLookup, now: int): (rec: PaymentRecord)
    ensures rec.userId == Field(body, "user_id") && rec.propertyId == Field(body, "property_id")
    ensures rec.amountPaid == Field(body, "amount_paid") && rec.status == Field(body, "status")
    ensures rec.paymentMethod != Str("card")
    ensures rec.paymentDetails.Keys == set k | k in DetailKeys
    ensures rec.totalPrice == Null || Truthy(rec.totalPrice)
    ensures rec.invoiceNumber == Null || Truthy(rec.invoiceNumber)
    ensures rec.isDeposit <==> Truthy(Field(body, "is_deposit"))
    ensures rec.paymentDate == now
  {
    PaymentRecord(
      userId := Field(body, "user_id"),
      propertyId := Field(body, "property_id"),
      totalPrice := StoredTotalPrice(Field(body, "total_price"), Field(body, "is_deposit"), lookup),
      amountPaid := Field(body, "amount_paid"),
      paymentMethod := StandardizedMethod(Field(body, "payment_method")),
      paymentDetails := SanitizedDetails(Field(body, "payment_details")),
      status := Field(body, "status"),
      paymentDate := now,
      invoiceNumber := Or(Field(body, "invoice_number"), Null),
      isDeposit := Truthy(Field(body, "is_deposit")))
  }

  /** The outcome of a create-payment request, stated rule by rule. */
  function CreatePaymentSpec(body: map<string, Value>, key: Option<string>,
                             hmac: (string, string) -> string, lookup: PriceLookup, now: int): (out: CreateOutcome)
    ensures out == Delegate <==> IsApartmentBooking(body)
    ensures out.Reject? ==> out.status == 400
    ensures out.Reject? && out.errors != [] ==>
      out.message in {"Validation failed", "Card details validation failed", "Razorpay details validation failed"}
    ensures out.Persist? ==> out.record == NewPayment(body, lookup, now)
  {
    var errs := MissingFields(body, TopLevelFields);
    var pm := Field(body, "payment_method");
    var details := Field(body, "payment_details");
    if IsApartmentBooking(body) then Delegate
    else if errs != [] then Reject(400, "Validation failed", errs)
    else if pm !in ValidMethods then Reject(400, InvalidMethodMessage, [])
    else if pm == Str("credit_card") || pm == Str("card") then
      var cardErrs := MissingFields(Spread(details), CardFields);
      if cardErrs != [] then Reject(400, "Card details validation failed", cardErrs)
      else Persist(NewPayment(body, lookup, now))
    else if pm == Str("upi") then
      if !Truthy(Get(details, "upi_id")) then Reject(400, "UPI ID is required for UPI payments", [])
      else Persist(NewPayment(body, lookup, now))
    else
      var gatewayErrs := MissingFields(Spread(details), RazorpayFields);
      if gatewayErrs != [] then Reject(400, "Razorpay details validation failed", gatewayErrs)
      else
        match CheckSignature(hmac, key, Get(details, "razorpay_order_id"),
                             Get(details, "razorpay_payment_id"), Get(details, "razorpay_signature"))
        case SignError => Reject(400, "Error verifying signature", [])
        case Mismatch => Reject(400, "Invalid Razorpay signature", [])
        case Valid => Persist(NewPayment(body, lookup, now))
  }

  /** The handler, step by step as the controller runs it. */
  method CreatePayment(body: map<string, Value>, key: Option<string>,
                       hmac: (string, string) -> string, lookup: PriceLookup, now: int)
    returns (out: CreateOutcome)
    ensures out == CreatePaymentSpec(body, key, hmac, lookup, now)
  {
    var validationErrors := CollectTopLevelErrors(body);

    if Truthy(Field(body, "is_apartment")) && Truthy(Field(body, "unit_id")) {
      return Delegate;
    }
    if |validationErrors| > 0 {
      return Reject(400, "Validation failed", validationErrors);
    }

    var paymentMethod := Field(body, "payment_method");
    var paymentDetails := Field(body, "payment_details");
    if paymentMethod !in ValidMethods {
      return Reject(400, InvalidMethodMessage, []);
    }

    if paymentMethod == Str("credit_card") || paymentMethod == Str("card") {
      var cardValidationErrors := CollectCardErrors(paymentDetails);
      if |cardValidationErrors| > 0 {
        return Reject(400, "Card details validation failed", cardValidationErrors);
      }
    } else if paymentMethod == Str("upi") {
      if !Truthy(Get(paymentDetails, "upi_id")) {
        return Reject(400, "UPI ID is required for UPI payments", []);
      }
    } else if paymentMethod == Str("razorpay") {
      var razorpayValidationErrors := CollectGatewayErrors(paymentDetails);
      if |razorpayValidationErrors| > 0 {
        return Reject(400, "Razorpay details validation failed", razorpayValidationErrors);
      }
      match key {
        case None =>
          return Reject(400, "Error verifying signature", []);
        case Some(secret) =>
          var generatedSignature := hmac(secret, ToStr(Get(paymentDetails, "razorpay_order_id")) + "|"
                                                 + ToStr(Get(paymentDetails, "razorpay_payment_id")));
          if Str(generatedSignature) != Get(paymentDetails, "razorpay_signature") {
            return Reject(400, "Invalid Razorpay signature", []);
          }
      }
    }

    var standardizedMethod := StandardizedMethod(paymentMethod);
    var sanitizedPaymentDetails := SanitizedDetails(paymentDetails);

    var finalTotalPrice := FinalTotalPrice(Field(body, "total_price"), Field(body, "is_deposit"), lookup);

    out := Persist(PaymentRecord(
      userId := Field(body, "user_id"),
      propertyId := Field(body, "property_id"),
      totalPrice := finalTotalPrice,
      amountPaid := Field(body, "amount_paid"),
      paymentMethod := standardizedMethod,
      paymentDetails := sanitizedPaymentDetails,
      status := Field(body, "status"),
      paymentDate := now,
      invoiceNumber := Or(Field(body, "invoice_number"), Null),
      isDeposit := Truthy(Field(body, "is_deposit"))));
  }

  /** `validationErrors`: one message per falsy top-level field, pushed in order. */
  method CollectTopLevelErrors(body: map<string, Value>) returns (validationErrors: seq<string>)
    ensures validationErrors == MissingFields(body, TopLevelFields)
  {
    validationErrors := [];
    validationErrors := PushIfMissing(validationErrors, Field(body, "user_id"), "user_id");
    MissingFieldsPush(body, TopLevelFields, 0);
    validationErrors := PushIfMissing(validationErrors, Field(body, "property_id"), "property_id");
    MissingFieldsPush(body, TopLevelFields, 1);
    validationErrors := PushIfMissing(validationErrors, Field(body, "amount_paid"), "amount_paid");
    MissingFieldsPush(body, TopLevelFields, 2);
    validationErrors := PushIfMissing(validationErrors, Field(body, "payment_method"), "payment_method");
    MissingFieldsPush(body, TopLevelFields, 3);
    validationErrors := PushIfMissing(validationErrors, Field(body, "payment_details"), "payment_details");
    MissingFieldsPush(body, TopLevelFields, 4);
    validationErrors := PushIfMissing(validationErrors, Field(body, "status"), "status");
    MissingFieldsPush(body, TopLevelFields, 5);
    assert TopLevelFields[..0] == [] && TopLevelFields[..6] == TopLevelFields;
  }

  /** `cardValidationErrors`: one message per falsy card field, pushed in order. */
  method CollectCardErrors(paymentDetails: Value) returns (cardValidationErrors: seq<string>)
    ensures cardValidationErrors == MissingFields(Spread(paymentDetails), CardFields)
  {
    cardValidationErrors := [];
    cardValidationErrors := PushIfMissing(cardValidationErrors, Get(paymentDetails, "card_holder"), "card_holder");
    MissingFieldsPush(Spread(paymentDetails), CardFields, 0);
    cardValidationErrors := PushIfMissing(cardValidationErrors, Get(paymentDetails, "card_number"), "card_number");
    MissingFieldsPush(Spread(paymentDetails), CardFields, 1);
    cardValidationErrors := PushIfMissing(cardValidationErrors, Get(paymentDetails, "expiry_date"), "expiry_date");
    MissingFieldsPush(Spread(paymentDetails), CardFields, 2);
    cardValidationErrors := PushIfMissing(cardValidationErrors, Get(paymentDetails, "cvv"), "cvv");
    MissingFieldsPush(Spread(paymentDetails), CardFields, 3);
    assert CardFields[..0] == [] && CardFields[..4] == CardFields;
  }

  /** `razorpayValidationErrors`: one message per falsy gateway field, pushed in order. */
  method CollectGatewayErrors(paymentDetails: Value) returns (razorpayValidationErrors: seq<string>)
    ensures razorpayValidationErrors == MissingFields(Spread(paymentDetails), RazorpayFields)
  {
    razorpayValidationErrors := [];
    razorpayValidationErrors := PushIfMissing(razorpayValidationErrors, Get(paymentDetails, "razorpay_payment_id"), "razorpay_payment_id");
    MissingFieldsPush(Spread(paymentDetails), RazorpayFields, 0);
    razorpayValidationErrors := PushIfMissing(razorpayValidationErrors, Get(paymentDetails, "razorpay_order_id"), "razorpay_order_id");
    MissingFieldsPush(Spread(paymentDetails), RazorpayFields, 1);
    razorpayValidationErrors := PushIfMissing(razorpayValidationErrors, Get(paymentDetails, "razorpay_signature"), "razorpay_signature");
    MissingFieldsPush(Spread(paymentDetails), RazorpayFields, 2);
    assert RazorpayFields[..0] == [] && RazorpayFields[..3] == RazorpayFields;
  }

  /** `finalTotalPrice`: the given total, replaced by the property's price for a
      deposit without one, then stored as `finalTotalPrice || null`. A failed
      query is logged and leaves the total as it was. */
  method FinalTotalPrice(totalPrice: Value, isDeposit: Value, lookup: PriceLookup) returns (stored: Value)
    ensures stored == StoredTotalPrice(totalPrice, isDeposit, lookup)
  {
    var finalTotalPrice := totalPrice;
    if Truthy(isDeposit) && !Truthy(finalTotalPrice) {
      match lookup {
        case PriceRows(prices) =>
          if |prices| > 0 && prices[0].Some? && prices[0].value != 0 {
            finalTotalPrice := Num(prices[0].value);
          }
        case PriceQueryFailed =>
      }
    }
    stored := Or(finalTotalPrice, Null);
  }

  /** The HTTP status of a request that was not delegated: a rejection's own
      status, or the store's verdict (200 on success, 400 on failure, 500 when
      it threw). */
  function ResponseStatus(out: CreateOutcome, store: StoreResult): (status: int)
    requires !out.Delegate?
    ensures out.Reject? ==> status == out.status
    ensures out.Persist? ==> (status == 200 <==> store == Stored(true))
    ensures out.Persist? ==> (status == 500 <==> store.StoreThrew?)
    ensures out.Persist? ==> (status == 400 <==> store == Stored(false))
  {
    match out
    case Reject(s, _, _) => s
    case Persist(_) =>
      match store
      case Stored(success) => if success then 200 else 400
      case StoreThrew => 500
  }

  // ---------------------------------------------------------------------------
  // What the controller promises about create-payment requests.

  /** A request is delegated exactly when `is_apartment` and `unit_id` are both
      truthy, whatever fields are missing. */
  lemma DelegatesExactlyApartmentBookings(body: map<string, Value>, key: Option<string>,
                                          hmac: (string, string) -> string, lookup: PriceLookup, now: int)
    ensures CreatePaymentSpec(body, key, hmac, lookup, now) == Delegate <==> IsApartmentBooking(body)
  {
  }

  /** Missing top-level fields are all reported together, one message per falsy
      field and in the order user_id, property_id, amount_paid, payment_method,
      payment_details, status; nothing else is checked. */
  lemma MissingTopLevelFieldsReported(body: map<string, Value>, key: Option<string>,
                                      hmac: (string, string) -> string, lookup: PriceLookup, now: int)
    requires !IsApartmentBooking(body)
    requires exists n :: n in TopLevelFields && !Truthy(Field(body, n))
    ensures var out := CreatePaymentSpec(body, key, hmac, lookup, now);
      && out.Reject? && out.status == 400 && out.message == "Validation failed"
      && (forall n :: n in TopLevelFields ==> (Required(n) in out.errors <==> !Truthy(Field(body, n))))
      && (forall m :: m in out.errors ==> exists n :: n in TopLevelFields && m == Required(n))
      && IsSubsequence(out.errors, AllRequired(TopLevelFields))
  {
    var errs := MissingFields(body, TopLevelFields);
    MissingFieldsEmpty(body, TopLevelFields);
    MissingFieldsOnlyNames(body, TopLevelFields);
    MissingFieldsOrdered(body, TopLevelFields);
    forall n | n in TopLevelFields
      ensures Required(n) in errs <==> !Truthy(Field(body, n))
    {
      MissingFieldsMember(body, TopLevelFields, n);
    }
  }

  /** With every top-level field falsy, the six messages come out in full, in order. */
  lemma EmptyRequestReportsAllSix(body: map<string, Value>, key: Option<string>,
                                  hmac: (string, string) -> string, lookup: PriceLookup, now: int)
    requires !IsApartmentBooking(body)
    requires forall n :: n in TopLevelFields ==> !Truthy(Field(body, n))
    ensures CreatePaymentSpec(body, key, hmac, lookup, now) == Reject(400, "Validation failed",
      ["user_id is required", "property_id is required", "amount_paid is required",
       "payment_method is required", "payment_details is required", "status is required"])
  {
    MissingFieldsAll(body, TopLevelFields);
    TopLevelMessages();
  }

  /** The six top-level messages, spelled out. */
  lemma TopLevelMessages()
    ensures AllRequired(TopLevelFields) ==
      ["user_id is required", "property_id is required", "amount_paid is required",
       "payment_method is required", "payment_details is required", "status is required"]
  {
    var all := AllRequired(TopLevelFields);
    assert |all| == 6;
    assert all[0] == Required(TopLevelFields[0]) == "user_id is required";
    assert all[1] == Required(TopLevelFields[1]) == "property_id is required";
    assert all[2] == Required(TopLevelFields[2]) == "amount_paid is required";
    assert all[3] == Required(TopLevelFields[3]) == "payment_method is required";
    assert all[4] == Required(TopLevelFields[4]) == "payment_details is required";
    assert all[5] == Required(TopLevelFields[5]) == "status is required";
  }

  /** A method outside the whitelist gets one 400 and no detail errors. */
  lemma UnknownMethodRejected(body: map<string, Value>, key: Option<string>,
                              hmac: (string, string) -> string, lookup: PriceLookup, now: int)
    requires !IsApartmentBooking(body)
    requires forall n :: n in TopLevelFields ==> Truthy(Field(body, n))
    requires Field(body, "payment_method") !in ValidMethods
    ensures CreatePaymentSpec(body, key, hmac, lookup, now) == Reject(400, InvalidMethodMessage, [])
  {
    MissingFieldsEmpty(body, TopLevelFields);
  }

  /** card and credit_card: every falsy card field is reported, in order; with
      none missing the payment is stored. */
  lemma CardDetailsChecked(body: map<string, Value>, key: Option<string>,
                           hmac: (string, string) -> string, lookup: PriceLookup, now: int)
    requires !IsApartmentBooking(body)
    requires forall n :: n in TopLevelFields ==> Truthy(Field(body, n))
    requires Field(body, "payment_method") == Str("credit_card") || Field(body, "payment_method") == Str("card")
    ensures var out := CreatePaymentSpec(body, key, hmac, lookup, now);
      var details := Field(body, "payment_details");
      && (out.Persist? <==> forall n :: n in CardFields ==> Truthy(Get(details, n)))
      && (!out.Persist? ==> out.Reject? && out.status == 400 && out.message == "Card details validation failed")
      && (!out.Persist? ==> forall n :: n in CardFields ==> (Required(n) in out.errors <==> !Truthy(Get(details, n))))
      && (!out.Persist? ==> IsSubsequence(out.errors, AllRequired(CardFields)))
  {
    var details := Field(body, "payment_details");
    var cardErrs := MissingFields(Spread(details), CardFields);
    CardOutcome(body, key, hmac, lookup, now);
    MissingFieldsEmpty(Spread(details), CardFields);
    MissingFieldsOrdered(Spread(details), CardFields);
    forall n | n in CardFields
      ensures Required(n) in cardErrs <==> !Truthy(Get(details, n))
    {
      MissingFieldsMember(Spread(details), CardFields, n);
    }
  }

  /** With the top-level fields present, a card payment's fate is decided by
      its card fields alone. */
  lemma CardOutcome(body: map<string, Value>, key: Option<string>,
                    hmac: (string, string) -> string, lookup: PriceLookup, now: int)
    requires !IsApartmentBooking(body)
    requires forall n :: n in TopLevelFields ==> Truthy(Field(body, n))
    requires Field(body, "payment_method") == Str("credit_card") || Field(body, "payment_method") == Str("card")
    ensures var cardErrs := MissingFields(Spread(Field(body, "payment_details")), CardFields);
      CreatePaymentSpec(body, key, hmac, lookup, now) ==
        if cardErrs != [] then Reject(400, "Card details validation failed", cardErrs)
        else Persist(NewPayment(body, lookup, now))
  {
    MissingFieldsEmpty(body, TopLevelFields);
  }

  /** upi: a single error when `upi_id` is falsy, otherwise the payment is stored. */
  lemma UpiDetailsChecked(body: map<string, Value>, key: Option<string>,
                          hmac: (string, string) -> string, lookup: PriceLookup, now: int)
    requires !IsApartmentBooking(body)
    requires forall n :: n in TopLevelFields ==> Truthy(Field(body, n))
    requires Field(body, "payment_method") == Str("upi")
    ensures var out := CreatePaymentSpec(body, key, hmac, lookup, now);
      && (out.Persist? <==> Truthy(Get(Field(body, "payment_details"), "upi_id")))
      && (!out.Persist? ==> out == Reject(400, "UPI ID is required for UPI payments", []))
  {
    MissingFieldsEmpty(body, TopLevelFields);
  }

  /** razorpay: every falsy gateway field is reported, in order, and the
      signature is not looked at until all three are present. */
  lemma GatewayDetailsChecked(body: map<string, Value>, key: Option<string>,
                              hmac: (string, string) -> string, lookup: PriceLookup, now: int)
    requires !IsApartmentBooking(body)
    requires forall n :: n in TopLevelFields ==> Truthy(Field(body, n))
    requires Field(body, "payment_method") == Str("razorpay")
    requires exists n :: n in RazorpayFields && !Truthy(Get(Field(body, "payment_details"), n))
    ensures var out := CreatePaymentSpec(body, key, hmac, lookup, now);
      var details := Field(body, "payment_details");
      && out.Reject? && out.status == 400 && out.message == "Razorpay details validation failed"
      && (forall n :: n in RazorpayFields ==> (Required(n) in out.errors <==> !Truthy(Get(details, n))))
      && IsSubsequence(out.errors, AllRequired(RazorpayFields))
  {
    var details := Field(body, "payment_details");
    MissingFieldsEmpty(body, TopLevelFields);
    MissingFieldsEmpty(Spread(details), RazorpayFields);
    MissingFieldsOrdered(Spread(details), RazorpayFields);
    forall n | n in RazorpayFields
      ensures Required(n) in MissingFields(Spread(details), RazorpayFields) <==> !Truthy(Get(details, n))
    {
      MissingFieldsMember(Spread(details), RazorpayFields, n);
    }
  }

  /** razorpay with all three fields: the payment is stored exactly when the
      signature equals Hmac(secret, order_id + "|" + payment_id) as a string. */
  lemma GatewaySignatureDecides(body: map<string, Value>, key: Option<string>,
                                hmac: (string, string) -> string, lookup: PriceLookup, now: int)
    requires !IsApartmentBooking(body)
    requires forall n :: n in TopLevelFields ==> Truthy(Field(body, n))
    requires Field(body, "payment_method") == Str("razorpay")
    requires forall n :: n in RazorpayFields ==> Truthy(Get(Field(body, "payment_details"), n))
    ensures var out := CreatePaymentSpec(body, key, hmac, lookup, now);
      var d := Field(body, "payment_details");
      var expected := ToStr(Get(d, "razorpay_order_id")) + "|" + ToStr(Get(d, "razorpay_payment_id"));
      && (out.Persist? <==> key.Some? && Get(d, "razorpay_signature") == Str(hmac(key.value, expected)))
      && (key.None? ==> out == Reject(400, "Error verifying signature", []))
      && (key.Some? && !out.Persist? ==> out == Reject(400, "Invalid Razorpay signature", []))
  {
    MissingFieldsEmpty(body, TopLevelFields);
    MissingFieldsEmpty(Spread(Field(body, "payment_details")), RazorpayFields);
  }

  /** Nothing is stored unless every check passed. */
  lemma PersistedOnlyWhenValid(body: map<string, Value>, key: Option<string>,
                               hmac: (string, string) -> string, lookup: PriceLookup, now: int)
    requires CreatePaymentSpec(body, key, hmac, lookup, now).Persist?
    ensures !IsApartmentBooking(body)
    ensures forall n :: n in TopLevelFields ==> Truthy(Field(body, n))
    ensures Field(body, "payment_method") in ValidMethods
    ensures var d := Field(body, "payment_details");
      match Field(body, "payment_method")
      case Str("upi") => Truthy(Get(d, "upi_id"))
      case Str("razorpay") =>
        (forall n :: n in RazorpayFields ==> Truthy(Get(d, n)))
        && CheckSignature(hmac, key, Get(d, "razorpay_order_id"), Get(d, "razorpay_payment_id"),
                          Get(d, "razorpay_signature")) == Valid
      case _ => forall n :: n in CardFields ==> Truthy(Get(d, n))
  {
    var d := Field(body, "payment_details");
    MissingFieldsEmpty(body, TopLevelFields);
    MissingFieldsEmpty(Spread(d), CardFields);
    MissingFieldsEmpty(Spread(d), RazorpayFields);
  }

  /** The stored record: the canonical method name, the eight-key details
      record, the back-filled total, a boolean deposit flag, and a null invoice
      number when none was given. */
  lemma StoredRecordShape(body: map<string, Value>, key: Option<string>,
                          hmac: (string, string) -> string, lookup: PriceLookup, now: int)
    requires CreatePaymentSpec(body, key, hmac, lookup, now).Persist?
    ensures var rec := CreatePaymentSpec(body, key, hmac, lookup, now).record;
      var pm := Field(body, "payment_method");
      var d := Field(body, "payment_details");
      && rec.paymentMethod in [Str("credit_card"), Str("upi"), Str("razorpay")]
      && (pm == Str("card") ==> rec.paymentMethod == Str("credit_card"))
      && (pm != Str("card") ==> rec.paymentMethod == pm)
      && rec.paymentDetails.Keys == set k | k in DetailKeys
      && (forall k :: k in DetailKeys ==> rec.paymentDetails[k] == (if Truthy(Get(d, k)) then Get(d, k) else Null))
      && rec.totalPrice == StoredTotalPrice(Field(body, "total_price"), Field(body, "is_deposit"), lookup)
      && rec.isDeposit == Truthy(Field(body, "is_deposit"))
      && rec.invoiceNumber == (if Truthy(Field(body, "invoice_number")) then Field(body, "invoice_number") else Null)
      && rec.userId == Field(body, "user_id") && rec.propertyId == Field(body, "property_id")
      && rec.amountPaid == Field(body, "amount_paid") && rec.status == Field(body, "status")
      && rec.paymentDate == now
  {
    PersistedOnlyWhenValid(body, key, hmac, lookup, now);
    assert CreatePaymentSpec(body, key, hmac, lookup, now).record == NewPayment(body, lookup, now);
    SanitizedDetailsShape(Field(body, "payment_details"));
  }

  /** Every key of every method is present; a falsy value is stored as null. */
  lemma SanitizedDetailsShape(details: Value)
    ensures SanitizedDetails(details).Keys == set k | k in DetailKeys
    ensures forall k :: k in DetailKeys ==>
      SanitizedDetails(details)[k] == (if Truthy(Get(details, k)) then Get(details, k) else Null)
    ensures forall k :: k in SanitizedDetails(details) ==> SanitizedDetails(details)[k] != Undefined
  {
  }

  /** Sanitizing a stored details record changes nothing. */
  lemma SanitizedDetailsIdempotent(details: Value)
    ensures SanitizedDetails(Obj(SanitizedDetails(details))) == SanitizedDetails(details)
  {
    SanitizedDetailsShape(details);
  }

  /** Normalising the method twice is normalising it once, and "card" never survives. */
  lemma StandardizedMethodIdempotent(m: Value)
    ensures StandardizedMethod(StandardizedMethod(m)) == StandardizedMethod(m)
    ensures StandardizedMethod(m) != Str("card")
  {
  }

  /** The stored total: the given one when truthy; for a deposit without one the
      looked-up price when the query found a truthy price; null in every other
      case: no deposit, a failed query, no row, a NULL price or a price of 0. */
  lemma StoredTotalPriceRules(totalPrice: Value, isDeposit: Value, lookup: PriceLookup)
    ensures var r := StoredTotalPrice(totalPrice, isDeposit, lookup);
      && (r == Null || Truthy(r))
      && (Truthy(totalPrice) ==> r == totalPrice)
      && (!Truthy(totalPrice) && !Truthy(isDeposit) ==> r == Null)
      && (!Truthy(totalPrice) && lookup == PriceQueryFailed ==> r == Null)
      && (!Truthy(totalPrice) && lookup.PriceRows? && (|lookup.prices| == 0 || lookup.prices[0] == None) ==> r == Null)
      && (!Truthy(totalPrice) && lookup.PriceRows? && |lookup.prices| > 0 && lookup.prices[0] == Some(0) ==> r == Null)
      && (!Truthy(totalPrice) && !(Truthy(isDeposit) && FoundPrice(lookup).Some?) ==> r == Null)
      && ((!Truthy(totalPrice) && Truthy(isDeposit) && lookup.PriceRows? && |lookup.prices| > 0
           && lookup.prices[0].Some? && lookup.prices[0].value != 0) ==> r == Num(lookup.prices[0].value))
  {
  }

  /** The price query only matters for a deposit that came without a total. */
  lemma LookupOnlyForDepositsWithoutTotal(body: map<string, Value>, key: Option<string>,
                                          hmac: (string, string) -> string,
                                          lookup1: PriceLookup, lookup2: PriceLookup, now: int)
    requires !Truthy(Field(body, "is_deposit")) || Truthy(Field(body, "total_price"))
    ensures CreatePaymentSpec(body, key, hmac, lookup1, now) == CreatePaymentSpec(body, key, hmac, lookup2, now)
  {
  }
}
