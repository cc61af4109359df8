/** `generateInvoice`: find the payment (first among property payments, then
    among apartment bookings), then add a payment summary to its row. Rows are
    maps from column name to value, so `{...a, ...b}` is the override `a + b`.
    Numeric columns hold integers or NULL. */
module Invoice {
  import opened JsValue

  const SummaryKeys: set<string> :=
    {"full_property_price", "deposit_amount", "total_paid", "pending_amount", "percentage_paid"}
  const UnitKeys: seq<string> := ["unit_number", "floor_number", "bedrooms", "bathrooms", "area"]

  /** Invoice: the 200 response's `invoice` object. InvoiceError: an HTTP
      status and message. */
  datatype InvoiceOutcome = InvoiceOk(invoice: Row) | InvoiceError(status: int, message: string)

  /** `Math.round(paid / price * 100)` for `price > 0`, in exact arithmetic:
      rounding half up is `floor(100 * paid / price + 1/2)`. */
  function PercentagePaid(paid: int, price: int): (r: int)
    requires price > 0
    ensures 2 * price * r - price <= 200 * paid < 2 * price * r + price
  {
    (200 * paid + price) / (2 * price)
  }

  /** `payment.price > 0 ? Math.round(...) : 0`; a NULL `amount_paid` divides as 0. */
  function PercentageOf(row: Row): (r: int)
    ensures !(Field(row, "price").Num? && Field(row, "price").n > 0) ==> r == 0
    ensures Field(row, "price").Num? && 0 <= NumberOr0(Field(row, "amount_paid")) <= Field(row, "price").n ==>
      0 <= r <= 100
  {
    var price := Field(row, "price");
    if price.Num? && price.n > 0 then
      PercentageBounds(NumberOr0(Field(row, "amount_paid")), price.n);
      PercentagePaid(NumberOr0(Field(row, "amount_paid")), price.n)
    else 0
  }

  /** The summary computed in place when the service supplies none. */
  function InlineSummary(row: Row): (r: Row)
    ensures r.Keys == SummaryKeys
    ensures r["pending_amount"] == Num(NumberOr0(Field(row, "price")) - NumberOr0(Field(row, "amount_paid")))
    ensures r["percentage_paid"] == Num(PercentageOf(row))
  {
    map[
      "full_property_price" := Or(Field(row, "price"), Num(0)),
      "deposit_amount" := Or(Field(row, "total_price"), Num(0)),
      "total_paid" := Or(Field(row, "amount_paid"), Num(0)),
      "pending_amount" := Num(NumberOr0(Field(row, "price")) - NumberOr0(Field(row, "amount_paid"))),
      "percentage_paid" := Num(PercentageOf(row))
    ]
  }

  /** The fixed full-payment summary of an apartment booking. */
  function ApartmentSummary(row: Row): (r: Row)
    ensures r.Keys == SummaryKeys + {"unit_details"}
    ensures r["pending_amount"] == Num(0) && r["percentage_paid"] == Num(100)
    ensures r["total_paid"] == r["deposit_amount"]
    ensures r["unit_details"].Obj? && r["unit_details"].fields.Keys == set k | k in UnitKeys
  {
    map[
      "full_property_price" := Or(Or(Field(row, "total_price"), Field(row, "amount_paid")), Num(0)),
      "deposit_amount" := Or(Field(row, "amount_paid"), Num(0)),
      "total_paid" := Or(Field(row, "amount_paid"), Num(0)),
      "pending_amount" := Num(0),
      "percentage_paid" := Num(100),
      "unit_details" := Obj(map[
        "unit_number" := Field(row, "unit_number"),
        "floor_number" := Field(row, "floor_number"),
        "bedrooms" := Field(row, "bedrooms"),
        "bathrooms" := Field(row, "bathrooms"),
        "area" := Field(row, "area")])
    ]
  }

  /** `{...payment, ...(paymentData?.payment_summary || inline)}` for a property
      payment, the apartment summary otherwise. */
  function InvoiceData(payment: Row, paymentData: Value): (inv: Row)
    ensures payment.Keys <= inv.Keys
    ensures Field(payment, "payment_type") != Str("property") ==>
      inv.Keys == payment.Keys + SummaryKeys + {"unit_details"}
  {
    if Field(payment, "payment_type") == Str("property") then
      payment + Spread(Or(Get(paymentData, "payment_summary"), Obj(InlineSummary(payment))))
    else
      payment + ApartmentSummary(payment)
  }

  /** The whole handler: the id check, the two lookups, the service call made
      for property payments only, and the summary. */
  function InvoiceSpec(paymentId: Value, propertyQuery: Attempt<seq<Row>>,
                       apartmentQuery: Attempt<seq<Row>>, paymentData: Attempt<Value>): (out: InvoiceOutcome)
    ensures out.InvoiceError? ==> out.status in {400, 404, 500}
    ensures out.InvoiceOk? ==> Truthy(paymentId) && propertyQuery.Returned?
    ensures out.InvoiceError? && out.status == 404 ==>
      propertyQuery == Returned([]) && apartmentQuery == Returned([])
  {
    if !Truthy(paymentId) then InvoiceError(400, "Payment ID is required")
    else match propertyQuery
      case Threw => InvoiceError(500, "Server error while generating invoice")
      case Returned(propertyRows) =>
        var found :=
          if |propertyRows| > 0 then Returned(propertyRows)
          else apartmentQuery;
        match found
        case Threw => InvoiceError(500, "Server error while generating invoice")
        case Returned(rows) =>
          if |rows| == 0 then InvoiceError(404, "Payment not found")
          else if Field(rows[0], "payment_type") == Str("property") then
            match paymentData
            case Threw => InvoiceError(500, "Server error while generating invoice")
            case Returned(data) => InvoiceOk(InvoiceData(rows[0], data))
          else InvoiceOk(InvoiceData(rows[0], Undefined))
  }

  // ---------------------------------------------------------------------------
  // What the controller promises about invoices.

  /** `{...a, ...b}`: every key of `b` takes `b`'s value, every other key of
      `a` keeps its value, and no other key appears. */
  lemma MergeOverrides(a: Row, b: Row)
    ensures (a + b).Keys == a.Keys + b.Keys
    ensures forall k :: k in b ==> (a + b)[k] == b[k]
    ensures forall k :: k in a && k !in b ==> (a + b)[k] == a[k]
  {
  }

  lemma {:induction false} MulAtLeast(m: int, d: int)
    requires m > 0 && d >= 1
    ensures m * d >= m
    decreases d
  {
    if d > 1 {
      MulAtLeast(m, d - 1);
      assert m * d == m * (d - 1) + m;
    }
  }

  /** A multiple of `m` strictly between `-m` and `m` is zero. */
  lemma OnlyZeroMultiple(m: int, d: int)
    requires m > 0 && -m < m * d < m
    ensures d == 0
  {
    if d >= 1 {
      MulAtLeast(m, d);
    } else if d <= -1 {
      assert m * (-d) == -(m * d);
      MulAtLeast(m, -d);
    }
  }

  /** An exact percentage is reported exactly. */
  lemma PercentageExact(paid: int, price: int, q: int)
    requires price > 0 && 100 * paid == q * price
    ensures PercentagePaid(paid, price) == q
  {
    var r := PercentagePaid(paid, price);
    var m := 2 * price;
    assert m * q == 200 * paid;
    assert m * q - m * r == m * (q - r);
    OnlyZeroMultiple(m, q - r);
  }

  /** Rounding half up lands between 0 and 100 when the amount paid is between
      0 and the price, at the ends exactly. */
  lemma PercentageBounds(paid: int, price: int)
    requires price > 0
    ensures 0 <= paid <= price ==> 0 <= PercentagePaid(paid, price) <= 100
    ensures paid == price ==> PercentagePaid(paid, price) == 100
    ensures paid == 0 ==> PercentagePaid(paid, price) == 0
  {
    var r := PercentagePaid(paid, price);
    var m := 2 * price;
    assert m * r - price <= 200 * paid < m * r + price;
    if 0 <= paid <= price {
      if r < 0 {
        assert m * (-r) == -(m * r);
        MulAtLeast(m, -r);
      }
      if r > 100 {
        assert m * (r - 100) == m * r - 100 * m;
        MulAtLeast(m, r - 100);
      }
    }
    if paid == price {
      PercentageExact(paid, price, 100);
    }
    if paid == 0 {
      PercentageExact(paid, price, 0);
    }
  }

  /** More paid never lowers the percentage. */
  lemma PercentageMonotone(paid1: int, paid2: int, price: int)
    requires price > 0 && paid1 <= paid2
    ensures PercentagePaid(paid1, price) <= PercentagePaid(paid2, price)
  {
    var r1, r2 := PercentagePaid(paid1, price), PercentagePaid(paid2, price);
    var m := 2 * price;
    if r1 > r2 {
      assert m * r2 + price > m * r1 - price;
      assert m * (r1 - r2) == m * r1 - m * r2;
      MulAtLeast(m, r1 - r2);
    }
  }

  /** A property payment whose service result has no summary gets the inline
      one: the full price, the deposit, the amount paid, the pending amount
      price - paid and the rounded percentage (0 without a positive price);
      every other column of the row is kept. */
  lemma PropertyInlineSummary(payment: Row, paymentData: Value)
    requires Field(payment, "payment_type") == Str("property")
    requires !Truthy(Get(paymentData, "payment_summary"))
    ensures var inv := InvoiceData(payment, paymentData);
      var price := Field(payment, "price");
      var paid := Field(payment, "amount_paid");
      && inv.Keys == payment.Keys + SummaryKeys
      && inv["full_property_price"] == (if Truthy(price) then price else Num(0))
      && inv["deposit_amount"] == Or(Field(payment, "total_price"), Num(0))
      && inv["total_paid"] == (if Truthy(paid) then paid else Num(0))
      && inv["pending_amount"] == Num(NumberOr0(price) - NumberOr0(paid))
      && (price.Num? && price.n > 0 ==> inv["percentage_paid"] == Num(PercentagePaid(NumberOr0(paid), price.n)))
      && (!(price.Num? && price.n > 0) ==> inv["percentage_paid"] == Num(0))
      && (forall k :: k in payment && k !in SummaryKeys ==> inv[k] == payment[k])
  {
    MergeOverrides(payment, InlineSummary(payment));
  }

  /** A summary from the service replaces the row's keys it names and leaves
      every other column as it was. */
  lemma ServiceSummaryOverrides(payment: Row, paymentData: Value, summary: Row)
    requires Field(payment, "payment_type") == Str("property")
    requires Get(paymentData, "payment_summary") == Obj(summary)
    ensures var inv := InvoiceData(payment, paymentData);
      && inv == payment + summary
      && (forall k :: k in summary ==> inv[k] == summary[k])
      && (forall k :: k in payment && k !in summary ==> inv[k] == payment[k])
  {
    MergeOverrides(payment, summary);
  }

  /** An apartment booking is always fully paid on its invoice, and carries its
      unit's details. */
  lemma ApartmentAlwaysPaidInFull(payment: Row, paymentData: Value)
    requires Field(payment, "payment_type") != Str("property")
    ensures var inv := InvoiceData(payment, paymentData);
      && inv["pending_amount"] == Num(0)
      && inv["percentage_paid"] == Num(100)
      && inv["unit_details"].Obj?
      && (forall k :: k in UnitKeys ==>
            (k in inv["unit_details"].fields && inv["unit_details"].fields[k] == Field(payment, k)))
      && (forall k :: k in payment && k !in SummaryKeys && k != "unit_details" ==> inv[k] == payment[k])
  {
    MergeOverrides(payment, ApartmentSummary(payment));
    forall k | k in UnitKeys
      ensures k in ApartmentSummary(payment)["unit_details"].fields
      ensures ApartmentSummary(payment)["unit_details"].fields[k] == Field(payment, k)
    {
      var i :| 0 <= i < |UnitKeys| && UnitKeys[i] == k;
    }
  }

  /** A payment of 250 towards a 1000 property: 750 pending, 25 percent paid. */
  lemma QuarterPaidExample(payment: Row)
    requires Field(payment, "payment_type") == Str("property")
    requires Field(payment, "price") == Num(1000) && Field(payment, "amount_paid") == Num(250)
    ensures var inv := InvoiceData(payment, Null);
      inv["pending_amount"] == Num(750) && inv["percentage_paid"] == Num(25)
  {
    PropertyInlineSummary(payment, Null);
    PercentageExact(250, 1000, 25);
  }

  /** A property row without a price (the first lookup reads `price` from the
      payment's own columns only): the full price is 0, the pending amount is
      minus the amount paid, and the percentage is 0. */
  lemma PricelessPropertySummary(payment: Row, paymentData: Value)
    requires Field(payment, "payment_type") == Str("property")
    requires !Truthy(Get(paymentData, "payment_summary"))
    requires Field(payment, "price").Undefined? || Field(payment, "price").Null?
    ensures var inv := InvoiceData(payment, paymentData);
      && inv["full_property_price"] == Num(0)
      && inv["pending_amount"] == Num(-NumberOr0(Field(payment, "amount_paid")))
      && inv["percentage_paid"] == Num(0)
  {
    PropertyInlineSummary(payment, paymentData);
  }

  /** The outcomes of a request: 400 without an id, 404 when neither lookup
      finds the payment, 500 when a lookup or the service throws, and the
      apartment lookup consulted only when the property lookup found nothing. */
  lemma InvoiceOutcomes(paymentId: Value, propertyQuery: Attempt<seq<Row>>,
                        apartmentQuery: Attempt<seq<Row>>, paymentData: Attempt<Value>)
    ensures var out := InvoiceSpec(paymentId, propertyQuery, apartmentQuery, paymentData);
      && (!Truthy(paymentId) <==> out == InvoiceError(400, "Payment ID is required"))
      && ((Truthy(paymentId) && propertyQuery == Returned([]) && apartmentQuery == Returned([])) ==>
            out == InvoiceError(404, "Payment not found"))
      && (Truthy(paymentId) && propertyQuery.Threw? ==> out.InvoiceError? && out.status == 500)
      && ((Truthy(paymentId) && propertyQuery == Returned([]) && apartmentQuery.Threw?) ==>
            out == InvoiceError(500, "Server error while generating invoice"))
      && ((Truthy(paymentId) && propertyQuery.Returned? && |propertyQuery.value| > 0
           && Field(propertyQuery.value[0], "payment_type") == Str("property") && paymentData.Threw?) ==>
            out == InvoiceError(500, "Server error while generating invoice"))
      && (out.InvoiceError? && out.status == 500 ==>
            Truthy(paymentId) && (propertyQuery.Threw? || apartmentQuery.Threw? || paymentData.Threw?))
      && (out.InvoiceOk? ==> propertyQuery.Returned?)
      && (Truthy(paymentId) && propertyQuery.Returned? && |propertyQuery.value| > 0 ==>
            forall q :: InvoiceSpec(paymentId, propertyQuery, q, paymentData) == out)
  {
  }

  /** The invoice of a found payment is its row with the summary added. */
  lemma InvoiceFromFirstRow(paymentId: Value, rows: seq<Row>,
                            apartmentQuery: Attempt<seq<Row>>, data: Value)
    requires Truthy(paymentId) && |rows| > 0
    ensures var out := InvoiceSpec(paymentId, Returned(rows), apartmentQuery, Returned(data));
      && out.InvoiceOk?
      && out.invoice.Keys >= rows[0].Keys
      && (Field(rows[0], "payment_type") == Str("property") ==> out.invoice == InvoiceData(rows[0], data))
      && (Field(rows[0], "payment_type") != Str("property") ==> out.invoice.Keys == rows[0].Keys + SummaryKeys + {"unit_details"})
  {
    var p := rows[0];
    if Field(p, "payment_type") == Str("property") {
      MergeOverrides(p, Spread(Or(Get(data, "payment_summary"), Obj(InlineSummary(p)))));
    } else {
      MergeOverrides(p, ApartmentSummary(p));
    }
  }
}
