/** The read endpoints: the status mappings of `checkPayment`,
    `getUserPaymentHistory` and `getAllPaymentsController`, and the combined,
    newest-first payment list of `getAllUserPaymentsController`. Service and
    query results are parameters. */
module PaymentListing {
  import opened JsValue

  // ---------------------------------------------------------------------------
  // Status mappings.

  /** `checkPayment`: 400 without both ids, 200 with the service's payment data
      when it is truthy, 404 when it is not, 500 when the service threw. */
  function CheckPaymentStatus(userId: Value, propertyId: Value, paymentData: Attempt<Value>): (status: int)
    ensures status == 400 <==> !Truthy(userId) || !Truthy(propertyId)
    ensures status == 200 <==> Truthy(userId) && Truthy(propertyId) && paymentData.Returned? && Truthy(paymentData.value)
    ensures status == 404 <==> Truthy(userId) && Truthy(propertyId) && paymentData.Returned? && !Truthy(paymentData.value)
    ensures status == 500 <==> Truthy(userId) && Truthy(propertyId) && paymentData.Threw?
  {
    if !Truthy(userId) || !Truthy(propertyId) then 400
    else match paymentData
      case Threw => 500
      case Returned(data) => if Truthy(data) then 200 else 404
  }

  /** What `getUserPayments` resolves to: its `success` flag and its `payments`
      array, None when that field is falsy. */
  datatype PaymentsResult = PaymentsResult(success: Value, payments: Option<seq<Row>>)

  /** EmptyHistory: the normalised 200 response with an empty list.
      Forwarded: the service's result sent as it is, under a status.
      HistoryFailed: an error status and message. */
  datatype HistoryReply =
    | EmptyHistory
    | Forwarded(status: int, result: PaymentsResult)
    | HistoryFailed(status: int, message: string)

  /** `getUserPaymentHistory`. */
  function UserPaymentHistory(userId: Value, result: Attempt<PaymentsResult>): (reply: HistoryReply)
    ensures !Truthy(userId) <==> reply == HistoryFailed(400, "User ID is required")
    ensures Truthy(userId) && result.Threw? <==> reply.HistoryFailed? && reply.status == 500
    ensures reply == EmptyHistory <==>
      && Truthy(userId) && result.Returned? && Truthy(result.value.success)
      && (result.value.payments.None? || |result.value.payments.value| == 0)
    ensures reply.Forwarded? ==> reply.result == result.value
    ensures reply.Forwarded? ==> (reply.status == 200 <==> Truthy(reply.result.success))
    ensures reply.Forwarded? ==> (reply.status == 400 <==> !Truthy(reply.result.success))
    ensures reply.Forwarded? && reply.status == 200 ==> reply.result.payments.Some? && |reply.result.payments.value| > 0
    ensures Truthy(userId) && result.Returned? && reply != EmptyHistory ==>
      reply == Forwarded(if Truthy(result.value.success) then 200 else 400, result.value)
  {
    if !Truthy(userId) then HistoryFailed(400, "User ID is required")
    else match result
      case Threw => HistoryFailed(500, "Server error while fetching payment history")
      case Returned(r) =>
        if Truthy(r.success) && (r.payments.None? || |r.payments.value| == 0) then EmptyHistory
        else Forwarded(if Truthy(r.success) then 200 else 400, r)
  }

  function HistoryStatus(reply: HistoryReply): int {
    match reply
    case EmptyHistory => 200
    case Forwarded(s, _) => s
    case HistoryFailed(s, _) => s
  }

  /** `getAllPaymentsController`: 200 when the result's `success` is truthy, 400
      when it is not, 500 when the service threw or resolved to null or
      undefined (reading `.success` of those throws). */
  function AllPaymentsStatus(result: Attempt<Value>): (status: int)
    ensures status == 200 <==> result.Returned? && Truthy(Get(result.value, "success"))
    ensures status == 500 <==> result.Threw? || result.value.Undefined? || result.value.Null?
    ensures status in {200, 400, 500}
  {
    match result
    case Threw => 500
    case Returned(r) =>
      if r.Undefined? || r.Null? then 500
      else if Truthy(Get(r, "success")) then 200 else 400
  }

  /** A success with payments in it is always a 200; a failure is a 400 even
      when it carries no payments. */
  lemma HistoryStatusRules(userId: Value, r: PaymentsResult)
    requires Truthy(userId)
    ensures var s := HistoryStatus(UserPaymentHistory(userId, Returned(r)));
      && (Truthy(r.success) ==> s == 200)
      && (!Truthy(r.success) ==> s == 400)
  {
  }

  // ---------------------------------------------------------------------------
  // The combined list.

  /** A listed payment: its row, with `payment_date` as an ordered key. */
  datatype Dated = Dated(date: int, row: Row)

  /** Most recent first. */
  predicate SortedByDateDesc(s: seq<Dated>)
    ensures SortedByDateDesc(s) ==> forall i :: 0 <= i < |s| - 1 ==> s[i].date >= s[i + 1].date
  {
    forall i, j :: 0 <= i < j < |s| ==> s[i].date >= s[j].date
  }

  /** `allPayments.sort((a, b) => new Date(b.payment_date) - new Date(a.payment_date))`,
      in place. */
  method SortByDateDesc(a: array<Dated>)
    modifies a
    ensures SortedByDateDesc(a[..])
    ensures multiset(a[..]) == multiset(old(a[..]))
  {
    var i := 0;
    while i < a.Length
      invariant 0 <= i <= a.Length
      invariant SortedByDateDesc(a[..i])
      invariant multiset(a[..]) == multiset(old(a[..]))
    {
      InsertLast(a, i);
      i := i + 1;
    }
  }

  /** Moves `a[i]` left past every older payment, extending the sorted prefix. */
  method InsertLast(a: array<Dated>, i: int)
    requires 0 <= i < a.Length
    requires SortedByDateDesc(a[..i])
    modifies a
    ensures SortedByDateDesc(a[..i + 1])
    ensures multiset(a[..]) == multiset(old(a[..]))
    ensures a[i + 1..] == old(a[i + 1..])
  {
    var j := i;
    InsertingStart(a[..], i);
    while j > 0 && a[j - 1].date < a[j].date
      invariant 0 <= j <= i
      invariant Inserting(a[..], i, j)
      invariant multiset(a[..]) == multiset(old(a[..]))
      invariant a[i + 1..] == old(a[i + 1..])
    {
      InsertingStep(a[..], i, j);
      SwapAdjacent(a, j);
      j := j - 1;
    }
    InsertingDone(a[..], i, j);
  }

  /** While `a[j]` moves left: the other elements of `a[..i + 1]` are in order
      and everything after `a[j]` is strictly older. */
  predicate Inserting(s: seq<Dated>, i: int, j: int)
    requires 0 <= j <= i < |s|
  {
    && (forall m, n :: 0 <= m < n <= i && m != j && n != j ==> s[m].date >= s[n].date)
    && (forall n :: j < n <= i ==> s[j].date > s[n].date)
  }

  lemma InsertingStart(s: seq<Dated>, i: int)
    requires 0 <= i < |s| && SortedByDateDesc(s[..i])
    ensures Inserting(s, i, i)
  {
    assert forall m :: 0 <= m < i ==> s[..i][m] == s[m];
  }

  lemma InsertingStep(s: seq<Dated>, i: int, j: int)
    requires 0 < j <= i < |s| && Inserting(s, i, j) && s[j - 1].date < s[j].date
    ensures Inserting(s[j - 1 := s[j]][j := s[j - 1]], i, j - 1)
  {
  }

  lemma InsertingDone(s: seq<Dated>, i: int, j: int)
    requires 0 <= j <= i < |s| && Inserting(s, i, j)
    requires j == 0 || s[j - 1].date >= s[j].date
    ensures SortedByDateDesc(s[..i + 1])
  {
    assert forall m :: 0 <= m <= i ==> s[..i + 1][m] == s[m];
  }

  /** Exchanges `a[j - 1]` and `a[j]`. */
  method SwapAdjacent(a: array<Dated>, j: int)
    requires 0 < j < a.Length
    modifies a
    ensures a[..] == old(a[..])[j - 1 := old(a[j])][j := old(a[j - 1])]
    ensures multiset(a[..]) == multiset(old(a[..]))
  {
    a[j - 1], a[j] := a[j], a[j - 1];
  }

  /** `[...propertyPayments, ...apartmentPayments]`, sorted newest first: the
      same payments, in non-increasing date order. */
  method CombinedPayments(propertyPayments: seq<Dated>, apartmentPayments: seq<Dated>)
    returns (allPayments: seq<Dated>)
    ensures SortedByDateDesc(allPayments)
    ensures multiset(allPayments) == multiset(propertyPayments + apartmentPayments)
  {
    var all := propertyPayments + apartmentPayments;
    var a := new Dated[|all|](k requires 0 <= k < |all| => all[k]);
    assert a[..] == all;
    SortByDateDesc(a);
    allPayments := a[..];
  }

  /** Listed: the 200 response's payments. ListFailed: an error status and message. */
  datatype ListOutcome = Listed(payments: seq<Dated>) | ListFailed(status: int, message: string)

  /** `getAllUserPaymentsController`: 400 without a user id, 500 when either
      query throws, otherwise every payment of both queries, newest first. */
  method AllUserPayments(userId: Value, propertyQuery: Attempt<seq<Dated>>, apartmentQuery: Attempt<seq<Dated>>)
    returns (out: ListOutcome)
    ensures !Truthy(userId) ==> out == ListFailed(400, "User ID is required")
    ensures Truthy(userId) && (propertyQuery.Threw? || apartmentQuery.Threw?) ==>
      out == ListFailed(500, "Server error while fetching payment history")
    ensures out.Listed? <==> Truthy(userId) && propertyQuery.Returned? && apartmentQuery.Returned?
    ensures out.Listed? ==> SortedByDateDesc(out.payments)
    ensures out.Listed? ==>
      multiset(out.payments) == multiset(propertyQuery.value + apartmentQuery.value)
  {
    if !Truthy(userId) {
      return ListFailed(400, "User ID is required");
    }
    match propertyQuery {
      case Threw =>
        return ListFailed(500, "Server error while fetching payment history");
      case Returned(propertyPayments) =>
        match apartmentQuery {
          case Threw =>
            return ListFailed(500, "Server error while fetching payment history");
          case Returned(apartmentPayments) =>
            var allPayments := CombinedPayments(propertyPayments, apartmentPayments);
            out := Listed(allPayments);
        }
    }
  }

  /** The first payment of a sorted list is the most recent of all it holds. */
  lemma SortedHeadIsLatest(s: seq<Dated>, t: seq<Dated>)
    requires SortedByDateDesc(s) && multiset(s) == multiset(t) && |s| > 0
    ensures forall x :: x in t ==> s[0].date >= x.date
  {
    forall x | x in t
      ensures s[0].date >= x.date
    {
      assert x in multiset(t);
      assert x in multiset(s);
      var i :| 0 <= i < |s| && s[i] == x;
    }
  }
}
