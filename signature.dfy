/** The gateway signature check used by both payment creation and payment
    verification: HMAC-SHA256, keyed with the merchant secret, over
    "<order id>|<payment id>" rendered as hex, compared by exact string
    equality with the signature the client sent. The digest itself is a
    parameter `hmac(key, message)`; the secret is absent when the
    configuration lacks it, and then computing the digest throws. */
module Signature {
  import opened Strings
  import opened JsValue

  datatype SignatureCheck = Valid | Mismatch | SignError

  /** The message that is signed: `${order_id}|${payment_id}`. */
  function SignedPayload(orderId: Value, paymentId: Value): (m: string)
    ensures |m| == |ToStr(orderId)| + 1 + |ToStr(paymentId)|
    ensures m[..|ToStr(orderId)|] == ToStr(orderId) && m[|ToStr(orderId)|] == '|'
    ensures m[|ToStr(orderId)| + 1..] == ToStr(paymentId)
  {
    ToStr(orderId) + "|" + ToStr(paymentId)
  }

  function CheckSignature(hmac: (string, string) -> string, key: Option<string>,
                          orderId: Value, paymentId: Value, provided: Value): (c: SignatureCheck)
    ensures c == SignError <==> key.None?
    ensures c == Valid <==> key.Some? && provided == Str(hmac(key.value, SignedPayload(orderId, paymentId)))
  {
    match key
    case None => SignError
    case Some(k) => if Str(hmac(k, SignedPayload(orderId, paymentId))) == provided then Valid else Mismatch
  }

  /** The signed message is the '|'-join of the two ids. */
  lemma PayloadIsJoin(orderId: Value, paymentId: Value)
    ensures SignedPayload(orderId, paymentId) == Join([ToStr(orderId), ToStr(paymentId)], '|')
  {
    assert [ToStr(orderId), ToStr(paymentId)][1..] == [ToStr(paymentId)];
  }

  /** For ids that hold no '|' (the gateway's ids are alphanumeric), the signed
      message determines the string forms of both ids: two pairs that render
      differently are signed as different messages. Whether their digests
      differ is up to the HMAC, and ids with the same rendering (`5` and
      `"5"`) are signed alike. */
  lemma PayloadDeterminesIds(o1: Value, p1: Value, o2: Value, p2: Value)
    requires '|' !in ToStr(o1) && '|' !in ToStr(p1)
    requires '|' !in ToStr(o2) && '|' !in ToStr(p2)
    requires SignedPayload(o1, p1) == SignedPayload(o2, p2)
    ensures ToStr(o1) == ToStr(o2) && ToStr(p1) == ToStr(p2)
  {
    PayloadIsJoin(o1, p1);
    PayloadIsJoin(o2, p2);
    var xs, ys := [ToStr(o1), ToStr(p1)], [ToStr(o2), ToStr(p2)];
    JoinInjective(xs, ys, '|');
    assert xs[0] == ys[0] && xs[1] == ys[1];
  }

  /** A signature that is not a string (a number, say) never matches. */
  lemma NonStringSignatureRejected(hmac: (string, string) -> string, key: Option<string>,
                                   orderId: Value, paymentId: Value, provided: Value)
    requires !provided.Str?
    ensures CheckSignature(hmac, key, orderId, paymentId, provided) != Valid
  {
  }
}
