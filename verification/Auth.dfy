/** Challenge-response authentication: the comparison loop over an opaque HMAC. */
module Auth {
  import opened Bytes

  const NONCE_SIZE := 32
  const RESPONSE_SIZE := 32

  /** HMAC-SHA256 (RFC 2104, section 2) as a function of key and message. */
  type Hmac = (bytes, bytes) -> bytes

  ghost predicate IsHmac(h: Hmac) {
    forall key: bytes, nonce: bytes {:trigger h(key, nonce)} :: |h(key, nonce)| == RESPONSE_SIZE
  }

  /** Bitwise exclusive or of the `n` lowest bits. */
  function XorBits(a: nat, b: nat, n: nat): (r: nat)
    ensures r < Pow2(n)
  {
    if n == 0 then 0 else (a % 2 + b % 2) % 2 + 2 * XorBits(a / 2, b / 2, n - 1)
  }

  /** Bitwise inclusive or of the `n` lowest bits. */
  function OrBits(a: nat, b: nat, n: nat): (r: nat)
    ensures r < Pow2(n)
  {
    if n == 0 then 0 else (if a % 2 == 1 || b % 2 == 1 then 1 else 0) + 2 * OrBits(a / 2, b / 2, n - 1)
  }

  function Pow2(n: nat): nat {
    if n == 0 then 1 else 2 * Pow2(n - 1)
  }

  lemma Pow2Eight()
    ensures Pow2(8) == 256
  {
    assert Pow2(4) == 2 * Pow2(3);
  }

  function Xor(a: byte, b: byte): byte {
    Pow2Eight();
    XorBits(a, b, 8)
  }

  function Or(a: byte, b: byte): byte {
    Pow2Eight();
    OrBits(a, b, 8)
  }

  lemma {:induction false} XorZeroIffEqual(a: nat, b: nat, n: nat)
    requires a < Pow2(n) && b < Pow2(n)
    ensures XorBits(a, b, n) == 0 <==> a == b
  {
    if n > 0 {
      XorZeroIffEqual(a / 2, b / 2, n - 1);
    }
  }

  lemma {:induction false} OrZeroIffBothZero(a: nat, b: nat, n: nat)
    requires a < Pow2(n) && b < Pow2(n)
    ensures OrBits(a, b, n) == 0 <==> a == 0 && b == 0
  {
    if n > 0 {
      OrZeroIffBothZero(a / 2, b / 2, n - 1);
    }
  }

  /** `verify_response`: the accumulator over all bytes accepts exactly the expected HMAC, for responses
      of any length and content. */
  method VerifyResponse(hmac: Hmac, key: bytes, nonce: bytes, response: bytes) returns (ok: bool)
    requires IsHmac(hmac)
    ensures ok <==> response == hmac(key, nonce)
  {
    var expected := hmac(key, nonce);
    if |response| != RESPONSE_SIZE {
      return false;
    }
    var result: byte := 0;
    Pow2Eight();
    for i := 0 to RESPONSE_SIZE
      invariant result == 0 <==> expected[..i] == response[..i]
    {
      XorZeroIffEqual(expected[i], response[i], 8);
      OrZeroIffBothZero(result, Xor(expected[i], response[i]), 8);
      result := Or(result, Xor(expected[i], response[i]));
      assert expected[..i + 1] == expected[..i] + [expected[i]] && response[..i + 1] == response[..i] + [response[i]];
    }
    assert expected[..RESPONSE_SIZE] == expected && response[..RESPONSE_SIZE] == response;
    return result == 0;
  }
}
