/**
 The comparison of signatures that does not stop at the first difference (src/payment_provider.rs and
 src/http/orders.rs hold one copy each).
 */
module SecureEquality {

  type byte = x: int | 0 <= x < 256

  /** Bitwise exclusive or.  It never exceeds the width of its arguments, so unbounded integers do. */
  function Xor(a: nat, b: nat): nat {
    if a == 0 && b == 0 then 0 else 2 * Xor(a / 2, b / 2) + if a % 2 == b % 2 then 0 else 1
  }

  function Or(a: nat, b: nat): nat {
    if a == 0 && b == 0 then 0 else 2 * Or(a / 2, b / 2) + if a % 2 == 0 && b % 2 == 0 then 0 else 1
  }

  lemma {:induction false} XorIsZero(a: nat, b: nat)
    ensures Xor(a, b) == 0 <==> a == b
  {
    if a != 0 || b != 0 {
      XorIsZero(a / 2, b / 2);
    }
  }

  lemma {:induction false} OrIsZero(a: nat, b: nat)
    ensures Or(a, b) == 0 <==> a == 0 && b == 0
  {
    if a != 0 || b != 0 {
      OrIsZero(a / 2, b / 2);
    }
  }

  function ByteAt(s: seq<byte>, i: nat): byte {
    if i < |s| then s[i] else 0
  }

  /** True exactly for equal byte strings: same length, same bytes. */
  method SecureEquals(left: seq<byte>, right: seq<byte>) returns (equal: bool)
    ensures equal <==> left == right
  {
    var maxLen := if |left| < |right| then |right| else |left|;
    var diff := Xor(|left|, |right|);
    XorIsZero(|left|, |right|);
    var i := 0;
    while i < maxLen
      invariant 0 <= i <= maxLen
      invariant diff == 0 <==> |left| == |right| && forall k :: 0 <= k < i ==> ByteAt(left, k) == ByteAt(right, k)
    {
      var a := ByteAt(left, i);
      var b := ByteAt(right, i);
      OrIsZero(diff, Xor(a, b));
      XorIsZero(a, b);
      diff := Or(diff, Xor(a, b));
      i := i + 1;
    }
    equal := diff == 0;
    if equal {
      forall k | 0 <= k < |left| ensures left[k] == right[k] {
        assert ByteAt(left, k) == ByteAt(right, k);
      }
    }
  }
}
