/** Division and counting facts that several modules share. */
module Arithmetic {

  lemma ModUnique(a: nat, l: nat, q: nat, r: nat)
    requires l > 0 && a == l * q + r && r < l
    ensures a % l == r
  {
    var p := a / l;
    assert a == l * p + a % l;
    if p > q { assert l * p >= l * (q + 1) by { MulMono(l, q + 1, p); } }
    if p < q { assert l * q >= l * (p + 1) by { MulMono(l, p + 1, q); } }
  }

  lemma QuotientUnique(a: int, l: nat, q: int, r: nat)
    requires l > 0 && a == q * l + r && r < l
    ensures a / l == q
  {
    var p := a / l;
    assert a == p * l + a % l;
    if p > q { assert (p - q) * l >= l by { MulMono(l, 1, p - q); } }
    if p < q { assert (q - p) * l >= l by { MulMono(l, 1, q - p); } }
  }

  lemma MulMono(l: nat, a: nat, b: nat)
    requires a <= b
    ensures l * a <= l * b
  {
  }

  function Cut(s: seq<nat>, k: nat): seq<nat>
    requires k < |s|
  {
    s[..k] + s[k + 1..]
  }

  lemma {:induction false} Pigeonhole(s: seq<nat>, n: nat)
    requires forall k :: 0 <= k < |s| ==> s[k] < n
    requires forall a, b :: 0 <= a < b < |s| ==> s[a] != s[b]
    ensures |s| <= n
  {
    if s != [] {
      var first := s[0];
      if n - 1 in s {
        var k :| 0 <= k < |s| && s[k] == n - 1;
        Pigeonhole(Cut(s, k), n - 1);
      } else {
        Pigeonhole(s, n - 1);
      }
    }
  }
}
