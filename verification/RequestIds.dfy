/** Request identifiers: an int64 counter whose values are keyed as float64 (client.go, normalizeID). */
module RequestIds {

  // 2^53: up to here every integer is a float64.
  const MAX_EXACT: nat := 0x20_0000_0000_0000

  // Distance between neighbouring float64 values at v.
  function Spacing(v: nat): (u: nat)
    ensures u >= 1
  {
    if v < MAX_EXACT then 1 else 2 * Spacing(v / 2)
  }

  // The Go conversion float64(v) of a non-negative int64: round to nearest, ties to even.
  function ToFloat64(v: nat): nat {
    var u := Spacing(v);
    var q, r := v / u, v % u;
    if 2 * r < u || (2 * r == u && q % 2 == 0) then q * u else (q + 1) * u
  }

  lemma ExactBelow(v: nat)
    requires v <= MAX_EXACT
    ensures ToFloat64(v) == v
  {
    if v == MAX_EXACT {
      assert Spacing(v / 2) == 1;
      assert v / 2 * 2 == v;
    }
  }

  // The first identifier that rounds to the key of another.
  lemma SharedKey()
    ensures ToFloat64(MAX_EXACT) == MAX_EXACT == ToFloat64(MAX_EXACT + 1)
  {
    ExactBelow(MAX_EXACT);
    var next := MAX_EXACT + 1;
    assert Spacing(next / 2) == 1;
    assert next / 2 * 2 + 1 == next && next / 2 % 2 == 0;
  }

  // Two request identifiers never share a key exactly as long as the counter stays within 2^53.
  lemma KeysDistinctIff(n: nat)
    ensures (forall a: nat, b: nat | a <= n && b <= n && ToFloat64(a) == ToFloat64(b) :: a == b) <==> n <= MAX_EXACT
  {
    if n <= MAX_EXACT {
      forall a: nat, b: nat | a <= n && b <= n && ToFloat64(a) == ToFloat64(b) ensures a == b {
        ExactBelow(a);
        ExactBelow(b);
      }
    } else {
      SharedKey();
    }
  }
}
