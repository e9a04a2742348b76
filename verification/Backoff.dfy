/** Retry delays: an exponential with jitter, cut off at a maximum. Delays are nanoseconds. */
module Backoff {
  import opened Options

  // time.Duration is an int64.
  const DURATION_LIMIT: int := 0x8000_0000_0000_0000

  function Power(attempt: nat): (p: real)
    ensures p >= 1.0
  {
    if attempt == 0 then 1.0 else 1.5 * Power(attempt - 1)
  }

  // The delay without jitter, before it is cut off.
  function Base(min: int, attempt: nat): real {
    min as real * Power(attempt)
  }

  // The delay before it is cut off; jitter is what rand.Float64 returned.
  function Raw(min: int, attempt: nat, jitter: real): real {
    Base(min, attempt) + jitter * min as real
  }

  /** backoff.next. A conversion to time.Duration outside of int64 has no value the language fixes. */
  function Delay(min: int, max: int, attempt: int, jitter: real): (d: Option<int>)
    requires 0 < min && 0.0 <= jitter < 1.0
    ensures d.None? <==> attempt >= 0 && Raw(min, attempt, jitter) >= DURATION_LIMIT as real
  {
    if attempt < 0 then Some(min)
    else
      var raw := Raw(min, attempt, jitter);
      if raw >= DURATION_LIMIT as real then None
      else if raw.Floor > max then Some(max) else Some(raw.Floor)
  }

  lemma {:induction false} PowerGrows(a: nat, b: nat)
    requires a <= b
    ensures Power(a) <= Power(b)
  {
    if a < b {
      PowerGrows(a, b - 1);
    }
  }

  // Bernoulli's inequality.
  lemma {:induction false} PowerLinear(n: nat)
    ensures Power(n) >= 1.0 + n as real / 2.0
  {
    if n > 0 {
      PowerLinear(n - 1);
    }
  }

  lemma Scale(m: real, p: real, q: real)
    requires 0.0 <= m && p <= q
    ensures m * p <= m * q
  {
  }

  lemma BaseGrows(min: int, a: nat, b: nat)
    requires 0 < min && a <= b
    ensures Base(min, a) <= Base(min, b)
  {
    PowerGrows(a, b);
    Scale(min as real, Power(a), Power(b));
  }

  lemma BaseAtLeastMin(min: int, attempt: nat)
    requires 0 < min
    ensures Base(min, attempt) >= min as real
  {
    Scale(min as real, 1.0, Power(attempt));
  }

  // Jitter adds something below the minimum.
  lemma JitterRange(m: real, jitter: real)
    requires 0.0 < m && 0.0 <= jitter < 1.0
    ensures 0.0 <= jitter * m < m
  {
    assert m - jitter * m == (1.0 - jitter) * m;
  }

  lemma RawRange(min: int, attempt: nat, jitter: real)
    requires 0 < min && 0.0 <= jitter < 1.0
    ensures min as real <= Base(min, attempt) <= Raw(min, attempt, jitter) < Base(min, attempt) + min as real
  {
    BaseAtLeastMin(min, attempt);
    JitterRange(min as real, jitter);
  }

  // The delay stays between the minimum and the maximum.
  lemma DelayInRange(min: int, max: int, attempt: int, jitter: real)
    requires 0 < min <= max && 0.0 <= jitter < 1.0
    ensures var d := Delay(min, max, attempt, jitter); d.Some? ==> min <= d.value <= max
  {
    if attempt >= 0 {
      RawRange(min, attempt, jitter);
    }
  }

  // Below the maximum, the delay is the exponential with jitter, up to a nanosecond; before the first attempt it is
  // the minimum.
  lemma DelayIsExponential(min: int, max: int, attempt: int, jitter: real)
    requires 0 < min <= max && 0.0 <= jitter < 1.0
    ensures attempt < 0 ==> Delay(min, max, attempt, jitter) == Some(min)
    ensures var d := Delay(min, max, attempt, jitter);
            attempt >= 0 && d.Some? && d.value < max ==>
              var raw := min as real * Power(attempt) + jitter * min as real;
              d.value as real <= raw < d.value as real + 1.0
  {
  }

  // With the same jitter, a later attempt never waits less.
  lemma DelayGrows(min: int, max: int, a: nat, b: nat, jitter: real)
    requires 0 < min <= max && 0.0 <= jitter < 1.0 && a <= b
    ensures var d, e := Delay(min, max, a, jitter), Delay(min, max, b, jitter);
            (e.Some? ==> d.Some?) && (d.Some? && e.Some? ==> d.value <= e.value)
  {
    BaseGrows(min, a, b);
  }

  // ---------- where the conversion is defined ----------

  // Every jitter gives a defined delay.
  ghost predicate Defined(min: int, max: int, attempt: nat)
    requires 0 < min
  {
    forall jitter: real | 0.0 <= jitter < 1.0 :: Delay(min, max, attempt, jitter).Some?
  }

  // A jitter that exceeds the limit, if any does.
  lemma Overflow(b: real, m: real, limit: real) returns (jitter: real)
    requires 0.0 < m && b + m > limit
    ensures 0.0 <= jitter < 1.0 && b + jitter * m >= limit
  {
    if b >= limit {
      jitter := 0.0;
    } else {
      jitter := (limit - b) / m;
      assert jitter * m == limit - b;
      JitterBelowOne(jitter, m, limit - b);
    }
  }

  lemma JitterBelowOne(jitter: real, m: real, x: real)
    requires 0.0 < m && jitter * m == x && 0.0 < x < m
    ensures 0.0 <= jitter < 1.0
  {
    if jitter >= 1.0 {
      Scale(m, 1.0, jitter);
    }
    if jitter < 0.0 {
      Scale(m, jitter, 0.0);
    }
  }

  // For any bounds, the conversion is defined with every jitter if and only if the delay without jitter leaves room
  // for it.
  lemma DefinedIff(min: int, max: int, attempt: nat)
    requires 0 < min
    ensures Defined(min, max, attempt) <==> Base(min, attempt) + min as real <= DURATION_LIMIT as real
  {
    if Base(min, attempt) + min as real <= DURATION_LIMIT as real {
      forall jitter: real | 0.0 <= jitter < 1.0 ensures Delay(min, max, attempt, jitter).Some? {
        RawRange(min, attempt, jitter);
      }
    } else {
      var jitter := Overflow(Base(min, attempt), min as real, DURATION_LIMIT as real);
      assert Raw(min, attempt, jitter) >= DURATION_LIMIT as real;
      assert Delay(min, max, attempt, jitter).None?;
    }
  }

  // ---------- where the delay is the maximum ----------

  // With every jitter the delay is the maximum, or undefined.
  ghost predicate Settled(min: int, max: int, attempt: nat)
    requires 0 < min
  {
    forall jitter: real | 0.0 <= jitter < 1.0 :: Delay(min, max, attempt, jitter) in {Some(max), None}
  }

  // With every jitter the delay is the maximum.
  ghost predicate AlwaysMax(min: int, max: int, attempt: nat)
    requires 0 < min
  {
    forall jitter: real | 0.0 <= jitter < 1.0 :: Delay(min, max, attempt, jitter) == Some(max)
  }

  // That is so if and only if the delay without jitter has reached the maximum.
  lemma SettledIff(min: int, max: int, attempt: nat)
    requires 0 < min <= max < DURATION_LIMIT
    ensures Settled(min, max, attempt) <==> Base(min, attempt) >= max as real
  {
    if Base(min, attempt) >= max as real {
      forall jitter: real | 0.0 <= jitter < 1.0 ensures Delay(min, max, attempt, jitter) in {Some(max), None} {
        RawRange(min, attempt, jitter);
      }
    } else {
      assert Raw(min, attempt, 0.0) == Base(min, attempt);
      BaseAtLeastMin(min, attempt);
      var d := Delay(min, max, attempt, 0.0);
      assert d == Some(Base(min, attempt).Floor) && d.value < max;
    }
  }

  lemma AlwaysMaxIff(min: int, max: int, attempt: nat)
    requires 0 < min
    ensures AlwaysMax(min, max, attempt) <==> Settled(min, max, attempt) && Defined(min, max, attempt)
  {
    if Settled(min, max, attempt) && Defined(min, max, attempt) {
      forall jitter: real | 0.0 <= jitter < 1.0 ensures Delay(min, max, attempt, jitter) == Some(max) {
        assert Delay(min, max, attempt, jitter) in {Some(max), None};
        assert Delay(min, max, attempt, jitter).Some?;
      }
    }
    if AlwaysMax(min, max, attempt) {
      forall jitter: real | 0.0 <= jitter < 1.0
        ensures Delay(min, max, attempt, jitter) in {Some(max), None} && Delay(min, max, attempt, jitter).Some?
      {
        assert Delay(min, max, attempt, jitter) == Some(max);
      }
    }
  }

  // The first attempt whose delay without jitter reaches the maximum; it does not yet reach half as much again.
  lemma {:induction false} FirstAtMax(min: int, max: int, n: nat) returns (k: nat)
    requires 0 < min <= max && Base(min, n) >= max as real
    ensures forall attempt: nat :: Base(min, attempt) >= max as real <==> k <= attempt
    ensures Base(min, k) < 1.5 * max as real
  {
    if n > 0 && Base(min, n - 1) >= max as real {
      k := FirstAtMax(min, max, n - 1);
    } else {
      k := n;
      forall attempt: nat ensures Base(min, attempt) >= max as real <==> n <= attempt {
        if n <= attempt {
          BaseGrows(min, n, attempt);
        } else {
          BaseGrows(min, attempt, n - 1);
        }
      }
      BaseBelow(min, max, n);
    }
  }

  lemma BaseBelow(min: int, max: int, n: nat)
    requires 0 < min <= max && (n > 0 ==> Base(min, n - 1) < max as real)
    ensures Base(min, n) < 1.5 * max as real
  {
    if n > 0 {
      var m, p := min as real, Power(n - 1);
      assert m * (1.5 * p) == 1.5 * (m * p);
    } else {
      assert Power(0) == 1.0;
    }
  }

  // A factor of at least one does not shrink a positive number.
  lemma Dominates(m: real, p: real, x: real)
    requires 1.0 <= m && 0.0 <= x <= p
    ensures x <= m * p
  {
    assert m * p == p + (m - 1.0) * p;
    Scale(m - 1.0, 0.0, p);
  }

  lemma BaseLinear(min: int, max: int)
    requires 0 < min <= max
    ensures Base(min, 2 * max) >= max as real
  {
    PowerLinear(2 * max);
    assert (2 * max) as real / 2.0 == max as real;
    Dominates(min as real, Power(2 * max), max as real);
  }

  // There is a first attempt k from which no jitter gives less than the maximum. The delay is the maximum with every
  // jitter exactly from k on and for as long as the conversion is defined; and k itself is among those attempts if
  // half as much again as the maximum, and the minimum, fit into a duration.
  lemma DelaySettles(min: int, max: int) returns (k: nat)
    requires 0 < min <= max < DURATION_LIMIT
    ensures forall attempt: nat :: Settled(min, max, attempt) <==> k <= attempt
    ensures forall attempt: nat ::
              AlwaysMax(min, max, attempt) <==>
              k <= attempt && Base(min, attempt) + min as real <= DURATION_LIMIT as real
    ensures 1.5 * max as real + min as real <= DURATION_LIMIT as real ==> AlwaysMax(min, max, k)
  {
    BaseLinear(min, max);
    k := FirstAtMax(min, max, 2 * max);
    forall attempt: nat
      ensures Settled(min, max, attempt) <==> k <= attempt
      ensures AlwaysMax(min, max, attempt) <==>
              k <= attempt && Base(min, attempt) + min as real <= DURATION_LIMIT as real
    {
      assert Base(min, attempt) >= max as real <==> k <= attempt;
      SettledIff(min, max, attempt);
      DefinedIff(min, max, attempt);
      AlwaysMaxIff(min, max, attempt);
    }
  }

  // ---------- the default reconnect backoff: 100 ms to 5 s ----------

  const DEFAULT_MIN: int := 100_000_000
  const DEFAULT_MAX: int := 5_000_000_000

  lemma PowerAt10()
    ensures Power(9) == 38.443359375 && Power(10) == 57.6650390625
  {
    assert Power(3) == 3.375;
    assert Power(6) == 11.390625;
    assert Power(9) == 38.443359375;
  }

  // Attempt 10 is the first that waits the whole maximum with every jitter; attempt 9 never does.
  lemma DefaultSettlesAt10(attempt: int, jitter: real)
    requires 0.0 <= jitter < 1.0
    ensures attempt >= 10 ==> Delay(DEFAULT_MIN, DEFAULT_MAX, attempt, jitter) in {Some(DEFAULT_MAX), None}
    ensures attempt <= 9 ==> exists d :: Delay(DEFAULT_MIN, DEFAULT_MAX, attempt, jitter) == Some(d) && d < DEFAULT_MAX
  {
    PowerAt10();
    if attempt >= 10 {
      PowerGrows(10, attempt);
    } else if attempt >= 0 {
      PowerGrows(attempt, 9);
    }
  }

  lemma PowerAt62()
    ensures Power(62) * 100_000_000.0 < 9_000_000_000_000_000_000.0
    ensures Power(63) * 100_000_000.0 > 9_300_000_000_000_000_000.0
  {
    PowerSplit(31, 31);
    PowerSplit(10, 10);
    PowerSplit(20, 10);
    PowerAt10();
    assert Power(20) == Power(10) * Power(10);
    assert Power(30) == Power(20) * Power(10);
    assert Power(31) == 1.5 * Power(30);
    assert Power(63) == 1.5 * Power(62);
  }

  lemma {:induction false} PowerSplit(a: nat, b: nat)
    ensures Power(a + b) == Power(a) * Power(b)
  {
    if b > 0 {
      PowerSplit(a, b - 1);
      assert Power(a + b) == 1.5 * (Power(a) * Power(b - 1));
    }
  }

  // A client that keeps failing to reconnect leaves the defined range with attempt 63, exactly.
  lemma DefaultDefinedIff(attempt: int, jitter: real)
    requires 0.0 <= jitter < 1.0
    ensures Delay(DEFAULT_MIN, DEFAULT_MAX, attempt, jitter).Some? <==> attempt <= 62
  {
    PowerAt62();
    if attempt >= 63 {
      PowerGrows(63, attempt);
    } else if attempt >= 0 {
      PowerGrows(attempt, 62);
    }
  }
}
