/** The integer square root, by Newton's iteration from a seed below the root. */
module BigintSqrt {

  const TWO_52: nat := 0x10_0000_0000_0000

  predicate IsRoot(r: nat, v: nat) {
    r * r <= v < (r + 1) * (r + 1)
  }

  /** The largest integer whose square is at most `v`. For values below 2^52 this is also what
      rounding a double-precision square root down gives. */
  function FloorSqrt(v: nat): (r: nat)
    ensures IsRoot(r, v)
  {
    if v == 0 then 0
    else
      var r := FloorSqrt(v - 1);
      if (r + 1) * (r + 1) <= v then r + 1 else r
  }

  lemma SquareMonotone(a: nat, b: nat)
    ensures a <= b <==> a * a <= b * b
    ensures a < b <==> a * a < b * b
  {
    if a < b {
      assert a * a <= a * b < b * b;
    } else if b < a {
      assert b * b <= b * a < a * a;
    }
  }

  lemma RootIsUnique(r: nat, s: nat, v: nat)
    requires IsRoot(r, v) && IsRoot(s, v)
    ensures r == s
  {
    if r < s {
      SquareMonotone(r + 1, s);
    } else if s < r {
      SquareMonotone(s + 1, r);
    }
  }

  function NewtonStep(v: nat, x: nat): nat
    requires x > 0
  {
    (v / x + x) / 2
  }

  lemma Scale(a: nat, b: nat, x: nat)
    requires a <= b
    ensures a * x <= b * x
  {
  }

  lemma QuotientAtLeast(v: nat, x: nat, q: nat)
    requires x > 0 && q * x <= v
    ensures v / x >= q
  {
    var d := v / x;
    assert v == d * x + v % x;
    if d < q {
      Scale(d + 1, q, x);
      assert false;
    }
  }

  lemma QuotientBelow(v: nat, x: nat, q: nat)
    requires x > 0 && v < q * x
    ensures v / x < q
  {
    var d := v / x;
    assert v == d * x + v % x;
    if d >= q {
      Scale(q, d, x);
      assert false;
    }
  }

  lemma SquaresDiffer(r: int, x: int)
    ensures (2 * r - x) * x == r * r - (r - x) * (r - x) <= r * r
  {
    assert (r - x) * (r - x) == r * r - 2 * r * x + x * x;
    assert (r - x) * (r - x) >= 0;
  }

  /** No step, from anywhere, goes below the root. */
  lemma StepStaysAbove(v: nat, x: nat, r: nat)
    requires x > 0 && IsRoot(r, v)
    ensures NewtonStep(v, x) >= r
  {
    var q := 2 * r - x;
    SquaresDiffer(r, x);
    if q >= 0 {
      QuotientAtLeast(v, x, q);
    }
  }

  /** Above the root a step goes strictly down. */
  lemma StepDescends(v: nat, x: nat, r: nat)
    requires IsRoot(r, v) && x > r
    ensures NewtonStep(v, x) < x
  {
    SquareMonotone(r + 1, x);
    QuotientBelow(v, x, x);
  }

  /** At the root a step stays, or goes up by one. */
  lemma StepAtRoot(v: nat, r: nat)
    requires IsRoot(r, v) && r > 0
    ensures r <= NewtonStep(v, r) <= r + 1
  {
    assert (r + 1) * (r + 1) == r * r + 2 * r + 1;
    QuotientAtLeast(v, r, r);
    assert v < (r + 3) * r;
    QuotientBelow(v, r, r + 3);
  }

  /** Where the iteration starts. */
  function Seed(v: nat): nat
    requires v >= 16
  {
    if v < TWO_52 then FloorSqrt(v) - 3 else TWO_52 - 2
  }

  /** The iteration stops at its seed, below the root, when the seed's successor comes next. */
  predicate StopsAtSeed(v: nat)
    requires v >= 16
  {
    Seed(v) > 0 && NewtonStep(v, Seed(v)) == Seed(v) + 1 && Seed(v) < FloorSqrt(v)
  }

  /** What the iteration returns. */
  function Result(v: nat): nat {
    if v < 16 then FloorSqrt(v) else if StopsAtSeed(v) then Seed(v) else FloorSqrt(v)
  }

  lemma {:induction false} SmallRoots(v: nat)
    requires v >= 16
    ensures FloorSqrt(v) >= 4
  {
    if FloorSqrt(v) < 4 {
      SquareMonotone(FloorSqrt(v) + 1, 4);
    }
  }

  lemma SeedIsPositive(v: nat)
    requires v >= 16
    ensures Seed(v) > 0
  {
    SmallRoots(v);
  }

  /** One step from `x`, against the root `r`. */
  lemma {:induction false} StepFacts(v: nat, x: nat)
    requires v >= 16 && x > 0
    ensures var r := FloorSqrt(v);
            && NewtonStep(v, x) >= r > 0
            && (x > r ==> NewtonStep(v, x) < x)
            && (x == r ==> NewtonStep(v, x) == r || NewtonStep(v, x) == r + 1)
  {
    var r := FloorSqrt(v);
    SmallRoots(v);
    StepStaysAbove(v, x, r);
    if x > r {
      StepDescends(v, x, r);
    } else if x == r {
      StepAtRoot(v, r);
    }
  }

  /** The loop: it ends, and returns what `Result` says. */
  method Iterate(value: nat, seed: nat) returns (x: nat)
    requires value >= 16 && seed == Seed(value) > 0
    ensures x == Result(value)
  {
    ghost var r := FloorSqrt(value);
    var x0, x1: int := -1, seed;
    while x0 != x1 && x0 != x1 - 1
      invariant x1 > 0
      invariant x0 == -1 ==> x1 == seed
      invariant x0 != -1 ==> x0 > 0 && x1 == NewtonStep(value, x0)
      invariant x0 != -1 ==> x0 == seed || (x0 >= r && !StopsAtSeed(value))
      decreases x0 == -1, x0 != -1 && x0 < r, x0
    {
      if x0 != -1 {
        StepFacts(value, x0);
      }
      StepFacts(value, x1);
      x0 := x1;
      x1 := NewtonStep(value, x0);
    }
    StepFacts(value, x0);
    x := x0;
  }

  /** The square root of a value of any size. */
  method Sqrt(value: nat) returns (x: nat)
    ensures x == Result(value)
    ensures IsRoot(x, value) <==> value < (TWO_52 - 1) * (TWO_52 - 1) || value >= TWO_104 - 4
  {
    CorrectIff(value);
    if value < 2 {
      RootIsUnique(value, FloorSqrt(value), value);
      return value;
    }
    if value < 16 {
      return FloorSqrt(value);
    }
    SeedIsPositive(value);
    x := Iterate(value, if value < TWO_52 then FloorSqrt(value) - 3 else TWO_52 - 2);
  }

  // ----- when the result is right -----

  const TWO_104: nat := 0x100_0000_0000_0000_0000_0000_0000

  /** Just below the root the next step gives the root, and the loop stops one short, unless the
      value is among the last few with that root. */
  lemma StepBelowRoot(v: nat, s: nat)
    requires s > 0 && IsRoot(s + 1, v)
    ensures NewtonStep(v, s) == s + 1 <==> v < s * (s + 4)
  {
    assert (s + 1) * (s + 1) == (s + 2) * s + 1;
    QuotientAtLeast(v, s, s + 2);
    if v < s * (s + 4) {
      QuotientBelow(v, s, s + 4);
    } else {
      QuotientAtLeast(v, s, s + 4);
    }
  }

  lemma StopsAtSeedIff(v: nat)
    requires v >= 16
    ensures StopsAtSeed(v) <==> (TWO_52 - 1) * (TWO_52 - 1) <= v < TWO_104 - 4
  {
    var r, s: nat := FloorSqrt(v), TWO_52 - 2;
    StepFacts(v, Seed(v));
    if v < TWO_52 {
      assert !StopsAtSeed(v);
    } else if r == s + 1 {
      StepBelowRoot(v, s);
      assert s * (s + 4) == TWO_104 - 4;
    } else if r <= s {
      SquareMonotone(r + 1, s + 1);
    } else {
      SquareMonotone(s + 2, r);
    }
  }

  /** The result is the integer root exactly for the values below the square of 2^52 - 1 and from
      2^104 - 4 on; in between it is one less. */
  lemma CorrectIff(v: nat)
    ensures IsRoot(Result(v), v) <==> v < (TWO_52 - 1) * (TWO_52 - 1) || v >= TWO_104 - 4
    ensures !IsRoot(Result(v), v) ==> IsRoot(Result(v) + 1, v)
  {
    if v >= 16 {
      StopsAtSeedIff(v);
      if StopsAtSeed(v) {
        SquareMonotone(TWO_52 - 1, FloorSqrt(v));
        SquareMonotone(FloorSqrt(v) + 1, TWO_52);
        RootIsUnique(FloorSqrt(v), TWO_52 - 1, v);
        if IsRoot(Result(v), v) {
          RootIsUnique(FloorSqrt(v), Result(v), v);
        }
      }
    }
  }

  /** In particular it is right for every 64-bit value. */
  lemma CorrectForUint64(v: nat)
    requires v < 0x1_0000_0000_0000_0000
    ensures IsRoot(Result(v), v)
  {
    CorrectIff(v);
  }

  /** The smallest value for which it is not. */
  lemma OneShort()
    ensures var v := (TWO_52 - 1) * (TWO_52 - 1); Result(v) == TWO_52 - 2 && IsRoot(TWO_52 - 1, v)
  {
    CorrectIff((TWO_52 - 1) * (TWO_52 - 1));
    StopsAtSeedIff((TWO_52 - 1) * (TWO_52 - 1));
  }
}
