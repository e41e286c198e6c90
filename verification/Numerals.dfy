/** Big-endian positional numerals in an arbitrary base, with leading zeros kept apart.
    Re-writing a numeral from one base into another loses nothing as long as the leading zeros are counted. */
module Numerals {

  type Numeral = seq<nat>

  function Pow(b: nat, e: nat): nat {
    if e == 0 then 1 else b * Pow(b, e - 1)
  }

  predicate InBase(s: Numeral, b: nat) {
    forall i :: 0 <= i < |s| ==> s[i] < b
  }

  function Value(s: Numeral, b: nat): nat {
    if s == [] then 0 else Value(s[..|s| - 1], b) * b + s[|s| - 1]
  }

  lemma QuotientAndRest(n: nat, b: nat)
    requires b >= 2
    ensures n / b * b + n % b == n && 0 <= n % b < b
    ensures n > 0 ==> 0 <= n / b < n
    ensures n > 0 && n / b == 0 ==> n % b > 0
  {
  }

  lemma AppendDigit(front: Numeral, d: nat, b: nat)
    requires InBase(front, b) && d < b
    ensures InBase(front + [d], b) && Value(front + [d], b) == Value(front, b) * b + d
    ensures NoLeadingZero(front) && (front == [] ==> d != 0) ==> NoLeadingZero(front + [d])
  {
    assert (front + [d])[..|front|] == front;
  }

  /** The digits of n without leading zeros; zero has no digits at all. */
  function Shortest(n: nat, b: nat): (s: Numeral)
    requires b >= 2
    ensures InBase(s, b) && NoLeadingZero(s)
    ensures Value(s, b) == n
  {
    if n == 0 then []
    else
      QuotientAndRest(n, b);
      var front := Shortest(n / b, b);
      AppendDigit(front, n % b, b);
      front + [n % b]
  }

  lemma ShortestSplits(n: nat, b: nat)
    requires n > 0 && b >= 2
    ensures 0 <= n / b && 0 <= n % b && Shortest(n, b) == Shortest(n / b, b) + [n % b]
  {
    QuotientAndRest(n, b);
  }

  predicate NoLeadingZero(s: Numeral) {
    s == [] || s[0] != 0
  }

  function LeadingZeros(s: Numeral): (z: nat)
    ensures z <= |s| && (z < |s| ==> s[z] != 0)
    ensures forall i :: 0 <= i < z ==> s[i] == 0
  {
    if s == [] || s[0] != 0 then 0 else 1 + LeadingZeros(s[1..])
  }

  function Zeros(n: nat): Numeral {
    seq(n, _ => 0)
  }

  /** The same number, with the same count of leading zeros, in another base. */
  function Rewrite(s: Numeral, from: nat, to: nat): (t: Numeral)
    requires to >= 2
    ensures InBase(t, to)
  {
    Zeros(LeadingZeros(s)) + Shortest(Value(s, from), to)
  }

  lemma ValueOfZeros(z: nat, b: nat)
    ensures Value(Zeros(z), b) == 0
  {
    if z > 0 {
      assert Zeros(z)[..z - 1] == Zeros(z - 1);
      ValueOfZeros(z - 1, b);
    }
  }

  lemma {:induction false} LeadingZerosAddNothing(z: nat, s: Numeral, b: nat)
    ensures Value(Zeros(z) + s, b) == Value(s, b)
    decreases |s|
  {
    var t := Zeros(z) + s;
    if s == [] {
      assert t == Zeros(z);
      ValueOfZeros(z, b);
    } else {
      assert t[..|t| - 1] == Zeros(z) + s[..|s| - 1];
      LeadingZerosAddNothing(z, s[..|s| - 1], b);
    }
  }

  lemma MultipleIsFar(k: int, b: nat)
    ensures k >= 1 ==> k * b >= b
    ensures k <= -1 ==> k * b <= -(b as int)
  {
    if k >= 1 {
      assert (k - 1) * b >= 0;
    } else if k <= -1 {
      assert (-1 - k) * b >= 0;
    }
  }

  /** Euclidean division undoes one step of Value. */
  lemma LastDigit(q: nat, b: nat, d: nat)
    requires d < b
    ensures (q * b + d) / b == q && (q * b + d) % b == d
  {
    var n := q * b + d;
    var k: int := n / b;
    assert n == k * b + n % b;
    assert (q - k) * b == n % b - d;
    MultipleIsFar(q - k, b);
  }

  lemma {:induction false} PositiveValue(s: Numeral, b: nat)
    requires NoLeadingZero(s) && s != [] && b >= 2
    ensures Value(s, b) > 0
    decreases |s|
  {
    if |s| > 1 {
      PositiveValue(s[..|s| - 1], b);
    }
  }

  /** A numeral without leading zeros is determined by its value. */
  lemma {:induction false} ShortestOfValue(s: Numeral, b: nat)
    requires b >= 2 && InBase(s, b) && NoLeadingZero(s)
    ensures Shortest(Value(s, b), b) == s
    decreases |s|
  {
    if s != [] {
      var front, d := s[..|s| - 1], s[|s| - 1];
      ShortestOfValue(front, b);
      LastDigit(Value(front, b), b, d);
      PositiveValue(s, b);
      assert s == front + [d];
    }
  }

  lemma {:induction false} LeadingZerosOf(z: nat, s: Numeral)
    requires NoLeadingZero(s)
    ensures LeadingZeros(Zeros(z) + s) == z
  {
    if z == 0 {
      assert Zeros(z) + s == s;
    } else {
      assert (Zeros(z) + s)[1..] == Zeros(z - 1) + s;
      LeadingZerosOf(z - 1, s);
    }
  }

  /** Rewriting back gives the original numeral, for every numeral. */
  lemma RewriteRoundTrip(s: Numeral, a: nat, b: nat)
    requires a >= 2 && b >= 2 && InBase(s, a)
    ensures Rewrite(Rewrite(s, a, b), b, a) == s
  {
    var z := LeadingZeros(s);
    var rest := s[z..];
    assert s == Zeros(z) + rest;
    var digits := Shortest(Value(s, a), b);
    LeadingZerosAddNothing(z, rest, a);
    LeadingZerosAddNothing(z, digits, b);
    LeadingZerosOf(z, digits);
    ShortestOfValue(rest, a);
  }

  // ----- Sizes

  lemma {:induction false} PowPositive(b: nat, e: nat)
    requires b >= 1
    ensures Pow(b, e) >= 1
  {
    if e > 0 {
      PowPositive(b, e - 1);
    }
  }

  lemma {:induction false} PowMonotone(b: nat, e: nat, f: nat)
    requires b >= 1 && e <= f
    ensures Pow(b, e) <= Pow(b, f)
    decreases f - e
  {
    if e < f {
      PowMonotone(b, e, f - 1);
      PowPositive(b, f - 1);
      assert b * Pow(b, f - 1) >= Pow(b, f - 1);
    }
  }

  lemma {:induction false} PowBase(a: nat, b: nat, e: nat)
    requires 1 <= a <= b
    ensures Pow(a, e) <= Pow(b, e)
  {
    if e > 0 {
      PowBase(a, b, e - 1);
      assert a * Pow(a, e - 1) <= b * Pow(b, e - 1) by {
        MulMonotone(a, b, Pow(a, e - 1), Pow(b, e - 1));
      }
    }
  }

  lemma MulMonotone(a: nat, b: nat, x: nat, y: nat)
    requires a <= b && x <= y
    ensures a * x <= b * y
  {
    assert a * x <= a * y;
    assert a * y <= b * y;
  }

  lemma {:induction false} PowAdd(b: nat, e: nat, f: nat)
    ensures Pow(b, e + f) == Pow(b, e) * Pow(b, f)
  {
    if e > 0 {
      PowAdd(b, e - 1, f);
      assert Pow(b, e + f) == b * Pow(b, e - 1 + f);
      MulAssociates(b, Pow(b, e - 1), Pow(b, f));
    }
  }

  lemma MulAssociates(x: nat, y: nat, z: nat)
    ensures x * (y * z) == (x * y) * z
  {
  }

  lemma AppendBelow(v: nat, p: nat, b: nat, d: nat)
    requires v < p && d < b
    ensures v * b + d < b * p
  {
    MulMonotone(b, b, v + 1, p);
    assert b * (v + 1) == v * b + b;
  }

  /** n digits hold the values below b^n, and without a leading zero at least b^(n-1). */
  lemma {:induction false} ValueBelow(s: Numeral, b: nat)
    requires b >= 2 && InBase(s, b)
    ensures Value(s, b) < Pow(b, |s|)
    decreases |s|
  {
    if s != [] {
      var front := s[..|s| - 1];
      ValueBelow(front, b);
      AppendBelow(Value(front, b), Pow(b, |front|), b, s[|s| - 1]);
    }
  }

  lemma {:induction false} ValueAtLeast(s: Numeral, b: nat)
    requires b >= 2 && NoLeadingZero(s) && s != []
    ensures Pow(b, |s| - 1) <= Value(s, b)
    decreases |s|
  {
    var front := s[..|s| - 1];
    if front != [] {
      ValueAtLeast(front, b);
      MulMonotone(Pow(b, |front| - 1), Value(front, b), b, b);
    } else {
      assert Value(front, b) == 0;
    }
  }
}
