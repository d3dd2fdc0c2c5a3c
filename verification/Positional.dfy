/**
 Positional notation in any base, most significant digit first. `big.Int.SetBytes`, `big.Int.Bytes`
 and the `encoding/binary` big-endian integers are its base-256 instances; Base58 strings are base 58.
 */
module Positional {

  function Value(digits: seq<nat>, base: nat): nat
    requires base >= 2
  {
    if digits == [] then 0
    else Value(digits[..|digits| - 1], base) * base + digits[|digits| - 1]
  }

  ghost predicate InBase(digits: seq<nat>, base: nat) {
    forall i :: 0 <= i < |digits| ==> digits[i] < base
  }

  /** The shortest representation: no leading zero, and no digit at all for zero. */
  function Digits(n: nat, base: nat): (digits: seq<nat>)
    requires base >= 2
    ensures InBase(digits, base)
    ensures digits == [] <==> n == 0
    ensures digits != [] ==> digits[0] != 0
  {
    if n == 0 then []
    else
      QuotientShrinks(n, base);
      Digits(n / base, base) + [n % base]
  }

  /** Exactly `width` digits; higher-order digits are dropped, as in a machine word. */
  function Fixed(n: nat, width: nat, base: nat): (digits: seq<nat>)
    requires base >= 2
    ensures |digits| == width
    ensures InBase(digits, base)
  {
    if width == 0 then [] else Fixed(n / base, width - 1, base) + [n % base]
  }

  function Pow(base: nat, exponent: nat): nat {
    if exponent == 0 then 1 else Pow(base, exponent - 1) * base
  }

  lemma QuotientShrinks(n: nat, base: nat)
    requires n > 0 && base >= 2
    ensures 0 <= n / base < n
  {
    var q := n / base;
    assert n == q * base + n % base;
    if q > 0 {
      assert q * base >= q * 2;
    }
  }

  lemma Monotone(a: int, b: int, factor: nat)
    requires a <= b
    ensures a * factor <= b * factor
  {
    assert (b - a) * factor >= 0;
  }

  /** Quotient and remainder are determined by `q * base + d` when `d < base`. */
  lemma DivModUnique(q: nat, d: nat, base: nat)
    requires d < base
    ensures (q * base + d) / base == q
    ensures (q * base + d) % base == d
  {
    var n := q * base + d;
    Division(n, base, n / base, n % base);
    NoOtherQuotient(n, base, q, d, n / base, n % base);
  }

  lemma Division(n: nat, base: nat, q: nat, d: nat)
    requires base > 0 && q == n / base && d == n % base
    ensures n == q * base + d && d < base
  {
  }

  lemma NoOtherQuotient(n: nat, base: nat, q: nat, d: nat, q': nat, d': nat)
    requires n == q * base + d && d < base
    requires n == q' * base + d' && d' < base
    ensures q == q' && d == d'
  {
    if q < q' {
      Monotone(q + 1, q', base);
    } else if q' < q {
      Monotone(q' + 1, q, base);
    }
  }

  lemma QuotientBelow(n: nat, base: nat, bound: nat)
    requires base > 0 && n < bound * base
    ensures n / base < bound
  {
    Division(n, base, n / base, n % base);
    if n / base >= bound {
      Monotone(bound, n / base, base);
    }
  }

  lemma Regroup(high: seq<nat>, d: nat, low: seq<nat>)
    ensures (high + [d]) + low == high + ([d] + low)
  {
  }

  /** One round of repeated division: the remainder is the next higher digit of those found so far. */
  lemma DigitsStep(n: nat, low: seq<nat>, base: nat)
    requires n > 0 && base >= 2
    ensures 0 <= n / base < n
    ensures Digits(n, base) + low == Digits(n / base, base) + ([n % base] + low)
  {
    QuotientShrinks(n, base);
    Regroup(Digits(n / base, base), n % base, low);
  }

  lemma ValueSnoc(front: seq<nat>, last: nat, base: nat)
    requires base >= 2
    ensures Value(front + [last], base) == Value(front, base) * base + last
  {
    assert (front + [last])[..|front|] == front;
  }

  /** A digit weighs the base to the power of the number of digits behind it. */
  lemma {:induction false} ValueJoin(high: seq<nat>, low: seq<nat>, base: nat)
    requires base >= 2
    ensures Value(high + low, base) == Value(high, base) * Pow(base, |low|) + Value(low, base)
  {
    if low == [] {
      assert high + low == high;
    } else {
      var n, last := |low| - 1, low[|low| - 1];
      ValueJoin(high, low[..n], base);
      assert (high + low)[..|high| + n] == high + low[..n];
      Scaled(Value(high, base), Pow(base, n), Value(low[..n], base), base);
    }
  }

  lemma Scaled(a: nat, b: nat, c: nat, base: nat)
    ensures (a * b + c) * base == a * (b * base) + c * base
  {
  }

  lemma {:induction false} ValueOfDigits(n: nat, base: nat)
    requires base >= 2
    ensures Value(Digits(n, base), base) == n
    decreases n
  {
    if n != 0 {
      QuotientShrinks(n, base);
      ValueOfDigits(n / base, base);
      ValueSnoc(Digits(n / base, base), n % base, base);
      Division(n, base, n / base, n % base);
    }
  }

  /** Uniqueness: a representation without leading zeros is the shortest one of its value. */
  lemma {:induction false} DigitsOfValue(digits: seq<nat>, base: nat)
    requires base >= 2 && InBase(digits, base)
    requires digits != [] ==> digits[0] != 0
    ensures Digits(Value(digits, base), base) == digits
  {
    if digits != [] {
      var front, last := digits[..|digits| - 1], digits[|digits| - 1];
      DigitsOfValue(front, base);
      DivModUnique(Value(front, base), last, base);
      assert front == [] ==> Value(digits, base) == last;
      if front != [] {
        assert Value(front, base) != 0;
        assert Value(front, base) * base > 0;
      }
    }
  }

  lemma {:induction false} LeadingZeros(zeros: seq<nat>, digits: seq<nat>, base: nat)
    requires base >= 2
    requires forall i :: 0 <= i < |zeros| ==> zeros[i] == 0
    ensures Value(zeros + digits, base) == Value(digits, base)
  {
    var all := zeros + digits;
    if digits != [] {
      assert all[..|all| - 1] == zeros + digits[..|digits| - 1];
      LeadingZeros(zeros, digits[..|digits| - 1], base);
    } else if zeros != [] {
      assert all == zeros && all[..|all| - 1] == zeros[..|zeros| - 1] + digits;
      LeadingZeros(zeros[..|zeros| - 1], digits, base);
    }
  }

  lemma {:induction false} ValueOfFixed(n: nat, width: nat, base: nat)
    requires base >= 2 && n < Pow(base, width)
    ensures Value(Fixed(n, width, base), base) == n
    decreases width
  {
    if width > 0 {
      hide Fixed, Pow, Value;
      QuotientFits(n, width - 1, base);
      ValueOfFixed(n / base, width - 1, base);
      FixedNext(n, width - 1, base);
      ValueNext(n, Fixed(n / base, width - 1, base), base);
    }
  }

  lemma QuotientFits(n: nat, width: nat, base: nat)
    requires base >= 2 && n < Pow(base, width + 1)
    ensures 0 <= n / base < Pow(base, width) && 0 <= n % base
  {
    QuotientBelow(n, base, Pow(base, width));
    Division(n, base, n / base, n % base);
  }

  lemma ValueNext(n: nat, front: seq<nat>, base: nat)
    requires base >= 2 && Value(front, base) == n / base
    ensures Value(front + [n % base], base) == n
  {
    var v := Value(front, base);
    ValueSnoc(front, n % base, base);
    hide Value;
    Division(n, base, v, n % base);
  }

  lemma FixedNext(n: nat, width: nat, base: nat)
    requires base >= 2
    ensures Fixed(n, width + 1, base) == Fixed(n / base, width, base) + [n % base]
  {
  }

  lemma FixedSnoc(q: nat, d: nat, width: nat, base: nat)
    requires base >= 2 && d < base
    ensures Fixed(q * base + d, width + 1, base) == Fixed(q, width, base) + [d]
  {
    DivModUnique(q, d, base);
  }

  lemma {:induction false} ValueBelowPow(digits: seq<nat>, base: nat)
    requires base >= 2 && InBase(digits, base)
    ensures Value(digits, base) < Pow(base, |digits|)
  {
    if digits != [] {
      var front := digits[..|digits| - 1];
      ValueBelowPow(front, base);
      var v, bound := Value(front, base), Pow(base, |front|);
      Monotone(v + 1, bound, base);
      assert (v + 1) * base == v * base + base;
    }
  }

  /** Fixed-width digits are determined by their value, so equal values mean equal words. */
  lemma {:induction false} FixedOfValue(digits: seq<nat>, base: nat)
    requires base >= 2 && InBase(digits, base)
    ensures Fixed(Value(digits, base), |digits|, base) == digits
  {
    if digits != [] {
      var front, last := digits[..|digits| - 1], digits[|digits| - 1];
      FixedOfValue(front, base);
      FixedSnoc(Value(front, base), last, |front|, base);
    }
  }

  function Leading<T(==)>(s: seq<T>, x: T): (count: nat)
    ensures count <= |s|
    ensures forall i :: 0 <= i < count ==> s[i] == x
    ensures count < |s| ==> s[count] != x
  {
    if s == [] || s[0] != x then 0 else 1 + Leading(s[1..], x)
  }

  lemma {:induction false} LeadingRun<T>(run: seq<T>, tail: seq<T>, x: T)
    requires forall i :: 0 <= i < |run| ==> run[i] == x
    requires tail == [] || tail[0] != x
    ensures Leading(run + tail, x) == |run|
  {
    if run == [] {
      assert run + tail == tail;
    } else {
      assert (run + tail)[1..] == run[1..] + tail;
      LeadingRun(run[1..], tail, x);
    }
  }

  /** What `Convert` is for: the number and the count of leading zeros stay. */
  lemma ConvertDenotes(digits: seq<nat>, from: nat, to: nat)
    requires from >= 2 && to >= 2
    ensures Value(Convert(digits, from, to), to) == Value(digits, from)
    ensures Leading(Convert(digits, from, to), 0) == Leading(digits, 0)
  {
    var z, n := Leading(digits, 0), Value(digits, from);
    var zeros: seq<nat> := seq(z, _ => 0);
    LeadingRun<nat>(zeros, Digits(n, to), 0);
    LeadingZeros(zeros, Digits(n, to), to);
    ValueOfDigits(n, to);
  }

  /** The number and the count of leading zeros determine the digits. */
  lemma SameDigits(a: seq<nat>, b: seq<nat>, base: nat)
    requires base >= 2 && InBase(a, base) && InBase(b, base)
    requires Value(a, base) == Value(b, base) && Leading(a, 0) == Leading(b, 0)
    ensures a == b
  {
    SignificantDigits(a, base);
    SignificantDigits(b, base);
    assert a == a[..Leading(a, 0)] + a[Leading(a, 0)..];
    assert b == b[..Leading(b, 0)] + b[Leading(b, 0)..];
    assert a[..Leading(a, 0)] == b[..Leading(b, 0)];
  }

  lemma SignificantDigits(digits: seq<nat>, base: nat)
    requires base >= 2 && InBase(digits, base)
    ensures digits[Leading(digits, 0)..] == Digits(Value(digits, base), base)
  {
    var z := Leading(digits, 0);
    assert digits == digits[..z] + digits[z..];
    LeadingZeros(digits[..z], digits[z..], base);
    DigitsOfValue(digits[z..], base);
  }

  /** Change of base that keeps the number of leading zeros. */
  function Convert(digits: seq<nat>, from: nat, to: nat): (converted: seq<nat>)
    requires from >= 2 && to >= 2
    ensures InBase(converted, to)
  {
    seq(Leading(digits, 0), _ => 0) + Digits(Value(digits, from), to)
  }

  /** Converting there and back is the identity, between any two bases. */
  lemma ConvertBack(digits: seq<nat>, from: nat, to: nat)
    requires from >= 2 && to >= 2 && InBase(digits, from)
    ensures Convert(Convert(digits, from, to), to, from) == digits
  {
    var converted := Convert(digits, from, to);
    ConvertDenotes(digits, from, to);
    ConvertDenotes(converted, to, from);
    SameDigits(Convert(converted, to, from), digits, from);
  }
}
