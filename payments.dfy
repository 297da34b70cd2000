/**
 * Payment rules of the budgeter: when does a scheduled payment fall on a
 * given day. Calendar dates are modelled as integer day numbers, so that
 * `(date - start).days` is plain subtraction.
 */
module Payments {
  import opened Wrappers

  /** The two exceptions the budgeter's core can raise. */
  datatype Failure =
    | DivisionByZero   // `% self.frequency` on a recurring payment whose frequency is 0
    | MathDomainError  // `math.log(0, 2)` when a payment without a colour has amount 0

  /**
   * A scheduled payment. Amounts are exact integers (cents); a negative
   * amount is an expense, a positive one income. `color` is the optional
   * explicit display colour shared by both kinds.
   */
  datatype Payment =
    | Recurring(description: string, amount: int, color: Option<string>,
                frequency: int, start: int, end: Option<int>)
    | OneTime(description: string, amount: int, color: Option<string>, date: int)

  /**
   * Does payment `p` occur on day `d`? A recurring payment fires strictly
   * after `start`, strictly before `end` when there is one, and on day
   * offsets that are multiples of `frequency`; the modulus is only reached
   * once both date tests have passed, and raises for frequency 0.
   * A one-time payment fires on its own date only.
   */
  function OccursOnDay(p: Payment, d: int): (r: Result<bool, Failure>)
    ensures r.Err? <==> p.Recurring? && p.frequency == 0 && p.start < d && (p.end.None? || d < p.end.value)
    ensures r.Err? ==> r.error == DivisionByZero
    ensures p.OneTime? ==> r == Ok(d == p.date)
    ensures p.Recurring? && d <= p.start ==> r == Ok(false)
    ensures p.Recurring? && p.end.Some? && p.end.value <= d ==> r == Ok(false)
    ensures p.Recurring? && p.end.Some? && p.end.value <= p.start ==> r == Ok(false)
  {
    match p
    case OneTime(_, _, _, date) => Ok(date == d)
    case Recurring(_, _, _, frequency, start, end) =>
      if !(d > start) then Ok(false)
      else if end.Some? && !(d < end.value) then Ok(false)
      else if frequency == 0 then Err(DivisionByZero)
      else Ok((d - start) % frequency == 0)
  }

  /** `p` occurs on `d` without raising. */
  predicate Fires(p: Payment, d: int) {
    OccursOnDay(p, d) == Ok(true)
  }

  /** The day of the `k`-th period after a recurring payment's start. */
  function Occurrence(start: int, frequency: int, k: int): int {
    start + k * frequency
  }

  function Abs(x: int): nat {
    if x < 0 then -x else x
  }

  lemma {:induction false} ProductAtLeast(m: nat, f: nat)
    requires m >= 1
    ensures m * f >= f
  {
    if m > 1 {
      ProductAtLeast(m - 1, f);
      assert m * f == (m - 1) * f + f;
    }
  }

  /** A nonzero multiple of `f` is at least as large as `f` in magnitude. */
  lemma NonzeroMultiple(m: int, f: int)
    requires m != 0
    ensures Abs(m * f) >= Abs(f)
  {
    ProductAtLeast(Abs(m), Abs(f));
    assert Abs(m * f) == Abs(m) * Abs(f) by {
      if m < 0 && f < 0 { assert m * f == (-m) * (-f); }
      else if m < 0 { assert m * f == -((-m) * f); }
      else if f < 0 { assert m * f == -(m * (-f)); }
    }
  }

  /** Euclidean division is unique: a multiple of `f` leaves remainder 0. */
  lemma DivisibleHasNoRemainder(x: int, q: int, f: int)
    requires f != 0 && x == q * f
    ensures x % f == 0
  {
    var q', r' := x / f, x % f;
    assert x == q' * f + r';
    if q != q' {
      assert (q - q') * f == r' by {
        assert q * f - q' * f == (q - q') * f;
      }
      NonzeroMultiple(q - q', f);
      assert false;
    }
  }

  /**
   * Within its end bound, a recurring payment with a positive frequency
   * fires on `d` exactly when `d` is a whole positive number of periods
   * after its start.
   */
  lemma RecurringFiresOnMultiples(p: Payment, d: int)
    requires p.Recurring? && p.frequency >= 1
    requires p.end.None? || d < p.end.value
    ensures Fires(p, d) <==> exists k :: k >= 1 && d == Occurrence(p.start, p.frequency, k)
  {
    var x := d - p.start;
    if Fires(p, d) {
      var k := x / p.frequency;
      assert x == k * p.frequency + x % p.frequency;
      assert k >= 1;
      assert d == Occurrence(p.start, p.frequency, k);
    }
    if exists k :: k >= 1 && d == Occurrence(p.start, p.frequency, k) {
      var k :| k >= 1 && d == Occurrence(p.start, p.frequency, k);
      DivisibleHasNoRemainder(x, k, p.frequency);
    }
  }

  /**
   * A negative frequency behaves as its absolute value: only divisibility is
   * tested, and Python's floored `%` and Dafny's Euclidean `%` agree on it.
   */
  lemma NegatedFrequency(p: Payment, d: int)
    requires p.Recurring?
    ensures OccursOnDay(p, d) == OccursOnDay(p.(frequency := -p.frequency), d)
  {
    var x := d - p.start;
    var f := p.frequency;
    if f != 0 && x > 0 {
      if x % f == 0 {
        assert x == (x / f) * f;
        assert x == (-(x / f)) * (-f);
        DivisibleHasNoRemainder(x, -(x / f), -f);
      }
      if x % (-f) == 0 {
        assert x == (x / (-f)) * (-f);
        assert x == (-(x / (-f))) * f;
        DivisibleHasNoRemainder(x, -(x / (-f)), f);
      }
    }
  }
}
