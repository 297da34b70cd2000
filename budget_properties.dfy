/**
 * What the simulation pass guarantees: the shape of the two daily series,
 * the order and contents of the event log, and conservation of the balance.
 */
module BudgetProperties {
  import opened Wrappers
  import opened Payments
  import opened Colors
  import opened Budget

  /** Sum of the amounts of `es`. */
  function Total(es: seq<Event>): int
    decreases |es|
  {
    if es == [] then 0 else Total(es[..|es| - 1]) + es[|es| - 1].amount
  }

  /**
   * The events of `es` dated strictly before `d`, in order. An event is dated
   * the day before its payment's day, so these are the events of the days up
   * to and including `d`.
   */
  function Before(es: seq<Event>, d: int): seq<Event>
    decreases |es|
  {
    if es == [] then []
    else Before(es[..|es| - 1], d) + (if es[|es| - 1].date < d then [es[|es| - 1]] else [])
  }

  /** The two daily series have one entry per day so far, on consecutive days. */
  ghost predicate Shaped(s: State, startDate: int) {
    && |s.balances| == |s.days|
    && s.date == startDate + |s.days|
    && (forall i :: 0 <= i < |s.days| ==> s.days[i] == startDate + i)
  }

  /** The running balance and each event's snapshot account for all earlier events. */
  ghost predicate Conserved(s: State, startBalance: int) {
    && s.balance == startBalance + Total(s.events)
    && (forall k :: 0 <= k < |s.events| ==> s.events[k].balanceBefore == startBalance + Total(s.events[..k]))
  }

  /** Events are dated within the run so far, in day order. */
  ghost predicate Ordered(s: State, startDate: int) {
    && (forall k :: 0 <= k < |s.events| ==> startDate - 1 <= s.events[k].date < s.date)
    && (forall k, l :: 0 <= k < l < |s.events| ==> s.events[k].date <= s.events[l].date)
  }

  /** Each daily balance accounts for the events up to and including its day. */
  ghost predicate DailyConserved(s: State, startDate: int, startBalance: int) {
    forall i :: 0 <= i < |s.balances| ==> s.balances[i] == startBalance + Total(Before(s.events, startDate + i))
  }

  /** The invariant the pass keeps, from the start of the run. */
  ghost predicate Consistent(s: State, startDate: int, startBalance: int) {
    Shaped(s, startDate) && Conserved(s, startBalance) && Ordered(s, startDate)
    && DailyConserved(s, startDate, startBalance)
  }

  lemma TotalAppend(es: seq<Event>, e: Event)
    ensures Total(es + [e]) == Total(es) + e.amount
  {
    assert (es + [e])[..|es|] == es;
  }

  lemma BeforeAppend(es: seq<Event>, e: Event, d: int)
    ensures Before(es + [e], d) == Before(es, d) + (if e.date < d then [e] else [])
  {
    assert (es + [e])[..|es|] == es;
  }

  lemma {:induction false} BeforeAll(es: seq<Event>, d: int)
    requires forall k :: 0 <= k < |es| ==> es[k].date < d
    ensures Before(es, d) == es
    decreases |es|
  {
    if es != [] {
      BeforeAll(es[..|es| - 1], d);
    }
  }

  lemma LogEventConserved(s: State, e: Event, startBalance: int)
    requires Conserved(s, startBalance) && e.balanceBefore == s.balance
    ensures Conserved(s.(events := s.events + [e], balance := s.balance + e.amount), startBalance)
  {
    var t := s.(events := s.events + [e], balance := s.balance + e.amount);
    TotalAppend(s.events, e);
    assert t.events[..|s.events|] == s.events;
    forall k | 0 <= k < |t.events|
      ensures t.events[k].balanceBefore == startBalance + Total(t.events[..k])
    {
      if k < |s.events| {
        assert t.events[..k] == s.events[..k];
      }
    }
  }

  lemma LogEventDailyConserved(s: State, e: Event, startDate: int, startBalance: int)
    requires DailyConserved(s, startDate, startBalance) && Shaped(s, startDate) && e.date == s.date - 1
    ensures DailyConserved(s.(events := s.events + [e], balance := s.balance + e.amount), startDate, startBalance)
  {
    var t := s.(events := s.events + [e], balance := s.balance + e.amount);
    forall i | 0 <= i < |t.balances|
      ensures t.balances[i] == startBalance + Total(Before(t.events, startDate + i))
    {
      assert s.balances[i] == startBalance + Total(Before(s.events, startDate + i));
      assert !(e.date < startDate + i);
      BeforeAppend(s.events, e, startDate + i);
      assert Before(t.events, startDate + i) == Before(s.events, startDate + i);
    }
  }

  /** Logging an event dated the previous day, with the current balance, keeps the invariant. */
  lemma LogEventKeeps(s: State, e: Event, startDate: int, startBalance: int)
    requires Consistent(s, startDate, startBalance)
    requires e.date == s.date - 1 && e.balanceBefore == s.balance
    ensures Consistent(s.(events := s.events + [e], balance := s.balance + e.amount), startDate, startBalance)
  {
    var t := s.(events := s.events + [e], balance := s.balance + e.amount);
    assert Shaped(t, startDate);
    LogEventConserved(s, e, startBalance);
    assert Ordered(t, startDate) by {
      forall k | 0 <= k < |t.events| ensures startDate - 1 <= t.events[k].date < t.date {
        if k < |s.events| { assert t.events[k] == s.events[k]; }
      }
      forall k, l | 0 <= k < l < |t.events| ensures t.events[k].date <= t.events[l].date {
        if l < |s.events| { assert t.events[k] == s.events[k] && t.events[l] == s.events[l]; }
        else { assert t.events[k] == s.events[k]; }
      }
    }
    LogEventDailyConserved(s, e, startDate, startBalance);
  }

  lemma ApplyPaymentKeeps(s: State, p: Payment, intensity: int -> Channel, startDate: int, startBalance: int)
    requires Consistent(s, startDate, startBalance)
    requires ApplyPayment(s, p, intensity).Ok?
    ensures var t := ApplyPayment(s, p, intensity).value;
      && Consistent(t, startDate, startBalance)
      && t.balances == s.balances && t.days == s.days && t.date == s.date
  {
    if OccursOnDay(p, s.date) == Ok(true) {
      var color := GetColor(p, intensity).value;
      var e := Event(s.date - 1, s.balance, p.description, color, p.amount);
      assert ApplyPayment(s, p, intensity).value == s.(events := s.events + [e], balance := s.balance + e.amount);
      LogEventKeeps(s, e, startDate, startBalance);
    } else {
      assert ApplyPayment(s, p, intensity).value == s;
    }
  }

  lemma {:induction false} ApplyPaymentsKeeps(s: State, ps: seq<Payment>, intensity: int -> Channel,
                                              startDate: int, startBalance: int)
    requires Consistent(s, startDate, startBalance)
    requires ApplyPayments(s, ps, intensity).Ok?
    ensures var t := ApplyPayments(s, ps, intensity).value;
      && Consistent(t, startDate, startBalance)
      && t.balances == s.balances && t.days == s.days && t.date == s.date
    decreases |ps|
  {
    if ps != [] {
      var init := ps[..|ps| - 1];
      ApplyPaymentsKeeps(s, init, intensity, startDate, startBalance);
      ApplyPaymentKeeps(ApplyPayments(s, init, intensity).value, ps[|ps| - 1], intensity, startDate, startBalance);
    }
  }

  lemma EndOfDayDailyConserved(s: State, startDate: int, startBalance: int)
    requires Shaped(s, startDate) && Conserved(s, startBalance) && Ordered(s, startDate)
    requires DailyConserved(s, startDate, startBalance)
    ensures DailyConserved(EndOfDay(s), startDate, startBalance)
  {
    var t := EndOfDay(s);
    BeforeAll(s.events, s.date);
    forall i | 0 <= i < |t.balances|
      ensures t.balances[i] == startBalance + Total(Before(t.events, startDate + i))
    {
      if i < |s.balances| {
        assert t.balances[i] == s.balances[i];
      } else {
        assert startDate + i == s.date;
      }
    }
  }

  lemma EndOfDayKeeps(s: State, startDate: int, startBalance: int)
    requires Consistent(s, startDate, startBalance)
    ensures Consistent(EndOfDay(s), startDate, startBalance)
  {
    var t := EndOfDay(s);
    assert Shaped(t, startDate) by {
      forall i | 0 <= i < |t.days| ensures t.days[i] == startDate + i {
        if i < |s.days| { assert t.days[i] == s.days[i]; }
      }
    }
    assert Conserved(t, startBalance);
    assert Ordered(t, startDate);
    EndOfDayDailyConserved(s, startDate, startBalance);
  }

  /** Every state the pass reaches after `n` days satisfies the invariant. */
  lemma {:induction false} SimulateKeeps(ps: seq<Payment>, startDate: int, startBalance: int, n: nat,
                                         intensity: int -> Channel)
    requires Simulate(ps, startDate, startBalance, n, intensity).Ok?
    ensures Consistent(Simulate(ps, startDate, startBalance, n, intensity).value, startDate, startBalance)
    ensures |Simulate(ps, startDate, startBalance, n, intensity).value.days| == n
  {
    if n > 0 {
      SimulateKeeps(ps, startDate, startBalance, n - 1, intensity);
      var t := Simulate(ps, startDate, startBalance, n - 1, intensity).value;
      ApplyPaymentsKeeps(t, ps, intensity, startDate, startBalance);
      EndOfDayKeeps(ApplyPayments(t, ps, intensity).value, startDate, startBalance);
    }
  }

  /**
   * A run of `n` days yields `n` balances and `n` consecutive days starting
   * at `startDate`, and ends on `startDate + n`.
   */
  lemma SeriesShape(ps: seq<Payment>, startDate: int, startBalance: int, n: nat, intensity: int -> Channel)
    requires Simulate(ps, startDate, startBalance, n, intensity).Ok?
    ensures var s := Simulate(ps, startDate, startBalance, n, intensity).value;
      && |s.balances| == n && |s.days| == n
      && (forall i :: 0 <= i < n ==> s.days[i] == startDate + i)
      && s.date == startDate + n
  {
    SimulateKeeps(ps, startDate, startBalance, n, intensity);
  }

  /**
   * Each event records the balance just before its payment: the starting
   * balance plus the amounts of all earlier events. The running balance, and
   * so the last daily entry, is the starting balance plus all event amounts.
   */
  lemma BalanceConservation(ps: seq<Payment>, startDate: int, startBalance: int, n: nat, intensity: int -> Channel)
    requires Simulate(ps, startDate, startBalance, n, intensity).Ok?
    ensures var s := Simulate(ps, startDate, startBalance, n, intensity).value;
      && (forall k :: 0 <= k < |s.events| ==> s.events[k].balanceBefore == startBalance + Total(s.events[..k]))
      && s.balance == startBalance + Total(s.events)
      && |s.balances| == n
      && (n > 0 ==> s.balances[n - 1] == startBalance + Total(s.events))
  {
    SimulateKeeps(ps, startDate, startBalance, n, intensity);
    if n > 0 {
      SimulateKeeps(ps, startDate, startBalance, n - 1, intensity);
      var t := Simulate(ps, startDate, startBalance, n - 1, intensity).value;
      ApplyPaymentsKeeps(t, ps, intensity, startDate, startBalance);
    }
  }

  /**
   * Each daily balance is the starting balance plus the amounts of the events
   * of that day and all earlier days.
   */
  lemma DailyConservation(ps: seq<Payment>, startDate: int, startBalance: int, n: nat, intensity: int -> Channel)
    requires Simulate(ps, startDate, startBalance, n, intensity).Ok?
    ensures var s := Simulate(ps, startDate, startBalance, n, intensity).value;
      && |s.balances| == n
      && forall i :: 0 <= i < n ==> s.balances[i] == startBalance + Total(Before(s.events, startDate + i))
  {
    SimulateKeeps(ps, startDate, startBalance, n, intensity);
  }

  /**
   * Events appear in day order, each dated the day before a simulated day,
   * i.e. within `startDate - 1 .. startDate + n - 2`.
   */
  lemma EventsInDayOrder(ps: seq<Payment>, startDate: int, startBalance: int, n: nat, intensity: int -> Channel)
    requires Simulate(ps, startDate, startBalance, n, intensity).Ok?
    ensures var s := Simulate(ps, startDate, startBalance, n, intensity).value;
      && (forall k :: 0 <= k < |s.events| ==> startDate - 1 <= s.events[k].date <= startDate + n - 2)
      && (forall k, l :: 0 <= k < l < |s.events| ==> s.events[k].date <= s.events[l].date)
  {
    SimulateKeeps(ps, startDate, startBalance, n, intensity);
    if n > 0 {
      SimulateKeeps(ps, startDate, startBalance, n - 1, intensity);
      var t := Simulate(ps, startDate, startBalance, n - 1, intensity).value;
      ApplyPaymentsKeeps(t, ps, intensity, startDate, startBalance);
    }
  }

  /** A payment due on a day, independently of balances. */
  datatype Firing = Firing(day: int, payment: Payment)

  /** The payments of `ps` that occur on day `d`, in list order. */
  function DayFirings(ps: seq<Payment>, d: int): seq<Firing>
    decreases |ps|
  {
    if ps == [] then []
    else DayFirings(ps[..|ps| - 1], d) + (if Fires(ps[|ps| - 1], d) then [Firing(d, ps[|ps| - 1])] else [])
  }

  /** Day by day from `startDate`, the payments that occur over `n` days. */
  function Schedule(ps: seq<Payment>, startDate: int, n: nat): seq<Firing> {
    if n == 0 then [] else Schedule(ps, startDate, n - 1) + DayFirings(ps, startDate + n - 1)
  }

  /** Event `e` is the one logged for firing `f`. */
  predicate Matches(e: Event, f: Firing, intensity: int -> Channel) {
    && e.date == f.day - 1
    && e.description == f.payment.description
    && e.amount == f.payment.amount
    && GetColor(f.payment, intensity) == Ok(e.color)
  }

  predicate Agrees(es: seq<Event>, fs: seq<Firing>, intensity: int -> Channel) {
    |es| == |fs| && forall k :: 0 <= k < |es| ==> Matches(es[k], fs[k], intensity)
  }

  lemma AgreesConcat(a: seq<Event>, b: seq<Event>, f: seq<Firing>, g: seq<Firing>, intensity: int -> Channel)
    requires Agrees(a, f, intensity) && Agrees(b, g, intensity)
    ensures Agrees(a + b, f + g, intensity)
  {
    forall k | 0 <= k < |a + b| ensures Matches((a + b)[k], (f + g)[k], intensity) {
      if k >= |a| { assert (a + b)[k] == b[k - |a|] && (f + g)[k] == g[k - |a|]; }
    }
  }

  /** One day's pass logs exactly that day's firings, after the events already logged. */
  lemma {:induction false} DayFollowsFirings(s: State, ps: seq<Payment>, intensity: int -> Channel)
    requires ApplyPayments(s, ps, intensity).Ok?
    ensures var u := ApplyPayments(s, ps, intensity).value;
      && u.date == s.date
      && |s.events| <= |u.events| && u.events[..|s.events|] == s.events
      && Agrees(u.events[|s.events|..], DayFirings(ps, s.date), intensity)
    decreases |ps|
  {
    if ps != [] {
      var init, p := ps[..|ps| - 1], ps[|ps| - 1];
      DayFollowsFirings(s, init, intensity);
      var v := ApplyPayments(s, init, intensity).value;
      var u := ApplyPayments(s, ps, intensity).value;
      assert u == ApplyPayment(v, p, intensity).value;
      if Fires(p, s.date) {
        var e := Event(s.date - 1, v.balance, p.description, GetColor(p, intensity).value, p.amount);
        assert u.events == v.events + [e];
        assert u.events[|s.events|..] == v.events[|s.events|..] + [e];
        AgreesConcat(v.events[|s.events|..], [e], DayFirings(init, s.date), [Firing(s.date, p)], intensity);
      } else {
        assert u == v;
      }
    }
  }

  lemma {:induction false} SimulateDate(ps: seq<Payment>, startDate: int, startBalance: int, n: nat,
                                        intensity: int -> Channel)
    requires Simulate(ps, startDate, startBalance, n, intensity).Ok?
    ensures Simulate(ps, startDate, startBalance, n, intensity).value.date == startDate + n
  {
    if n > 0 {
      SimulateDate(ps, startDate, startBalance, n - 1, intensity);
      DayFollowsFirings(Simulate(ps, startDate, startBalance, n - 1, intensity).value, ps, intensity);
    }
  }

  lemma {:induction false} SimulateFollowsSchedule(ps: seq<Payment>, startDate: int, startBalance: int, n: nat,
                                                   intensity: int -> Channel)
    requires Simulate(ps, startDate, startBalance, n, intensity).Ok?
    ensures Agrees(Simulate(ps, startDate, startBalance, n, intensity).value.events, Schedule(ps, startDate, n), intensity)
  {
    if n > 0 {
      SimulateFollowsSchedule(ps, startDate, startBalance, n - 1, intensity);
      SimulateDate(ps, startDate, startBalance, n - 1, intensity);
      var t := Simulate(ps, startDate, startBalance, n - 1, intensity).value;
      DayFollowsFirings(t, ps, intensity);
      var u := ApplyPayments(t, ps, intensity).value;
      assert Simulate(ps, startDate, startBalance, n, intensity).value.events == u.events;
      assert Schedule(ps, startDate, n) == Schedule(ps, startDate, n - 1) + DayFirings(ps, t.date);
      var tail := u.events[|t.events|..];
      assert u.events == t.events + tail;
      AgreesConcat(t.events, tail, Schedule(ps, startDate, n - 1), DayFirings(ps, t.date), intensity);
    }
  }

  /**
   * The event log lists, day by day and within a day in payment-list order,
   * exactly the payments that occur: event `k` is dated the day before the
   * `k`-th firing's day and carries that payment's description, amount and
   * colour.
   */
  lemma EventsFollowSchedule(ps: seq<Payment>, startDate: int, startBalance: int, n: nat, intensity: int -> Channel)
    requires Simulate(ps, startDate, startBalance, n, intensity).Ok?
    ensures var s := Simulate(ps, startDate, startBalance, n, intensity).value;
      var f := Schedule(ps, startDate, n);
      && |s.events| == |f|
      && forall k :: 0 <= k < |f| ==>
           && s.events[k].date == f[k].day - 1
           && s.events[k].description == f[k].payment.description
           && s.events[k].amount == f[k].payment.amount
           && GetColor(f[k].payment, intensity) == Ok(s.events[k].color)
  {
    SimulateFollowsSchedule(ps, startDate, startBalance, n, intensity);
  }

  /** Within each day the firings are that day's payments, in list order. */
  lemma {:induction false} DayFiringsInOrder(ps: seq<Payment>, d: int)
    ensures forall f :: f in DayFirings(ps, d) ==> f.day == d && f.payment in ps && Fires(f.payment, d)
    ensures forall p :: p in ps && Fires(p, d) ==> Firing(d, p) in DayFirings(ps, d)
    decreases |ps|
  {
    if ps != [] {
      var init := ps[..|ps| - 1];
      DayFiringsInOrder(init, d);
      assert ps == init + [ps[|ps| - 1]];
    }
  }

  /** A one-time payment occurs at most once in any simulated range: once exactly when its date lies in it. */
  lemma {:induction false} OneTimeFiresOnce(p: Payment, startDate: int, n: nat)
    requires p.OneTime?
    ensures |Schedule([p], startDate, n)| == if startDate <= p.date < startDate + n then 1 else 0
  {
    if n > 0 {
      OneTimeFiresOnce(p, startDate, n - 1);
      var d := startDate + n - 1;
      assert [p][..0] == [] && [p][0] == p;
      assert Fires(p, d) <==> d == p.date;
      assert DayFirings([p], d) == if Fires(p, d) then [Firing(d, p)] else [];
    }
  }

  /** The exception that ends a run is raised by a payment of the list that causes it. */
  ghost predicate CausedBy(ps: seq<Payment>, e: Failure) {
    match e
    case DivisionByZero => exists p :: p in ps && p.Recurring? && p.frequency == 0
    case MathDomainError => exists p :: p in ps && !Explicit(p.color) && p.amount == 0
  }

  lemma {:induction false} DayFailureCause(s: State, ps: seq<Payment>, intensity: int -> Channel)
    requires ApplyPayments(s, ps, intensity).Err?
    ensures CausedBy(ps, ApplyPayments(s, ps, intensity).error)
    decreases |ps|
  {
    var init, p := ps[..|ps| - 1], ps[|ps| - 1];
    assert p in ps;
    if ApplyPayments(s, init, intensity).Err? {
      DayFailureCause(s, init, intensity);
      forall q | q in init ensures q in ps { }
    }
  }

  /**
   * A run fails with DivisionByZero only if some recurring payment has
   * frequency 0, and with MathDomainError only if some payment without a
   * colour has amount 0.
   */
  lemma {:induction false} FailureCause(ps: seq<Payment>, startDate: int, startBalance: int, n: nat,
                                        intensity: int -> Channel)
    requires Simulate(ps, startDate, startBalance, n, intensity).Err?
    ensures CausedBy(ps, Simulate(ps, startDate, startBalance, n, intensity).error)
  {
    if Simulate(ps, startDate, startBalance, n - 1, intensity).Err? {
      FailureCause(ps, startDate, startBalance, n - 1, intensity);
    } else {
      DayFailureCause(Simulate(ps, startDate, startBalance, n - 1, intensity).value, ps, intensity);
    }
  }

  /**
   * Two payments due the same day, an expense of 50 then income of 200:
   * both are logged on the same date, the second with the balance already
   * reduced by the first.
   */
  lemma SameDayStaggered(d: int, b: int, intensity: int -> Channel)
    ensures var ps := [OneTime("groceries", -50, Some("red"), d), OneTime("salary", 200, Some("green"), d)];
      Simulate(ps, d, b, 1, intensity)
      == Ok(State([b + 150], [d], [Event(d - 1, b, "groceries", "red", -50), Event(d - 1, b - 50, "salary", "green", 200)],
                  b + 150, d + 1))
  {
    var ps := [OneTime("groceries", -50, Some("red"), d), OneTime("salary", 200, Some("green"), d)];
    assert ps[..1] == [ps[0]] && ps[..1][..0] == [];
    var s0 := Initial(d, b);
    var e0 := Event(d - 1, b, "groceries", "red", -50);
    var s1 := s0.(events := s0.events + [e0], balance := b - 50);
    assert Explicit(ps[0].color) && GetColor(ps[0], intensity) == Ok("red");
    assert OccursOnDay(ps[0], d) == Ok(true);
    var s2 := s1.(events := s1.events + [Event(d - 1, b - 50, "salary", "green", 200)], balance := b + 150);
    assert ApplyPayments(s0, ps[..0], intensity) == Ok(s0);
    assert ApplyPayment(s0, ps[0], intensity) == Ok(s1);
    assert ApplyPayments(s0, ps[..1], intensity) == Ok(s1);
    assert ApplyPayment(s1, ps[1], intensity) == Ok(s2);
    assert ApplyPayments(s0, ps, intensity) == Ok(s2);
    assert s0.events + [e0] == [e0];
    assert Simulate(ps, d, b, 1, intensity) == Ok(EndOfDay(s2));
    assert s2.balances + [s2.balance] == [b + 150] && s2.days + [s2.date] == [d];
    assert s2.events == [e0, Event(d - 1, b - 50, "salary", "green", 200)];
  }
}
