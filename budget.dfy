/**
 * The budgeter's simulation pass: a day-by-day walk from a starting date and
 * balance that applies every payment occurring on each day, in list order,
 * logging one event per payment applied and one balance per day.
 *
 * The script's module-level configuration (payment list, starting balance,
 * starting date, horizon of `30 * NUM_MONTHS` days) is passed in as
 * parameters; the floating-point colour intensity is the parameter
 * `intensity`.
 */
module Budget {
  import opened Wrappers
  import opened Payments
  import opened Colors

  /**
   * One plotted point: the day before the payment's day, the balance just
   * before the payment is added, and the payment's description, colour and
   * amount.
   */
  datatype Event = Event(date: int, balanceBefore: int, description: string, color: string, amount: int)

  /**
   * The pass's accumulators: the daily balance series, the series of days,
   * the event log, the running balance and the current day.
   */
  datatype State = State(balances: seq<int>, days: seq<int>, events: seq<Event>, balance: int, date: int)

  function Initial(startDate: int, startBalance: int): State {
    State([], [], [], startBalance, startDate)
  }

  /** Apply one payment on the current day: log and add it if it occurs. */
  function ApplyPayment(s: State, p: Payment, intensity: int -> Channel): Result<State, Failure> {
    match OccursOnDay(p, s.date)
    case Err(e) => Err(e)
    case Ok(occurs) =>
      if !occurs then Ok(s)
      else
        match GetColor(p, intensity)
        case Err(e) => Err(e)
        case Ok(color) =>
          var event := Event(s.date - 1, s.balance, p.description, color, p.amount);
          Ok(s.(events := s.events + [event], balance := s.balance + p.amount))
  }

  /** Apply the payments of `ps` on the current day, first to last. */
  function ApplyPayments(s: State, ps: seq<Payment>, intensity: int -> Channel): Result<State, Failure>
    decreases |ps|
  {
    if ps == [] then Ok(s)
    else
      match ApplyPayments(s, ps[..|ps| - 1], intensity)
      case Err(e) => Err(e)
      case Ok(t) => ApplyPayment(t, ps[|ps| - 1], intensity)
  }

  /** Record the day's closing balance and move to the next day. */
  function EndOfDay(s: State): State {
    s.(balances := s.balances + [s.balance], days := s.days + [s.date], date := s.date + 1)
  }

  /** The state after `n` simulated days, or the first exception raised. */
  function Simulate(ps: seq<Payment>, startDate: int, startBalance: int, n: nat, intensity: int -> Channel)
    : Result<State, Failure>
  {
    if n == 0 then Ok(Initial(startDate, startBalance))
    else
      match Simulate(ps, startDate, startBalance, n - 1, intensity)
      case Err(e) => Err(e)
      case Ok(t) =>
        match ApplyPayments(t, ps, intensity)
        case Err(e) => Err(e)
        case Ok(u) => Ok(EndOfDay(u))
  }

  /**
   * One day of the simulation loop: every payment in list order, logging and
   * adding those that occur on the current day.
   */
  method PayDay(s: State, payments: seq<Payment>, intensity: int -> Channel) returns (r: Result<State, Failure>)
    ensures r == ApplyPayments(s, payments, intensity)
  {
    var events, balance := s.events, s.balance;
    var j := 0;
    while j < |payments|
      invariant 0 <= j <= |payments|
      invariant ApplyPayments(s, payments[..j], intensity) == Ok(s.(events := events, balance := balance))
    {
      var payment := payments[j];
      ghost var current := s.(events := events, balance := balance);
      assert payments[..j + 1][..j] == payments[..j];
      assert ApplyPayments(s, payments[..j + 1], intensity) == ApplyPayment(current, payment, intensity);
      var occurs := OccursOnDay(payment, s.date);
      if occurs.Err? {
        FailurePersistsThroughDay(s, payments, j + 1, intensity);
        return Err(occurs.error);
      }
      if occurs.value {
        var color := GetColor(payment, intensity);
        if color.Err? {
          FailurePersistsThroughDay(s, payments, j + 1, intensity);
          return Err(color.error);
        }
        events := events + [Event(s.date - 1, balance, payment.description, color.value, payment.amount)];
        balance := balance + payment.amount;
      }
      j := j + 1;
    }
    assert payments[..|payments|] == payments;
    r := Ok(s.(events := events, balance := balance));
  }

  /**
   * The simulation loop: for each of `numDays` days, the day's payments,
   * then the day's balance and date. An exception ends the run with no
   * result.
   */
  method RunBudget(payments: seq<Payment>, startDate: int, startBalance: int, numDays: nat,
                   intensity: int -> Channel)
    returns (r: Result<State, Failure>)
    ensures r == Simulate(payments, startDate, startBalance, numDays, intensity)
  {
    var s := Initial(startDate, startBalance);
    var i := 0;
    while i < numDays
      invariant 0 <= i <= numDays
      invariant Simulate(payments, startDate, startBalance, i, intensity) == Ok(s)
    {
      var paid := PayDay(s, payments, intensity);
      if paid.Err? {
        FailurePersistsThroughDays(payments, startDate, startBalance, i + 1, numDays, intensity);
        return paid;
      }
      s := paid.value;
      s := s.(balances := s.balances + [s.balance], days := s.days + [s.date], date := s.date + 1);
      i := i + 1;
    }
    r := Ok(s);
  }

  /** An exception raised part-way through a day ends that day's pass. */
  lemma {:induction false} FailurePersistsThroughDay(s: State, ps: seq<Payment>, m: nat, intensity: int -> Channel)
    requires m <= |ps| && ApplyPayments(s, ps[..m], intensity).Err?
    ensures ApplyPayments(s, ps, intensity) == ApplyPayments(s, ps[..m], intensity)
    decreases |ps|
  {
    if m < |ps| {
      var init := ps[..|ps| - 1];
      assert init[..m] == ps[..m];
      FailurePersistsThroughDay(s, init, m, intensity);
    } else {
      assert ps[..m] == ps;
    }
  }

  /** An exception raised on some day ends the whole run. */
  lemma {:induction false} FailurePersistsThroughDays(ps: seq<Payment>, startDate: int, startBalance: int,
                                                      k: nat, n: nat, intensity: int -> Channel)
    requires k <= n && Simulate(ps, startDate, startBalance, k, intensity).Err?
    ensures Simulate(ps, startDate, startBalance, n, intensity) == Simulate(ps, startDate, startBalance, k, intensity)
    decreases n
  {
    if k < n {
      FailurePersistsThroughDays(ps, startDate, startBalance, k, n - 1, intensity);
    }
  }
}
