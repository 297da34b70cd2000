# Budgeter core, modelled in Dafny

The budgeter projects a personal cash balance over a fixed horizon. It takes a
list of scheduled payments, either recurring (every `frequency` days after a
start date, optionally until an end date) or one-time (on one date). It walks
forward day by day from a starting date and balance. On each day it applies
every payment that occurs, in list order. For each payment applied it logs a
plot point: the previous day, the balance just before that payment, its
description, its colour and its amount. At the end of each day it records the
balance and the date.

The model has five modules:

- `Wrappers` (`wrappers.dfy`): `Option` and `Result`.
- `Payments` (`payments.dfy`): the `Payment` datatype with constructors
  `Recurring` and `OneTime`, `OccursOnDay`, and the two exceptions the core
  can raise (`Failure`).
- `Colors` (`colors.dfy`): `pad_with_zero`, `rgb_to_hex` (with Python's
  `hex(n)[2:]` written out as `ToHex`), `get_color`, and a reader `ParseRgb`
  that turns `#rrggbb` back into channels.
- `Budget` (`budget.dfy`): the simulation pass. It is given as specification
  functions (`ApplyPayment`, `ApplyPayments`, `EndOfDay`, `Simulate`) and as
  the imperative loops `PayDay` (the inner loop over payments) and
  `RunBudget` (the outer loop over days). Both loops are proved equal to
  the functions.
- `BudgetProperties` (`budget_properties.dfy`): what a run guarantees. This
  covers the series shape, balance conservation, event order, agreement with
  an independent schedule of due payments, and failure causes.

Modelling choices:

- Dates are integer day numbers. `(date - start).days` is subtraction and
  `timedelta(days=1)` is `+ 1`.
- Amounts are exact integers (cents), so conservation is an exact equality.
- The script's module-level configuration becomes parameters of
  `RunBudget`/`Simulate`: the payment list, the starting date, the starting
  balance and the number of days. The script uses `30 * NUM_MONTHS` days.
- The floating-point intensity `max(0, int(200 - log2(|amount|)**2))` is the
  parameter `intensity: int -> Channel`, where a `Channel` is an integer in
  0..255.
- Exceptions become `Result` values, and a run that raises yields `Err` with no
  partial result. A recurring payment with frequency 0 raises
  `DivisionByZero`. This happens only once both date tests have passed,
  because Python's `and` short-circuits. A payment without a colour whose
  amount is 0 raises `MathDomainError`, from `math.log(0, 2)`.
- `if payment.color` is Python truthiness. An explicit empty string counts as
  no colour (`Explicit`). This follows the code; a prose description of "a
  colour is set" would treat `Some("")` as set, but the code does not.
- The code does not require the frequency to be positive. A negative frequency
  fires on the same days as its absolute value: Python's floored `%` and
  Dafny's Euclidean `%` are both zero exactly on multiples
  (`NegatedFrequency`).

## Model

| member | source | states |
|---|---|---|
| `Payments.OccursOnDay` | budgeter.py:37-62 | A one-time payment occurs exactly on its date. A recurring payment never occurs on or before its start, never on or after its end, and never at all when the end is not after the start. It raises exactly when its frequency is 0 and both date tests pass. |
| `Payments.RecurringFiresOnMultiples` | budgeter.py:37-45 | Within its end bound, a recurring payment with frequency at least 1 occurs on `d` iff `d = start + k * frequency` for some `k >= 1`. |
| `Payments.NegatedFrequency` | budgeter.py:39-44 | Negating a recurring payment's frequency does not change on which days it occurs or whether it raises. |
| `Colors.ToHex` | budgeter.py:86-88 | `hex(n)[2:]` is a lower-case hexadecimal string without leading zeros that reads back as `n`. It has one digit exactly when `n < 16` and at most two exactly when `n < 256`. |
| `Colors.PadWithZero` | budgeter.py:76-80 | The result is the input or "0" followed by the input. It is the input unchanged exactly when the input has at least two characters. |
| `Colors.LeadingZero` | budgeter.py:76-80 | Prepending "0" to a hexadecimal string keeps it hexadecimal and keeps its value. |
| `Colors.PaddedChannel` | budgeter.py:83-89 | For a channel in 0..255, the padded digits are exactly two hexadecimal digits whose value is the channel. |
| `Colors.RgbToHex` | budgeter.py:83-89 | The result starts with "#". For channels in 0..255 it has 7 characters, lower-case hexadecimal digits after the "#", and `ParseRgb` reads it back as the three channels. |
| `Colors.GetColor` | budgeter.py:92-101 | An explicit colour is returned unchanged. Otherwise an expense gets a colour reading back as `(255, v, v)` and income one reading back as `(v, 255, v)`, where `v = intensity(amount)`. It fails (`MathDomainError`) exactly when there is no colour and the amount is 0. |
| `Budget.PayDay` | budgeter.py:110-121 | The inner loop over the payments of one day computes `ApplyPayments`. That is, in list order, each occurring payment gets an event with the previous day and the balance before it, then its amount is added; the first exception ends the pass. |
| `Budget.RunBudget` | budgeter.py:104-124 | The outer loop over `numDays` days computes `Simulate`. That is, each day's payment pass is followed by appending the balance and the date and advancing the date; an exception on any day ends the run with that exception. |
| `BudgetProperties.SeriesShape` | budgeter.py:109-124 | A successful run of `n` days has exactly `n` balances and `n` dates. The dates are `startDate, startDate + 1, ...`, and the current date ends at `startDate + n`. |
| `BudgetProperties.BalanceConservation` | budgeter.py:107-122 | Each event's recorded balance is the starting balance plus the amounts of all earlier events. The running balance, and so the last daily entry, is the starting balance plus the sum of all event amounts. |
| `BudgetProperties.DailyConservation` | budgeter.py:121-122 | The `i`-th daily balance is the starting balance plus the amounts of the events of day `startDate + i` and of all earlier days. |
| `BudgetProperties.EventsInDayOrder` | budgeter.py:109-120 | Event dates do not decrease along the log, and each lies between `startDate - 1` and `startDate + n - 2`. |
| `BudgetProperties.EventsFollowSchedule` | budgeter.py:109-120 | The log has one event per due payment of an independent schedule, which lists day by day, and within a day in payment-list order, the payments that occur. Event `k` is dated the day before the `k`-th due payment's day and carries its description, amount and computed colour. |
| `BudgetProperties.DayFiringsInOrder` | budgeter.py:110-111 | A day's schedule contains exactly the payments of the list that occur that day. |
| `BudgetProperties.OneTimeFiresOnce` | budgeter.py:61-62 | Over `n` days from `startDate`, a one-time payment is due once if its date lies in `startDate .. startDate + n - 1`, and otherwise never. |
| `BudgetProperties.FailureCause` | budgeter.py:109-121 | A run fails with `DivisionByZero` only if some recurring payment has frequency 0. It fails with `MathDomainError` only if some payment without a colour has amount 0. |
| `BudgetProperties.SameDayStaggered` | budgeter.py:110-122 | An expense of 50 and an income of 200 due on the same day (in that order) give two events on the same date. The first records the balance before the day; the second records it reduced by 50. The day closes 150 higher. |

## Left out

- Plotting, scatter points, annotations and the hover callback (budgeter.py:126-179) are user interface over matplotlib.
- The intensity `int(200 - math.log(abs(amount), 2) ** 2)` is floating-point arithmetic. It is the abstract parameter `intensity`; only its range (0..255) and the zero-amount domain error are modelled.
- `datetime.date` construction from `(year, month, day)` tuples, with its calendar validation and `ValueError` for invalid dates (budgeter.py:30, 33, 58), is replaced by integer day numbers.
- The abstract `Payment` base class returning `NotImplemented` (budgeter.py:8-14) is replaced by the two-constructor datatype.
- The module-level configuration (budgeter.py:67-71) is replaced by parameters.
- Amounts are exact integers rather than Python floats, so float rounding in the running balance is not modelled.
- Colors.RgbToHex: only non-negative channels are modelled (`nat`). For negative `n`, `hex(n)[2:]` would give strings like "x5", but the core only ever passes 255 and a value that is at least 0.
- Determinism is not stated as a lemma: `Simulate` is a function, so equal inputs give equal results by construction.
