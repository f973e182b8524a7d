# simple-python-app in Dafny

A model of the application logic in `src/myapp/app.py` of a small demonstration
program for a Jenkins pipeline: a stateless calculator, a greeting service that
holds a name, and three list utilities. Every operation of that file is total
and deterministic once the clock is taken away, so the model is written as
datatypes, functions and lemmas in four modules:

- `Outcome` (`outcome.dfy`): `Result<T> = Success(value) | Failure(error)` with
  `Error = ValueError(message)`, standing for Python's `raise ValueError(...)`.
- `Calculator` (`calculator.dfy`): `Add`, `Subtract`, `Multiply`, `Divide` on
  exact reals. `Divide` fails with `ValueError("Cannot divide by zero")` exactly
  when the divisor is zero.
- `Greeting` (`greeting.dfy`): the datatype `GreetingService(name := "World")`;
  its `name` is set once and never reassigned, so the service is a value.
  `GetGreeting` builds `"Hello " + name + " from Jenkins Pipeline!"`, and
  `ParseGreeting` is its inverse. `IsWeekend` takes the weekday index of the date
  (Monday = 0 ... Sunday = 6, as `date.weekday()` numbers days) and is checked
  against an independent `Day` enumeration.
- `ListUtils` (`list_utils.dfy`): `FilterEven` (the list comprehension),
  `FindMax` (built on `MaxOf`, a left scan like Python's `max`) and
  `CalculateAverage` (`Sum(xs) / |xs|`). The last two fail with
  `ValueError("List cannot be empty")` exactly on the empty list. Sequences are
  values, so none of these can change its input.

## Model

| member | source | states |
|---|---|---|
| Calculator.Divide | src/myapp/app.py:24-28 | fails exactly when `b == 0`, with the message "Cannot divide by zero"; otherwise the quotient multiplied by `b` gives back `a` |
| Calculator.AddCommutative | src/myapp/app.py:12-14 | `add(a, b) == add(b, a)` |
| Calculator.MultiplyCommutative | src/myapp/app.py:20-22 | `multiply(a, b) == multiply(b, a)` |
| Calculator.SubtractAntisymmetric | src/myapp/app.py:16-18 | `subtract(a, b) == -subtract(b, a)` |
| Calculator.SubtractUndoesAdd | src/myapp/app.py:12-18 | subtracting `b` after adding `b` gives back `a` |
| Calculator.DivideUndoesMultiply | src/myapp/app.py:20-28 | for `b != 0`, dividing `a * b` by `b` succeeds with `a` |
| Calculator.DivideByZeroFails | src/myapp/app.py:26-27 | for every dividend, a zero divisor raises the same `ValueError` |
| Calculator.CalculatorExamples | tests/test_app.py:17-42 | the sums, differences, products and quotients the calculator tests expect, including `7 / 2 == 3.5` |
| Greeting.GetGreeting | src/myapp/app.py:37-39 | the greeting is the name with the prefix "Hello " before it and the suffix " from Jenkins Pipeline!" after it, and nothing else |
| Greeting.ParseGetGreeting | src/myapp/app.py:37-39 | parsing a service's greeting gives back its name |
| Greeting.GetGreetingOfParsed | src/myapp/app.py:37-39 | every text that parses as a greeting is the greeting of the parsed name |
| Greeting.GetGreetingInjective | src/myapp/app.py:37-39 | two services with the same greeting have the same name |
| Greeting.GreetingExamples | src/myapp/app.py:34-39 | the default-constructed service is named "World" and greets "Hello World from Jenkins Pipeline!"; the name "Jenkins" gives "Hello Jenkins from Jenkins Pipeline!" |
| Greeting.DayOf | src/myapp/app.py:49 | the weekday index of the day an index stands for is that index |
| Greeting.DayOfIndexOf | src/myapp/app.py:49 | the day of a day's weekday index is that day, so indices and days correspond one to one |
| Greeting.IsWeekend | src/myapp/app.py:45-49 | true exactly when the weekday index stands for Saturday or Sunday, whatever the name |
| Greeting.IsWeekendExamples | tests/test_app.py:70-81 | Monday is not a weekend day; Saturday and Sunday are |
| ListUtils.FilterEven | src/myapp/app.py:55-58 | every element of the result is even |
| ListUtils.FilterEvenSubsequence | src/myapp/app.py:58 | the result is an order-preserving subsequence of the input |
| ListUtils.FilterEvenCounts | src/myapp/app.py:58 | each even value occurs in the result as often as in the input, and no odd value occurs |
| ListUtils.FilterEvenKeepsEvens | src/myapp/app.py:58 | every even element of the input is in the result |
| ListUtils.FilterEvenCharacterized | src/myapp/app.py:58 | a list is the filter's result if and only if it is an all-even subsequence of the input holding each even value as often as the input |
| ListUtils.FilterEvenOfAllEven | src/myapp/app.py:58 | an all-even list passes unchanged |
| ListUtils.FilterEvenIdempotent | src/myapp/app.py:58 | filtering twice equals filtering once |
| ListUtils.FilterEvenOfAllOdd | src/myapp/app.py:58 | a list without even numbers filters to the empty list |
| ListUtils.FilterEvenAppend | src/myapp/app.py:58 | filtering a concatenation is concatenating the filtered parts |
| ListUtils.FilterEvenExamples | tests/test_app.py:93-100 | the empty list and `[1, 3, 5]` filter to `[]`; `[2, 4, 6]` filters to itself |
| ListUtils.FilterEvenOneToTen | tests/test_app.py:89-91 | `[1, ..., 10]` filters to `[2, 4, 6, 8, 10]` |
| ListUtils.MaxOf | src/myapp/app.py:65 | the maximum of a non-empty list is one of its elements and no element exceeds it |
| ListUtils.FindMax | src/myapp/app.py:60-65 | fails with "List cannot be empty" exactly on the empty list; otherwise returns an element that no element exceeds |
| ListUtils.CalculateAverage | src/myapp/app.py:67-72 | fails with "List cannot be empty" exactly on the empty list; otherwise returns the value that, counted once per element, adds up to the sum |
| ListUtils.AverageBounded | src/myapp/app.py:72 | the average lies between any lower and any upper bound of the elements |
| ListUtils.AverageAtMostMax | src/myapp/app.py:61-72 | the average of a non-empty list never exceeds its maximum |
| ListUtils.ListExamples | tests/test_app.py:102-124 | the maxima and averages the tests expect, e.g. the average of `[2, 4, 6]` is 4 and of `[1, 2, 3, 4, 5]` is 3, and both operations fail on `[]` |

## Left out

- `GreetingService.get_current_time` (src/myapp/app.py:41-43): it reads the system clock and formats it with `strftime`; neither is deterministic nor visible.
- The clock in `is_weekend`: the `date.today()` default and the calendar computation of `date.weekday()` are library calls; the model takes the weekday index they produce as its input.
- `main()` (src/myapp/app.py:75-98) only prints a demonstration; `src/myapp/cli.py` is argument parsing, printing and exit codes around the calculator and greeting service, and is not part of this model.
- Floating point: operands and list elements are exact reals (integers for `filter_even_numbers`, as its annotation says), so rounding, infinities, NaN and the int-versus-float type of a result are not modelled, nor is the `OverflowError` Python raises when an integer too large for a float is combined with a float or goes through true division (for example `divide(10**400, 1)`, `add(10**400, 0.5)` or `calculate_average([10**400, 1])`); on those inputs the model returns a value.
- Input non-mutation of the list utilities: it holds by construction, since Dafny sequences are values; no member states it separately.
