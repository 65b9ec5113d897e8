# Calculator with operation history — Dafny model

This project models a small C++ library, `calc`, made of two components:

- **InMemoryHistory** is an append-only, unbounded log of strings. `AddEntry` appends an entry. `GetLastOperations(count)` returns the newest `min(count, size)` entries, oldest first.
- **SimpleCalculator** provides `Add`, `Subtract`, `Multiply` and `Divide` on C++ `int`. Each operation returns its result and appends exactly one record `"<a> <op> <b> = <result>"` to the history the calculator was bound to at construction. Numbers are printed in decimal, with a leading `-` for negatives. `Divide` truncates toward zero. `SetHistory` is meant to re-bind the calculator but does nothing, because the binding is a C++ reference, which cannot be re-seated.

The repository's implementation headers (`IHistory.h`, `SimpleCalculator.h`, `InMemoryHistory.h`) are not part of this model. The model follows the behaviour that the test suite `CalculatorTests.cpp` asserts.

Modules:

- `Wrappers` (`wrappers.dfy`): an `Option` type.
- `Decimal` (`decimal.dfy`): int-to-decimal rendering (`IntToString`) and its inverse (`ParseInt`).
- `CInt` (`cint.dfy`): the newtype `int32`, which stands for C++ `int` (the range `MinInt32..MaxInt32`), and C-style truncating division (`TruncDiv`). It is tied to the C++ rule that `(a/b)*b + a%b == a` and that the quotient rounds toward zero.
- `History` (`history.dfy`): `LastN`, a reference definition of "the newest n items" (drop the oldest until at most n remain), and the class `InMemoryHistory`.
- `Calculator` (`calculator.dfy`): the operations `Op` and their symbols (`Symbol`: `+ - * /`), the record format (`Record`), and the class `SimpleCalculator`. It has a `const` reference to its history, and its methods modify only that history.
- `Scenarios` (`scenarios.dfy`): one method per test. Each builds its own fixture objects, except `MultipleOperationsCalledInOrder`, which is the general form of its test: it holds for any calculator and any earlier history, where the test's fixture starts empty. Each postcondition is what the test expects: results, records, and call order. Mock call expectations appear as equalities on the history's `entries`.

## Model

| member | source | states |
|---|---|---|
| `Decimal.NatToString` | CalculatorTests.cpp:104-109 | the rendering of a natural number is a non-empty digit string with no leading zero, and it starts with `0` only for zero |
| `Decimal.IntToString` | CalculatorTests.cpp:55-61 | the rendering of an integer is canonical, and it starts with `-` exactly when the number is negative |
| `Decimal.NatRoundTrip` | CalculatorTests.cpp:104-109 | the digits produced for n denote n |
| `Decimal.CanonicalNatRoundTrip` | CalculatorTests.cpp:104-109 | every canonical digit string is the rendering of the number it denotes |
| `Decimal.IntRoundTrip` | CalculatorTests.cpp:55-61 | `ParseInt(s) == Some(i)` holds if and only if `IntToString(i) == s`, so the rendering loses nothing |
| `Decimal.IntToStringInjective` | CalculatorTests.cpp:55-61 | distinct integers get distinct renderings, so `10 - -3` and `10 - 3` are never confused |
| `CInt.TruncDiv` | CalculatorTests.cpp:172-193 | the remainder `a - q*b` is smaller than `b` in magnitude and is zero or has the dividend's sign, which is the C++ rule of truncation toward zero |
| `CInt.TruncDivUnique` | CalculatorTests.cpp:172-193 | any quotient meeting the C++ remainder rule equals `TruncDiv`, so the rule determines the result |
| `CInt.TruncDivBySigns` | CalculatorTests.cpp:184-193 | `TruncDiv(a, b) == sign(a) * sign(b) * (abs(a) div abs(b))` for every sign combination |
| `CInt.TruncDivOdd` | CalculatorTests.cpp:184-193 | negating the dividend or the divisor negates the quotient, so `-7/2 == 7/-2 == -(7/2)` |
| `CInt.TruncDivNonNegative` | CalculatorTests.cpp:172-182 | on a non-negative dividend and a positive divisor, truncating division agrees with Euclidean division |
| `CInt.TruncDivInt32` | CalculatorTests.cpp:146-158 | on 32-bit operands with a non-zero divisor, the quotient fits in 32 bits if and only if the division is not `INT_MIN / -1` |
| `History.LastN` | CalculatorTests.cpp:215-246 | the newest-n window has length `min(n, size)` and is a suffix of the log: the log is its remaining prefix followed by the window |
| `History.LastNIsSlice` | CalculatorTests.cpp:215-234 | the window is the slice that starts `min(n, size)` entries from the end |
| `History.LastNOfAppended` | CalculatorTests.cpp:285-294 | after appending t, the newest `|t|` entries are exactly t, so no appended entry is dropped |
| `History.LastNAfterAppend` | CalculatorTests.cpp:205-213 | appending x turns the newest-n window into the newest-(n+1) window followed by x |
| `History.InMemoryHistory.constructor` | CalculatorTests.cpp:198-200 | a new history is empty |
| `History.InMemoryHistory.AddEntry` | CalculatorTests.cpp:205-207 | the entry is appended unchanged after all earlier entries |
| `History.InMemoryHistory.GetLastOperations` | CalculatorTests.cpp:209-246 | the result has `min(count, size)` entries, its i-th item is the entry at position `size - len + i` (oldest first, not reversed), and it equals the reference `LastN` |
| `Calculator.Record` | CalculatorTests.cpp:31-61 | the record of an operation is `"<a> <symbol> <b> = <result>"`: its length is that of the decimal renderings of a, b and the result plus six format characters (two spaces around the operator symbol given by `Symbol`, and `" = "`); `RecordInjective` and the records the scenarios assert fix the rest of its meaning |
| `Calculator.RecordInjective` | CalculatorTests.cpp:31-61 | a record determines its operands, its operation and its result |
| `Calculator.SimpleCalculator.constructor` | CalculatorTests.cpp:22-25 | the calculator is bound to the history it is given |
| `Calculator.SimpleCalculator.Add` | CalculatorTests.cpp:104-116 | returns `a + b` and appends the single record `"<a> + <b> = <a+b>"` to the bound history |
| `Calculator.SimpleCalculator.Subtract` | CalculatorTests.cpp:118-130 | returns `a - b` and appends the single record `"<a> - <b> = <a-b>"` to the bound history |
| `Calculator.SimpleCalculator.Multiply` | CalculatorTests.cpp:132-144 | returns `a * b` and appends the single record `"<a> * <b> = <a*b>"` to the bound history |
| `Calculator.SimpleCalculator.Divide` | CalculatorTests.cpp:146-193 | returns the quotient truncated toward zero and appends the single record `"<a> / <b> = <q>"` to the bound history |
| `Calculator.SimpleCalculator.SetHistory` | CalculatorTests.cpp:75-90 | changes neither the bound history nor the new one |
| `Scenarios.AddCallsHistory` | CalculatorTests.cpp:31-35 | `Add(2, 3)` returns 5 and the history receives exactly `"2 + 3 = 5"` |
| `Scenarios.SubtractCallsHistory` | CalculatorTests.cpp:37-41 | `Subtract(10, 4)` returns 6 and records `"10 - 4 = 6"` |
| `Scenarios.MultiplyCallsHistory` | CalculatorTests.cpp:43-47 | `Multiply(7, 8)` returns 56 and records `"7 * 8 = 56"` |
| `Scenarios.DivideCallsHistory` | CalculatorTests.cpp:49-53 | `Divide(15, 3)` returns 5 and records `"15 / 3 = 5"` |
| `Scenarios.NegativeNumbersFormattedCorrectly` | CalculatorTests.cpp:55-61 | negative operands and results are recorded as `"-5 + 3 = -2"` and `"10 - -3 = 13"` |
| `Scenarios.MultipleOperationsCalledInOrder` | CalculatorTests.cpp:63-72 | three operations leave the previous history followed by their three records, in call order |
| `Scenarios.SetHistoryChangesHistory` | CalculatorTests.cpp:306-322 | after `Add(1, 1)`, `SetHistory(other)` and `Add(2, 2)`, the original history holds both records, its last entry is `"2 + 2 = 4"`, and `other` stays empty (the sequence the test at lines 75-90 also runs) |
| `Scenarios.AdditionBasic` | CalculatorTests.cpp:104-116 | the four additions, including zero and negative operands, return and record the expected values |
| `Scenarios.SubtractionBasic` | CalculatorTests.cpp:118-130 | the four subtractions return and record the expected values |
| `Scenarios.MultiplicationBasic` | CalculatorTests.cpp:132-144 | the four multiplications return and record the expected values |
| `Scenarios.DivisionBasic` | CalculatorTests.cpp:146-158 | the four exact divisions, with positive, zero and negative dividends and one negative divisor, return and record the expected values |
| `Scenarios.IntegerFractionalDivision` | CalculatorTests.cpp:172-182 | `7/2`, `8/3` and `1/2` drop their fractional parts: 3, 2 and 0 |
| `Scenarios.NegativeIntegerFractionalDivision` | CalculatorTests.cpp:184-193 | `-7/2`, `7/-2` and `-7/-2` truncate toward zero: -3, -3 and 3 |
| `Scenarios.AddAndRetrieveOperations` | CalculatorTests.cpp:205-213 | two added entries come back in insertion order |
| `Scenarios.GetLastOperationsLimitedCount` | CalculatorTests.cpp:215-224 | the last 2 of three entries are `["op2", "op3"]` |
| `Scenarios.GetLastOperationsMoreThanAvailable` | CalculatorTests.cpp:226-234 | asking for 5 of two entries returns both, oldest first |
| `Scenarios.GetLastOperationsZeroCount` | CalculatorTests.cpp:236-241 | asking for 0 entries returns none |
| `Scenarios.EmptyHistoryReturnsEmpty` | CalculatorTests.cpp:243-246 | an empty history returns nothing |
| `Scenarios.HistoryMemoryGrowthUnlimited` | CalculatorTests.cpp:285-294 | after n additions of `"operation <i>"`, asking for n entries returns all n, in order |
| `Scenarios.VeryLongHistoryEntry` | CalculatorTests.cpp:296-304 | an added entry comes back whole, at its full length |

## Left out

- The test harness is left out: gtest/gmock, the fixtures, `unique_ptr` ownership and `main`. Mock call expectations become postconditions on the history's `entries`. An `EXPECT_CALL` that allows exactly one call becomes "exactly this one record is appended".
- The `IHistory` interface is not modelled as an interface, and `MockHistory` has no model. Both the mock and the in-memory history are played by the single class `InMemoryHistory`, since the calculator only appends to its history.
- `Calculator.SimpleCalculator.Divide`: division by zero has no model. It is unhandled and untested (the disabled death test), so `b != 0` is a precondition.
- `Calculator.SimpleCalculator.Add`, `Subtract`, `Multiply`: signed overflow is undefined behaviour in C++, and the disabled overflow tests leave it undefined. Each operation therefore requires its exact result to fit in 32 bits. No wrap-around is modelled.
- `Calculator.SimpleCalculator.Divide`: `INT_MIN / -1` overflows in C++. It is excluded by a precondition, and `CInt.TruncDivInt32` shows that it is the only 32-bit division that overflows.
- Memory exhaustion is not modellable. This covers the risks the disabled growth and long-entry tests warn about. Only the properties those tests check are modelled: nothing is capped, dropped or truncated.
- `GetLastOperations` takes a `size_t` count in C++. The model uses `nat`, since no count in the tests comes near the type's limit.
- The intended behaviour of `SetHistory` is not modelled, because the active test asserts the no-op. The intended behaviour is re-binding the calculator, as the disabled test at CalculatorTests.cpp:306-322 expects. `Scenarios.SetHistoryChangesHistory` proves that this expectation fails: the new history stays empty.
