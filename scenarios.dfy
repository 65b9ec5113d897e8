/**
 * The behaviour the calculator's test suite asserts, one method per test.
 * Each builds its own history and calculator, as the fixtures do, except
 * MultipleOperationsCalledInOrder, which is stated for any calculator and any
 * earlier history.  The postcondition is what the test expects: the returned
 * values and the records the history received, in call order.
 */
module Scenarios {
  import opened CInt
  import opened Decimal
  import opened History
  import opened Calculator

  method AddCallsHistory() returns (result: int32, log: seq<string>)
    ensures result == 5 && log == ["2 + 3 = 5"]
  {
    var h := new InMemoryHistory();
    var calculator := new SimpleCalculator(h);
    result := calculator.Add(2, 3);
    assert Record(2, Plus, 3, 5) == "2 + 3 = 5";
    log := h.entries;
  }

  method SubtractCallsHistory() returns (result: int32, log: seq<string>)
    ensures result == 6 && log == ["10 - 4 = 6"]
  {
    var h := new InMemoryHistory();
    var calculator := new SimpleCalculator(h);
    result := calculator.Subtract(10, 4);
    assert Record(10, Minus, 4, 6) == "10 - 4 = 6";
    log := h.entries;
  }

  method MultiplyCallsHistory() returns (result: int32, log: seq<string>)
    ensures result == 56 && log == ["7 * 8 = 56"]
  {
    var h := new InMemoryHistory();
    var calculator := new SimpleCalculator(h);
    result := calculator.Multiply(7, 8);
    assert Record(7, Times, 8, 56) == "7 * 8 = 56";
    log := h.entries;
  }

  method DivideCallsHistory() returns (result: int32, log: seq<string>)
    ensures result == 5 && log == ["15 / 3 = 5"]
  {
    var h := new InMemoryHistory();
    var calculator := new SimpleCalculator(h);
    result := calculator.Divide(15, 3);
    assert Record(15, Over, 3, 5) == "15 / 3 = 5";
    log := h.entries;
  }

  method NegativeNumbersFormattedCorrectly() returns (log: seq<string>)
    ensures log == ["-5 + 3 = -2", "10 - -3 = 13"]
  {
    var h := new InMemoryHistory();
    var calculator := new SimpleCalculator(h);
    var _ := calculator.Add(-5, 3);
    var _ := calculator.Subtract(10, -3);
    assert Record(-5, Plus, 3, -2) == "-5 + 3 = -2";
    assert Record(10, Minus, -3, 13) == "10 - -3 = 13";
    log := h.entries;
  }

  /**
   * Successive operations append their records after whatever the history
   * already held: the general form of the test, whose fixture starts empty.
   */
  method MultipleOperationsCalledInOrder(calculator: SimpleCalculator)
    modifies calculator.history
    ensures calculator.history.entries == old(calculator.history.entries) + ["1 + 2 = 3", "3 * 4 = 12", "12 / 2 = 6"]
  {
    var _ := calculator.Add(1, 2);
    var _ := calculator.Multiply(3, 4);
    var _ := calculator.Divide(12, 2);
    assert Record(1, Plus, 2, 3) == "1 + 2 = 3";
    assert Record(3, Times, 4, 12) == "3 * 4 = 12";
    assert Record(12, Over, 2, 6) == "12 / 2 = 6";
  }

  /**
   * After SetHistory(other), the next record still goes to the original
   * history and the other one receives nothing: the asserted current
   * behaviour, which the disabled test's expectation (one entry in each)
   * contradicts.
   */
  method SetHistoryChangesHistory() returns (log: seq<string>, ops1: seq<string>, ops2: seq<string>)
    ensures log == ["1 + 1 = 2", "2 + 2 = 4"]
    ensures ops1 == ["2 + 2 = 4"] && ops2 == []
  {
    var h := new InMemoryHistory();
    var calculator := new SimpleCalculator(h);
    var other := new InMemoryHistory();
    var _ := calculator.Add(1, 1);
    calculator.SetHistory(other);
    var _ := calculator.Add(2, 2);
    assert Record(1, Plus, 1, 2) == "1 + 1 = 2";
    assert Record(2, Plus, 2, 4) == "2 + 2 = 4";
    log := h.entries;
    ops1 := h.GetLastOperations(1);
    ops2 := other.GetLastOperations(1);
  }

  method AdditionBasic() returns (results: seq<int32>, log: seq<string>)
    ensures results == [5, 0, -2, -8]
    ensures log == ["2 + 3 = 5", "0 + 0 = 0", "-5 + 3 = -2", "-5 + -3 = -8"]
  {
    var h := new InMemoryHistory();
    var calculator := new SimpleCalculator(h);
    var r1 := calculator.Add(2, 3);
    var r2 := calculator.Add(0, 0);
    var r3 := calculator.Add(-5, 3);
    var r4 := calculator.Add(-5, -3);
    assert Record(2, Plus, 3, 5) == "2 + 3 = 5";
    assert Record(0, Plus, 0, 0) == "0 + 0 = 0";
    assert Record(-5, Plus, 3, -2) == "-5 + 3 = -2";
    assert Record(-5, Plus, -3, -8) == "-5 + -3 = -8";
    results, log := [r1, r2, r3, r4], h.entries;
  }

  method SubtractionBasic() returns (results: seq<int32>, log: seq<string>)
    ensures results == [6, 0, -8, -2]
    ensures log == ["10 - 4 = 6", "0 - 0 = 0", "-5 - 3 = -8", "-5 - -3 = -2"]
  {
    var h := new InMemoryHistory();
    var calculator := new SimpleCalculator(h);
    var r1 := calculator.Subtract(10, 4);
    var r2 := calculator.Subtract(0, 0);
    var r3 := calculator.Subtract(-5, 3);
    var r4 := calculator.Subtract(-5, -3);
    assert Record(10, Minus, 4, 6) == "10 - 4 = 6";
    assert Record(0, Minus, 0, 0) == "0 - 0 = 0";
    assert Record(-5, Minus, 3, -8) == "-5 - 3 = -8";
    assert Record(-5, Minus, -3, -2) == "-5 - -3 = -2";
    results, log := [r1, r2, r3, r4], h.entries;
  }

  method MultiplicationBasic() returns (results: seq<int32>, log: seq<string>)
    ensures results == [12, 0, -12, 12]
    ensures log == ["3 * 4 = 12", "0 * 5 = 0", "-3 * 4 = -12", "-3 * -4 = 12"]
  {
    var h := new InMemoryHistory();
    var calculator := new SimpleCalculator(h);
    var r1 := calculator.Multiply(3, 4);
    var r2 := calculator.Multiply(0, 5);
    var r3 := calculator.Multiply(-3, 4);
    var r4 := calculator.Multiply(-3, -4);
    assert Record(3, Times, 4, 12) == "3 * 4 = 12";
    assert Record(0, Times, 5, 0) == "0 * 5 = 0";
    assert Record(-3, Times, 4, -12) == "-3 * 4 = -12";
    assert Record(-3, Times, -4, 12) == "-3 * -4 = 12";
    results, log := [r1, r2, r3, r4], h.entries;
  }

  method DivisionBasic() returns (results: seq<int32>, log: seq<string>)
    ensures results == [4, 0, -4, 4]
    ensures log == ["12 / 3 = 4", "0 / 5 = 0", "-12 / 3 = -4", "-12 / -3 = 4"]
  {
    var h := new InMemoryHistory();
    var calculator := new SimpleCalculator(h);
    var r1 := calculator.Divide(12, 3);
    var r2 := calculator.Divide(0, 5);
    var r3 := calculator.Divide(-12, 3);
    var r4 := calculator.Divide(-12, -3);
    assert Record(12, Over, 3, 4) == "12 / 3 = 4";
    assert Record(0, Over, 5, 0) == "0 / 5 = 0";
    assert Record(-12, Over, 3, -4) == "-12 / 3 = -4";
    assert Record(-12, Over, -3, 4) == "-12 / -3 = 4";
    results, log := [r1, r2, r3, r4], h.entries;
  }

  /** The fractional part is discarded. */
  method IntegerFractionalDivision() returns (results: seq<int32>, log: seq<string>)
    ensures results == [3, 2, 0]
    ensures log == ["7 / 2 = 3", "8 / 3 = 2", "1 / 2 = 0"]
  {
    var h := new InMemoryHistory();
    var calculator := new SimpleCalculator(h);
    var r1 := calculator.Divide(7, 2);
    var r2 := calculator.Divide(8, 3);
    var r3 := calculator.Divide(1, 2);
    assert Record(7, Over, 2, 3) == "7 / 2 = 3";
    assert Record(8, Over, 3, 2) == "8 / 3 = 2";
    assert Record(1, Over, 2, 0) == "1 / 2 = 0";
    results, log := [r1, r2, r3], h.entries;
  }

  /** Negative quotients are truncated toward zero, not rounded down. */
  method NegativeIntegerFractionalDivision() returns (results: seq<int32>, log: seq<string>)
    ensures results == [-3, -3, 3]
    ensures log == ["-7 / 2 = -3", "7 / -2 = -3", "-7 / -2 = 3"]
  {
    var h := new InMemoryHistory();
    var calculator := new SimpleCalculator(h);
    var r1 := calculator.Divide(-7, 2);
    var r2 := calculator.Divide(7, -2);
    var r3 := calculator.Divide(-7, -2);
    assert Record(-7, Over, 2, -3) == "-7 / 2 = -3";
    assert Record(7, Over, -2, -3) == "7 / -2 = -3";
    assert Record(-7, Over, -2, 3) == "-7 / -2 = 3";
    results, log := [r1, r2, r3], h.entries;
  }

  method AddAndRetrieveOperations() returns (ops: seq<string>)
    ensures ops == ["1 + 1 = 2", "2 * 3 = 6"]
  {
    var h := new InMemoryHistory();
    h.AddEntry("1 + 1 = 2");
    h.AddEntry("2 * 3 = 6");
    ops := h.GetLastOperations(2);
  }

  method GetLastOperationsLimitedCount() returns (ops: seq<string>)
    ensures ops == ["op2", "op3"]
  {
    var h := new InMemoryHistory();
    h.AddEntry("op1");
    h.AddEntry("op2");
    h.AddEntry("op3");
    ops := h.GetLastOperations(2);
  }

  method GetLastOperationsMoreThanAvailable() returns (ops: seq<string>)
    ensures ops == ["op1", "op2"]
  {
    var h := new InMemoryHistory();
    h.AddEntry("op1");
    h.AddEntry("op2");
    ops := h.GetLastOperations(5);
  }

  method GetLastOperationsZeroCount() returns (ops: seq<string>)
    ensures ops == []
  {
    var h := new InMemoryHistory();
    h.AddEntry("op1");
    ops := h.GetLastOperations(0);
  }

  method EmptyHistoryReturnsEmpty() returns (ops: seq<string>)
    ensures ops == []
  {
    var h := new InMemoryHistory();
    ops := h.GetLastOperations(5);
  }

  /** The history has no size limit: after n additions all n entries are still there, in order. */
  method HistoryMemoryGrowthUnlimited(n: nat) returns (ops: seq<string>)
    ensures |ops| == n
    ensures forall i :: 0 <= i < n ==> ops[i] == "operation " + IntToString(i)
  {
    var h := new InMemoryHistory();
    var i := 0;
    while i < n
      invariant 0 <= i <= n
      invariant |h.entries| == i
      invariant forall k :: 0 <= k < i ==> h.entries[k] == "operation " + IntToString(k)
    {
      h.AddEntry("operation " + IntToString(i));
      i := i + 1;
    }
    ops := h.GetLastOperations(n);
  }

  /** An entry is stored whole, however long it is. */
  method VeryLongHistoryEntry(entry: string) returns (ops: seq<string>)
    ensures |ops| == 1 && ops[0] == entry && |ops[0]| == |entry|
  {
    var h := new InMemoryHistory();
    h.AddEntry(entry);
    ops := h.GetLastOperations(1);
  }
}
