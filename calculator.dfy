/**
 * The calculator: four 32-bit integer operations, each of which returns its
 * result and appends one record "<a> <op> <b> = <result>" to the history it
 * was bound to at construction.
 */
module Calculator {
  import opened CInt
  import opened Decimal
  import opened History

  datatype Op = Plus | Minus | Times | Over

  function Symbol(op: Op): char {
    match op
    case Plus => '+'
    case Minus => '-'
    case Times => '*'
    case Over => '/'
  }

  /**
   * The history record of one operation: "<a> <symbol> <b> = <result>", that
   * is, the three decimal renderings and six format characters.  That a
   * record identifies its operands, operation and result is RecordInjective.
   */
  function Record(a: int, op: Op, b: int, r: int): (s: string)
    ensures |s| == |IntToString(a)| + |IntToString(b)| + |IntToString(r)| + 6
  {
    IntToString(a) + " " + [Symbol(op)] + " " + IntToString(b) + " = " + IntToString(r)
  }

  /** The record read as a nest of space-separated fields. */
  lemma RecordFields(a: int, op: Op, b: int, r: int)
    ensures Record(a, op, b, r)
         == IntToString(a) + " " + ([Symbol(op)] + " " + (IntToString(b) + " " + ("= " + IntToString(r))))
  {
  }

  lemma SplitAtSpace(x: string, y: string, x': string, y': string)
    requires ' ' !in x && ' ' !in x'
    requires x + " " + y == x' + " " + y'
    ensures x == x' && y == y'
  {
    var w := x + " " + y;
    // the first space of w is at |x| and also at |x'|
    assert w[|x|] == ' ' && w[|x'|] == ' ';
    assert forall k :: 0 <= k < |x| ==> w[k] == x[k];
    assert forall k :: 0 <= k < |x'| ==> w[k] == x'[k];
    assert |x| == |x'|;
    assert x == w[..|x|] == x';
    assert y == w[|x| + 1..] == y';
  }

  lemma {:induction false} RecordTailInjective(op: Op, b: int, r: int, op': Op, b': int, r': int)
    requires [Symbol(op)] + " " + (IntToString(b) + " " + ("= " + IntToString(r)))
          == [Symbol(op')] + " " + (IntToString(b') + " " + ("= " + IntToString(r')))
    ensures op == op' && b == b' && r == r'
  {
    var u := "= " + IntToString(r);
    var u' := "= " + IntToString(r');
    var t := [Symbol(op)] + " " + (IntToString(b) + " " + u);
    var t' := [Symbol(op')] + " " + (IntToString(b') + " " + u');
    assert t[0] == Symbol(op) && t'[0] == Symbol(op');
    assert t[2..] == IntToString(b) + " " + u;
    assert t'[2..] == IntToString(b') + " " + u';
    IntToStringHasNoSpace(b);
    IntToStringHasNoSpace(b');
    SplitAtSpace(IntToString(b), u, IntToString(b'), u');
    IntToStringInjective(b, b');
    assert u[2..] == IntToString(r) && u'[2..] == IntToString(r');
    IntToStringInjective(r, r');
  }

  /** A record determines the operands, the operation and the result it was made from. */
  lemma RecordInjective(a: int, op: Op, b: int, r: int, a': int, op': Op, b': int, r': int)
    requires Record(a, op, b, r) == Record(a', op', b', r')
    ensures a == a' && op == op' && b == b' && r == r'
  {
    RecordFields(a, op, b, r);
    RecordFields(a', op', b', r');
    IntToStringHasNoSpace(a);
    IntToStringHasNoSpace(a');
    SplitAtSpace(IntToString(a), [Symbol(op)] + " " + (IntToString(b) + " " + ("= " + IntToString(r))),
                 IntToString(a'), [Symbol(op')] + " " + (IntToString(b') + " " + ("= " + IntToString(r'))));
    IntToStringInjective(a, a');
    RecordTailInjective(op, b, r, op', b', r');
  }

  /** The C++ calculator, bound for its whole lifetime to one history. */
  class SimpleCalculator {
    /** A reference member: it is set by the constructor and cannot be re-seated. */
    const history: InMemoryHistory

    constructor (history: InMemoryHistory)
      ensures this.history == history
    {
      this.history := history;
    }

    method Add(a: int32, b: int32) returns (r: int32)
      requires IsInt32(a as int + b as int)
      modifies history
      ensures r as int == a as int + b as int
      ensures history.entries == old(history.entries) + [Record(a as int, Plus, b as int, r as int)]
    {
      r := (a as int + b as int) as int32;
      history.AddEntry(Record(a as int, Plus, b as int, r as int));
    }

    method Subtract(a: int32, b: int32) returns (r: int32)
      requires IsInt32(a as int - b as int)
      modifies history
      ensures r as int == a as int - b as int
      ensures history.entries == old(history.entries) + [Record(a as int, Minus, b as int, r as int)]
    {
      r := (a as int - b as int) as int32;
      history.AddEntry(Record(a as int, Minus, b as int, r as int));
    }

    method Multiply(a: int32, b: int32) returns (r: int32)
      requires IsInt32(a as int * b as int)
      modifies history
      ensures r as int == a as int * b as int
      ensures history.entries == old(history.entries) + [Record(a as int, Times, b as int, r as int)]
    {
      r := (a as int * b as int) as int32;
      history.AddEntry(Record(a as int, Times, b as int, r as int));
    }

    /** Integer division truncating toward zero; INT_MIN / -1 overflows and is excluded. */
    method Divide(a: int32, b: int32) returns (r: int32)
      requires b != 0
      requires !(a as int == MinInt32 && b == -1)
      modifies history
      ensures r as int == TruncDiv(a as int, b as int)
      ensures history.entries == old(history.entries) + [Record(a as int, Over, b as int, r as int)]
    {
      TruncDivInt32(a as int, b as int);
      r := TruncDiv(a as int, b as int) as int32;
      history.AddEntry(Record(a as int, Over, b as int, r as int));
    }

    /**
     * Meant to re-bind the calculator to another history, but the binding is
     * a reference fixed at construction: the call changes nothing, and later
     * records still go to the original history.
     */
    method SetHistory(newHistory: InMemoryHistory)
      ensures history.entries == old(history.entries)
      ensures newHistory.entries == old(newHistory.entries)
    {
    }
  }
}
