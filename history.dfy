/**
 * The operation history: an append-only, unbounded log of record strings,
 * kept in insertion order, and queried for its most recent entries.
 */
module History {

  function Min(x: nat, y: nat): nat {
    if x <= y then x else y
  }

  /**
   * Reference definition of "the last n items": drop the oldest item until
   * at most n remain.  The result is the suffix of length min(n, |s|).
   */
  function LastN<T>(s: seq<T>, n: nat): (r: seq<T>)
    ensures |r| == Min(n, |s|)
    ensures s == s[..|s| - |r|] + r
    decreases |s|
  {
    if |s| <= n then s else LastN(s[1..], n)
  }

  /** The window of the newest n items is the slice starting min(n, |s|) from the end. */
  lemma LastNIsSlice<T>(s: seq<T>, n: nat)
    ensures LastN(s, n) == s[|s| - Min(n, |s|)..]
  {
    var r := LastN(s, n);
    assert s[|s| - |r|..] == (s[..|s| - |r|] + r)[|s| - |r|..];
  }

  /** Asking for the newest |t| items after appending t gives back exactly t. */
  lemma LastNOfAppended<T>(s: seq<T>, t: seq<T>)
    ensures LastN(s + t, |t|) == t
  {
    LastNIsSlice(s + t, |t|);
    assert (s + t)[|s|..] == t;
  }

  /** Appending x extends the window of the newest n + 1 items by x, so no entry is dropped. */
  lemma LastNAfterAppend<T>(s: seq<T>, x: T, n: nat)
    ensures LastN(s + [x], n + 1) == LastN(s, n) + [x]
  {
    LastNIsSlice(s + [x], n + 1);
    LastNIsSlice(s, n);
    var k := |s| - Min(n, |s|);
    assert (s + [x])[k..] == s[k..] + [x];
  }

  /** In-memory implementation of the history interface. */
  class InMemoryHistory {
    /** Every entry added so far, oldest first. */
    var entries: seq<string>

    constructor ()
      ensures entries == []
    {
      entries := [];
    }

    /** Appends the entry unchanged; nothing is ever dropped or truncated. */
    method AddEntry(entry: string)
      modifies this
      ensures entries == old(entries) + [entry]
    {
      entries := entries + [entry];
    }

    /**
     * The last min(count, size) entries, in insertion order (oldest of them
     * first, not reversed).  A pure read.
     */
    function GetLastOperations(count: nat): (ops: seq<string>)
      reads this
      ensures |ops| == Min(count, |entries|)
      ensures forall i :: 0 <= i < |ops| ==> ops[i] == entries[|entries| - |ops| + i]
      ensures ops == LastN(entries, count)
    {
      var start := |entries| - Min(count, |entries|);
      entries[start..]
    }
  }
}
