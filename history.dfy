/** The calculation history: a log of the last ten calculations, oldest
    first, to which every calculation appends one entry. */
module History {

  datatype Option<T> = None | Some(value: T)

  /** One calculation as the history records it: when it was made, the form
      values as entered and the results as displayed (all as text). The
      NSSF option is not recorded. */
  datatype Entry = Entry(
    timestamp: string,
    gross: string,
    salaryType: string,
    paye: string,
    nssfEmp: string,
    nssfEr: string,
    netPay: string,
    housing: string,
    transport: string,
    deductions: string)

  /** The number of entries the history keeps. */
  const Capacity: nat := 10

  /** The log after one append: a full log first drops its oldest entry.
      The new entry is last, and a log of at most ten entries becomes the
      ten most recent of its entries and the new one. */
  function Pushed(log: seq<Entry>, e: Entry): (r: seq<Entry>)
    ensures |r| > 0 && r[|r| - 1] == e
    ensures |log| <= Capacity ==> |r| <= Capacity && r == Recent(log + [e], Capacity)
  {
    assert |log| == Capacity ==> log + [e] == [log[0]] + (log[1..] + [e]);
    (if |log| >= Capacity then log[1..] else log) + [e]
  }

  /** The last n elements of s (all of s when it is shorter). */
  function Recent(s: seq<Entry>, n: nat): (r: seq<Entry>)
    ensures |r| == if |s| <= n then |s| else n
    ensures forall i | 0 <= i < |r| :: r[i] == s[|s| - |r| + i]
  {
    if |s| <= n then s else s[|s| - n..]
  }

  /** The log after appending each of es in turn. */
  function PushedAll(log: seq<Entry>, es: seq<Entry>): seq<Entry>
    decreases |es|
  {
    if es == [] then log else PushedAll(Pushed(log, es[0]), es[1..])
  }

  /** An append to a log of at most ten entries leaves at most ten, puts
      the new entry last, and keeps the others in order: all of them when
      there were fewer than ten, all but the oldest when there were ten. */
  lemma PushedBounded(log: seq<Entry>, e: Entry)
    requires |log| <= Capacity
    ensures |Pushed(log, e)| <= Capacity
    ensures Pushed(log, e)[|Pushed(log, e)| - 1] == e
    ensures |log| < Capacity ==> Pushed(log, e)[..|log|] == log
    ensures |log| == Capacity ==> Pushed(log, e)[..Capacity - 1] == log[1..]
  {
  }

  /** Taking the last n of the last n of s extended by t is taking the
      last n of s extended by t. */
  lemma RecentOfRecent(s: seq<Entry>, t: seq<Entry>, n: nat)
    ensures Recent(Recent(s, n) + t, n) == Recent(s + t, n)
  {
    if |s| > n {
      var k := |s| - n;
      assert s + t == s[..k] + (s[k..] + t);
      var u := s[k..] + t;
      if |u| > n {
        assert (s + t)[|s + t| - n..] == u[|u| - n..];
      }
    }
  }

  /** After any number of appends, starting from a log of at most ten
      entries, the log holds exactly the ten most recent entries of all
      those it has seen, oldest first. */
  lemma {:induction false} PushedAllKeepsRecent(log: seq<Entry>, es: seq<Entry>)
    requires |log| <= Capacity
    ensures PushedAll(log, es) == Recent(log + es, Capacity)
    decreases |es|
  {
    if es == [] {
      assert log + es == log;
    } else {
      var e, rest := es[0], es[1..];
      assert log + [e] + rest == log + es by {
        assert es == [e] + rest;
      }
      var next := Pushed(log, e);
      PushedBounded(log, e);
      PushedAllKeepsRecent(next, rest);
      RecentOfRecent(log + [e], rest, Capacity);
    }
  }

  /** Eleven calculations on an empty history: the first is evicted and the
      other ten remain in the order they were made. */
  lemma ElevenCalculations(es: seq<Entry>)
    requires |es| == Capacity + 1
    ensures PushedAll([], es) == es[1..]
  {
    PushedAllKeepsRecent([], es);
    assert [] + es == es;
  }

  /** The stored history, oldest entry first. */
  class HistoryLog {
    var entries: seq<Entry>

    /** The size bound the history keeps. The page does not rely on it: a
        stored log longer than ten would still lose only one entry per
        append, so Add promises to keep it rather than requiring it. */
    ghost predicate Valid()
      reads this
    {
      |entries| <= Capacity
    }

    /** A history with nothing stored yet. */
    constructor ()
      ensures entries == [] && Valid()
    {
      entries := [];
    }

    /** Records a calculation: drops the oldest entry of a full log, then
        appends the new one. */
    method Add(e: Entry)
      modifies this
      ensures entries == Pushed(old(entries), e)
      ensures old(Valid()) ==> Valid()
    {
      if |entries| >= Capacity {
        entries := entries[1..];
      }
      entries := entries + [e];
    }

    /** Forgets every stored calculation. */
    method Clear()
      modifies this
      ensures entries == [] && Valid()
    {
      entries := [];
    }

    /** The first entry, oldest first, with the given timestamp; None when no
        entry has it. */
    method Find(timestamp: string) returns (found: Option<Entry>)
      ensures found.None? <==> forall i | 0 <= i < |entries| :: entries[i].timestamp != timestamp
      ensures found.Some? ==>
        exists i | 0 <= i < |entries| ::
          entries[i] == found.value && entries[i].timestamp == timestamp &&
          forall j | 0 <= j < i :: entries[j].timestamp != timestamp
    {
      var i := 0;
      while i < |entries|
        invariant 0 <= i <= |entries|
        invariant forall j | 0 <= j < i :: entries[j].timestamp != timestamp
      {
        if entries[i].timestamp == timestamp {
          return Some(entries[i]);
        }
        i := i + 1;
      }
      return None;
    }
  }
}
