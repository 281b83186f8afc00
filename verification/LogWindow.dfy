/** The part of a log that a cursor has not reached, in ascending `t`. */
module LogWindow {
  import opened SessionSync

  function Insert(e: Entry, sorted: seq<Entry>): seq<Entry> {
    if sorted == [] || e.t < sorted[0].t then [e] + sorted
    else [sorted[0]] + Insert(e, sorted[1..])
  }

  function SortByT(entries: seq<Entry>): seq<Entry> {
    if entries == [] then []
    else Insert(entries[|entries| - 1], SortByT(entries[..|entries| - 1]))
  }

  function NewerThan(entries: seq<Entry>, from: nat): seq<Entry> {
    if entries == [] then []
    else
      var rest := NewerThan(entries[..|entries| - 1], from);
      if entries[|entries| - 1].t > from then rest + [entries[|entries| - 1]] else rest
  }

  ghost predicate SortedFrom(pending: seq<Entry>, cursor: nat) {
    (forall i :: 0 <= i < |pending| ==> cursor < pending[i].t) &&
    (forall i, j :: 0 <= i < j < |pending| ==> pending[i].t < pending[j].t)
  }

  /** A log lists each `t` once. */
  ghost predicate DistinctT(entries: seq<Entry>) {
    forall i, j :: 0 <= i < j < |entries| ==> entries[i].t != entries[j].t
  }

  lemma {:induction false} InsertHolds(e: Entry, sorted: seq<Entry>, x: Entry)
    ensures x in Insert(e, sorted) <==> x == e || x in sorted
  {
    if sorted != [] && sorted[0].t <= e.t {
      InsertHolds(e, sorted[1..], x);
      assert sorted == [sorted[0]] + sorted[1..];
    }
  }

  lemma {:induction false} SortHolds(entries: seq<Entry>, x: Entry)
    ensures x in SortByT(entries) <==> x in entries
  {
    if entries != [] {
      var init, last := entries[..|entries| - 1], entries[|entries| - 1];
      SortHolds(init, x);
      InsertHolds(last, SortByT(init), x);
      assert entries == init + [last];
    }
  }

  lemma {:induction false} InsertSorted(e: Entry, sorted: seq<Entry>, from: nat)
    requires SortedFrom(sorted, from) && from < e.t
    requires forall i :: 0 <= i < |sorted| ==> sorted[i].t != e.t
    ensures SortedFrom(Insert(e, sorted), from)
  {
    if sorted == [] || e.t < sorted[0].t {
    } else {
      InsertSorted(e, sorted[1..], from);
      var rest := Insert(e, sorted[1..]);
      forall i | 0 <= i < |rest| ensures sorted[0].t < rest[i].t {
        InsertHolds(e, sorted[1..], rest[i]);
      }
    }
  }

  lemma {:induction false} SortSorted(entries: seq<Entry>, from: nat)
    requires DistinctT(entries) && forall i :: 0 <= i < |entries| ==> from < entries[i].t
    ensures SortedFrom(SortByT(entries), from)
  {
    if entries == [] {
    } else {
      var init, last := entries[..|entries| - 1], entries[|entries| - 1];
      SortSorted(init, from);
      var sorted := SortByT(init);
      forall i | 0 <= i < |sorted| ensures sorted[i].t != last.t {
        SortHolds(init, sorted[i]);
      }
      InsertSorted(last, sorted, from);
    }
  }

  lemma {:induction false} NewerDistinct(entries: seq<Entry>, from: nat)
    requires DistinctT(entries)
    ensures DistinctT(NewerThan(entries, from))
    ensures forall x :: x in NewerThan(entries, from) <==> x in entries && x.t > from
  {
    if entries == [] {
    } else {
      var init, last := entries[..|entries| - 1], entries[|entries| - 1];
      NewerDistinct(init, from);
      assert entries == init + [last];
      var rest := NewerThan(init, from);
      forall i | 0 <= i < |rest| ensures rest[i].t != last.t {
        assert rest[i] in init;
      }
    }
  }

  lemma PendingSorted(entries: seq<Entry>, from: nat)
    requires DistinctT(entries)
    ensures SortedFrom(SortByT(NewerThan(entries, from)), from)
    ensures forall x :: x in SortByT(NewerThan(entries, from)) <==> x in entries && x.t > from
  {
    NewerDistinct(entries, from);
    forall i | 0 <= i < |NewerThan(entries, from)| ensures from < NewerThan(entries, from)[i].t {
      assert NewerThan(entries, from)[i] in NewerThan(entries, from);
    }
    SortSorted(NewerThan(entries, from), from);
    forall x ensures x in SortByT(NewerThan(entries, from)) <==> x in entries && x.t > from {
      SortHolds(NewerThan(entries, from), x);
    }
  }
}
