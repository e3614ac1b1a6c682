/** The replicated log: what its operations compute, and the class that stores it. */
module Logs {
  import opened Types

  function LastIndex(log: Entries): nat { |log| - 1 }

  function LastTerm(log: Entries): nat { log[|log| - 1].term }

  /** A missing entry counts as term 0. */
  function TermAt(log: Entries, index: nat): nat {
    if index < |log| then log[index].term else 0
  }

  function From(log: Entries, index: nat): seq<Entry> {
    if index < |log| then log[index..] else []
  }

  /** The log with a new entry at its end; the entry is given the next index. */
  function Appended(log: Entries, entry: Entry): Entries {
    log + [entry.(index := |log|)]
  }

  /** What a batch of entries leaves behind. On a panic the log keeps whatever the batch did before it. */
  datatype Spliced = Spliced(log: Entries, panicked: bool)

  /** One pass over a batch: skip what is there, truncate at a conflict, append the rest. */
  function Splice(log: Entries, batch: seq<Entry>, commitIndex: nat): Spliced
    decreases |batch|
  {
    if batch == [] then Spliced(log, false)
    else
      var entry := batch[0];
      if entry.index < |log| && log[entry.index].term == entry.term then
        Splice(log, batch[1..], commitIndex)
      else if entry.index < |log| && entry.index <= commitIndex then
        Spliced(log, true)
      else if entry.index < |log| then
        Splice(log[..entry.index] + [entry], batch[1..], commitIndex)
      else
        Splice(Appended(log, entry), batch[1..], commitIndex)
  }

  // ----- what a batch does to a log -----

  /** Both logs reach index k and are identical at every index up to it. */
  ghost predicate Agree(a: seq<Entry>, b: seq<Entry>, k: nat) {
    k < |a| && k < |b| && forall i :: 0 <= i <= k ==> a[i] == b[i]
  }

  /** Entry i of the batch claims index start + i. */
  ghost predicate Contiguous(batch: seq<Entry>, start: nat) {
    forall i :: 0 <= i < |batch| ==> batch[i].index == start + i
  }

  /** Every entry carries its own position. */
  ghost predicate Indexed(log: seq<Entry>) {
    Contiguous(log, 0)
  }

  /** How many leading entries of the batch the log already holds, by term. */
  function Overlap(log: Entries, batch: seq<Entry>, start: nat): (n: nat)
    ensures n <= |batch| && (n == 0 || start + n <= |log|)
    ensures forall i :: 0 <= i < n ==> log[start + i].term == batch[i].term
    ensures n < |batch| && start + n < |log| ==> log[start + n].term != batch[n].term
    decreases |batch|
  {
    if batch == [] || start >= |log| || log[start].term != batch[0].term then 0
    else
      var rest := Overlap(log, batch[1..], start + 1);
      assert forall i :: 1 <= i < 1 + rest ==> log[start + i].term == batch[1..][i - 1].term == batch[i].term;
      1 + rest
  }

  /** A batch that starts right at the end is simply appended. */
  lemma {:induction false} SpliceAtEnd(log: Entries, batch: seq<Entry>, commitIndex: nat)
    requires Contiguous(batch, |log|)
    ensures Splice(log, batch, commitIndex) == Spliced(log + batch, false)
    decreases |batch|
  {
    if batch == [] {
      assert log + batch == log;
    } else {
      SpliceAtEnd(Appended(log, batch[0]), batch[1..], commitIndex);
      assert log + [batch[0]] + batch[1..] == log + batch;
    }
  }

  /** What a contiguous batch makes of a log that already holds its first n entries and not the next. */
  function SplicedAt(log: Entries, batch: seq<Entry>, start: nat, n: nat, commitIndex: nat): Spliced
    requires n <= |batch| && (n == |batch| || start + n <= |log|)
  {
    if n == |batch| then Spliced(log, false)
    else if start + n < |log| && start + n <= commitIndex then Spliced(log, true)
    else Spliced(log[..start + n] + batch[n..], false)
  }

  /** The case of a batch whose first entry the log does not hold. */
  lemma SpliceNothingHeld(log: Entries, batch: seq<Entry>, start: nat, commitIndex: nat)
    requires Contiguous(batch, start) && start <= |log| && batch != []
    requires start < |log| ==> log[start].term != batch[0].term
    ensures Splice(log, batch, commitIndex) == SplicedAt(log, batch, start, 0, commitIndex)
  {
    assert batch[0..] == batch && batch[0].index == start;
    if start == |log| {
      SpliceAtEnd(log, batch, commitIndex);
      assert log[..start] == log;
    } else if start > commitIndex {
      var cut := log[..start] + [batch[0]];
      SpliceAtEnd(cut, batch[1..], commitIndex);
      assert cut + batch[1..] == log[..start] + batch;
    }
  }

  /** Skipping an entry the log holds. */
  lemma SplicedAtShifts(log: Entries, batch: seq<Entry>, start: nat, n: nat, commitIndex: nat)
    requires batch != [] && n < |batch| && (n + 1 == |batch| || start + n + 1 <= |log|)
    ensures SplicedAt(log, batch[1..], start + 1, n, commitIndex) == SplicedAt(log, batch, start, n + 1, commitIndex)
  {
    assert batch[1..][n..] == batch[n + 1..];
  }

  /** An entry the log holds makes no difference to the rest of the pass. */
  lemma SpliceSkips(log: Entries, batch: seq<Entry>, start: nat, commitIndex: nat)
    requires Contiguous(batch, start) && batch != [] && start < |log| && log[start].term == batch[0].term
    ensures Contiguous(batch[1..], start + 1)
    ensures Splice(log, batch, commitIndex) == Splice(log, batch[1..], commitIndex)
    ensures Overlap(log, batch, start) == 1 + Overlap(log, batch[1..], start + 1)
  {
    assert batch[0].index == start;
  }

  /**
   * The result of a contiguous batch that leaves no gap, in closed form: nothing happens when every
   * entry is there already; otherwise the log is cut at the first entry it does not hold and the
   * rest of the batch follows. It panics exactly when that cut would remove a committed entry,
   * and then the log is untouched.
   */
  lemma {:induction false} SpliceClosedForm(log: Entries, batch: seq<Entry>, start: nat, commitIndex: nat)
    requires Contiguous(batch, start) && start <= |log|
    ensures Splice(log, batch, commitIndex) == SplicedAt(log, batch, start, Overlap(log, batch, start), commitIndex)
    decreases |batch|
  {
    if batch == [] {
    } else if start < |log| && log[start].term == batch[0].term {
      hide Splice, Overlap, SplicedAt, Contiguous;
      SpliceSkips(log, batch, start, commitIndex);
      SpliceClosedForm(log, batch[1..], start + 1, commitIndex);
      SplicedAtShifts(log, batch, start, Overlap(log, batch[1..], start + 1), commitIndex);
    } else {
      hide Splice, SplicedAt, Contiguous;
      SpliceNothingHeld(log, batch, start, commitIndex);
    }
  }

  /** The log has all entries of the batch, by term. */
  ghost predicate Holds(log: Entries, batch: seq<Entry>, start: nat) {
    start + |batch| <= |log| && forall i :: 0 <= i < |batch| ==> log[start + i].term == batch[i].term
  }

  lemma {:induction false} HoldsAll(log: Entries, batch: seq<Entry>, start: nat)
    requires Holds(log, batch, start)
    ensures Overlap(log, batch, start) == |batch|
    decreases |batch|
  {
    if batch != [] {
      assert forall i :: 0 <= i < |batch| - 1 ==> log[start + 1 + i].term == batch[1..][i].term;
      HoldsAll(log, batch[1..], start + 1);
    }
  }

  /** The batch is all there afterwards, on top of what was there before it. */
  lemma SplicedHolds(log: Entries, batch: seq<Entry>, start: nat, commitIndex: nat)
    requires start <= |log|
    ensures var r := SplicedAt(log, batch, start, Overlap(log, batch, start), commitIndex);
            !r.panicked ==>
              && Holds(r.log, batch, start) && (forall i :: 0 <= i < start ==> r.log[i] == log[i])
              && (r.log != log ==> |r.log| == start + |batch|)
  {
    var n := Overlap(log, batch, start);
    hide Overlap;
    var r := SplicedAt(log, batch, start, n, commitIndex);
    forall i | 0 <= i < |batch| && !r.panicked
      ensures start + |batch| <= |r.log| && r.log[start + i].term == batch[i].term
    {
      if n < |batch| && n <= i { assert r.log[start + i] == batch[n..][i - n]; }
    }
  }

  /** Delivering the same batch again changes nothing, whatever has been committed since. */
  lemma SpliceIdempotent(log: Entries, batch: seq<Entry>, start: nat, commitIndex: nat, later: nat)
    requires Contiguous(batch, start) && start <= |log|
    requires !Splice(log, batch, commitIndex).panicked
    ensures var once := Splice(log, batch, commitIndex).log;
            && Holds(once, batch, start)
            && Splice(once, batch, later) == Spliced(once, false)
            && (forall i :: 0 <= i < start ==> once[i] == log[i])
            && (once != log ==> |once| == start + |batch|)
  {
    hide Splice, Contiguous, Overlap;
    SpliceClosedForm(log, batch, start, commitIndex);
    SplicedHolds(log, batch, start, commitIndex);
    var once := Splice(log, batch, commitIndex).log;
    SpliceClosedForm(once, batch, start, later);
    HoldsAll(once, batch, start);
  }

  /** Equal terms at an index mean equal logs up to it. */
  ghost predicate TermsDecide(a: seq<Entry>, b: seq<Entry>) {
    forall i: nat {:trigger Agree(a, b, i)} :: i < |a| && i < |b| && a[i].term == b[i].term ==> Agree(a, b, i)
  }

  /** Against a slice of the leader's log, the overlap is exactly how far the two logs agree. */
  lemma OverlapIsAgreement(log: Entries, leader: Entries, prev: nat, m: nat)
    requires prev < m <= |leader|
    requires Agree(log, leader, prev) && TermsDecide(log, leader)
    ensures var n := Overlap(log, leader[prev + 1..m], prev + 1);
            && Agree(log, leader, prev + n)
            && (n < m - prev - 1 ==> !Agree(log, leader, prev + 1 + n))
  {
    var batch := leader[prev + 1..m];
    var n := Overlap(log, batch, prev + 1);
    if n > 0 {
      assert log[prev + 1 + (n - 1)].term == batch[n - 1].term == leader[prev + n].term;
      assert Agree(log, leader, prev + n);
    }
  }

  /** The result for a slice of the leader's log, given where the agreement ends. */
  lemma CutAtDisagreement(log: Entries, leader: Entries, prev: nat, m: nat, n: nat)
    requires prev < m <= |leader| && n < m - prev - 1 && Agree(log, leader, prev + n)
    ensures log[..prev + 1 + n] + leader[prev + 1..m][n..] == leader[..m]
  {
    assert leader[prev + 1..m][n..] == leader[prev + 1 + n..m];
    assert log[..prev + 1 + n] == leader[..prev + 1 + n];
  }

  lemma SliceIsContiguous(log: Entries, leader: Entries, prev: nat, m: nat)
    requires Indexed(leader) && prev < m <= |leader| && Agree(log, leader, prev)
    ensures Contiguous(leader[prev + 1..m], prev + 1) && prev < |log|
  {}

  lemma AgreeShorter(a: seq<Entry>, b: seq<Entry>, k: nat, j: nat)
    ensures Agree(a, b, k) && j <= k ==> Agree(a, b, j)
  {}

  /** A slice of the leader's log on top of a log that agrees with it through prev + n and no further. */
  lemma SlicedAtDisagreement(log: Entries, leader: Entries, prev: nat, m: nat, n: nat, commitIndex: nat)
    requires prev < m <= |leader| && n <= m - prev - 1 && Agree(log, leader, prev + n)
    requires n < m - prev - 1 ==> !Agree(log, leader, prev + 1 + n)
    ensures n < m - prev - 1 ==> prev + 1 + n <= |log|
    ensures var r := SplicedAt(log, leader[prev + 1..m], prev + 1, n, commitIndex);
            && (Agree(log, leader, m - 1) ==> r == Spliced(log, false))
            && (!Agree(log, leader, m - 1) && !r.panicked ==> r.log == leader[..m])
            && (Agree(log, leader, commitIndex) ==> !r.panicked)
            && (r.panicked ==> r.log == log)
  {
    assert prev + n < |log|;
    hide Agree;
    if n < m - prev - 1 {
      CutAtDisagreement(log, leader, prev, m, n);
      AgreeShorter(log, leader, m - 1, prev + 1 + n);
      AgreeShorter(log, leader, commitIndex, prev + 1 + n);
    }
  }

  /**
   * A batch cut from a leader's log, entries prev+1 to m-1, delivered to a log that agrees with the
   * leader's at prev: the follower either holds all of it and stays as it is, or ends up with exactly
   * the leader's first m entries. No panic when the committed part agrees with the leader's log.
   */
  lemma SpliceFromLeader(log: Entries, leader: Entries, prev: nat, m: nat, commitIndex: nat)
    requires Indexed(leader) && prev < m <= |leader|
    requires Agree(log, leader, prev) && TermsDecide(log, leader)
    ensures var r := Splice(log, leader[prev + 1..m], commitIndex);
            && (Agree(log, leader, m - 1) ==> r == Spliced(log, false))
            && (!Agree(log, leader, m - 1) && !r.panicked ==> r.log == leader[..m])
            && (Agree(log, leader, commitIndex) ==> !r.panicked)
            && (r.panicked ==> r.log == log)
  {
    hide Splice, SplicedAt, Overlap, TermsDecide, Contiguous, Indexed, Agree;
    var batch := leader[prev + 1..m];
    var n := Overlap(log, batch, prev + 1);
    SliceIsContiguous(log, leader, prev, m);
    OverlapIsAgreement(log, leader, prev, m);
    SpliceClosedForm(log, batch, prev + 1, commitIndex);
    SlicedAtDisagreement(log, leader, prev, m, n, commitIndex);
  }

  /** No slice of the leader's log, however old, takes away agreement the follower already has. */
  lemma SpliceKeepsAgreement(log: Entries, leader: Entries, prev: nat, m: nat, commitIndex: nat, k: nat)
    requires Indexed(leader) && prev < m <= |leader|
    requires Agree(log, leader, prev) && TermsDecide(log, leader)
    requires Agree(log, leader, k)
    ensures var r := Splice(log, leader[prev + 1..m], commitIndex);
            Agree(r.log, leader, k) && (!r.panicked ==> Agree(r.log, leader, m - 1))
  {
    SpliceFromLeader(log, leader, prev, m, commitIndex);
  }

  // ----- the stored log -----

  class Log {
    var entries: seq<Entry>

    predicate Valid() reads this { entries != [] }

    constructor ()
      ensures Valid() && entries == [SENTINEL]
    {
      entries := [SENTINEL];
    }

    method Append(entry: Entry) returns (index: nat)
      requires Valid()
      modifies this
      ensures Valid() && entries == Appended(old(entries), entry)
      ensures index == |old(entries)| == |entries| - 1
    {
      index := |entries|;
      entries := entries + [entry.(index := index)];
    }

    /** Follower append: skip, truncate, append. `panicked` stands for the panic on committed entries. */
    method AppendEntries(batch: seq<Entry>, commitIndex: nat) returns (panicked: bool)
      requires Valid()
      modifies this
      ensures Valid() && Spliced(entries, panicked) == Splice(old(entries), batch, commitIndex)
    {
      var i := 0;
      while i < |batch|
        invariant 0 <= i <= |batch| && Valid()
        invariant Splice(entries, batch[i..], commitIndex) == Splice(old(entries), batch, commitIndex)
      {
        var entry := batch[i];
        assert batch[i..][0] == entry && batch[i..][1..] == batch[i + 1..];
        if entry.index < |entries| {
          var existing := entries[entry.index];
          if existing.term == entry.term {
            i := i + 1;
            continue;
          }
          if entry.index <= commitIndex {
            return true;
          }
          entries := entries[..entry.index];
        }
        entries := entries + [entry.(index := |entries|)];
        i := i + 1;
      }
      panicked := false;
    }

    method GetEntry(index: nat) returns (entry: Option<Entry>)
      requires Valid()
      ensures entry == if index < |entries| then Some(entries[index]) else None
    {
      entry := if index < |entries| then Some(entries[index]) else None;
    }

    method GetFrom(fromIndex: nat) returns (suffix: seq<Entry>)
      requires Valid()
      ensures suffix == From(entries, fromIndex)
    {
      suffix := if fromIndex < |entries| then entries[fromIndex..] else [];
    }
  }
}
