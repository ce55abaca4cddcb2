/** The in-memory Raft log (hw3/internal/log/log.go): 1-indexed, with a
    sentinel at index 0 that never holds a real entry. */
module RaftLog {

  import opened Options

  datatype Entry = Entry(index: int, term: int, command: string)

  const SENTINEL := Entry(0, 0, "")

  /** Every entry sits at the position its index names, behind the sentinel. */
  predicate WellIndexed(log: seq<Entry>) {
    && |log| > 0
    && log[0] == SENTINEL
    && forall i :: 0 <= i < |log| ==> log[i].index == i
  }

  function LastIndexOf(log: seq<Entry>): int {
    |log| - 1
  }

  function LastTermOf(log: seq<Entry>): int
    requires |log| > 0
  {
    log[|log| - 1].term
  }

  /** The entries in the half-open range [from, to), clamped to the real ones. */
  function Slice(log: seq<Entry>, from: int, to: int): (r: seq<Entry>)
    requires |log| > 0
    ensures forall k :: 0 <= k < |r| ==> r[k] in log[1..]
  {
    var lo := if from <= 0 then 1 else from;
    var hi := if to > |log| then |log| else to;
    if lo >= hi then [] else log[lo..hi]
  }

  /** The slice has the entries of the clamped range, in place and no others. */
  lemma SliceIsExact(log: seq<Entry>, from: int, to: int, i: int)
    requires |log| > 0
    ensures |Slice(log, from, to)| <= |log| - 1
    ensures 1 <= i < |log| && from <= i < to ==>
              var lo := if from < 1 then 1 else from;
              i - lo < |Slice(log, from, to)| && Slice(log, from, to)[i - lo] == log[i]
    ensures |Slice(log, from, to)| > 0 ==>
              |Slice(log, from, to)| == (if to < |log| then to else |log|) - (if from < 1 then 1 else from)
  {
  }

  /** Two logs hold the same entries at indices 0..k. */
  predicate Agree(a: seq<Entry>, b: seq<Entry>, k: int) {
    && k < |a|
    && k < |b|
    && forall i :: 0 <= i <= k ==> a[i] == b[i]
  }

  /** How many leading entries of a message, from the i-th on, the follower already
      holds at indices base, base + 1, ...: the first missing or conflicting one. */
  function FirstMismatch(log: seq<Entry>, base: nat, entries: seq<Entry>, i: nat := 0): (k: nat)
    requires i <= |entries|
    ensures i <= k <= |entries| && (base + i <= |log| ==> base + k <= |log|)
    ensures forall j :: i <= j < k ==> base + j < |log| && log[base + j].term == entries[j].term
    ensures k < |entries| ==> base + k >= |log| || log[base + k].term != entries[k].term
    decreases |entries| - i
  {
    if i < |entries| && base + i < |log| && log[base + i].term == entries[i].term
    then FirstMismatch(log, base, entries, i + 1)
    else i
  }

  /** The specification of the merge: keep the log, longer tail included, when
      nothing is missing or in conflict; otherwise cut at the first mismatch and
      take the rest of the message. */
  function Merge(log: seq<Entry>, prev: nat, entries: seq<Entry>): (r: seq<Entry>)
    requires prev < |log|
    ensures |r| > prev && r[..prev + 1] == log[..prev + 1]
    ensures |r| >= prev + 1 + |entries|
    ensures forall i :: 0 <= i < |entries| ==> r[prev + 1 + i].term == entries[i].term
  {
    MergeTo(log, prev, entries, FirstMismatch(log, prev + 1, entries), |entries|)
  }

  /** The whole effect of a merge: a log that already holds the message stays as it
      is, longer tail included; any other keeps what precedes the first mismatch and
      ends with the rest of the message, commands included. */
  lemma MergeEffect(log: seq<Entry>, prev: nat, entries: seq<Entry>, k: nat)
    requires prev < |log| && k <= |entries| && prev + 1 + k <= |log|
    requires forall i :: 0 <= i < k ==> log[prev + 1 + i].term == entries[i].term
    requires k < |entries| && prev + 1 + k < |log| ==> log[prev + 1 + k].term != entries[k].term
    ensures k == |entries| ==> Merge(log, prev, entries) == log
    ensures k < |entries| ==> Merge(log, prev, entries) == log[..prev + 1 + k] + entries[k..]
  {
    var first := FirstMismatch(log, prev + 1, entries);
    assert first == k;
  }

  /** The indices at which a merge truncates: the first mismatch, if the log has an
      entry there to cut off. */
  function Cuts(log: seq<Entry>, prev: nat, entries: seq<Entry>): (r: seq<int>)
    requires prev < |log|
    ensures |r| <= 1
  {
    var k := FirstMismatch(log, prev + 1, entries);
    if k < |entries| && prev + 1 + k < |log| then [prev + 1 + k] else []
  }

  /** The log once the first i entries are merged, the first mismatch being k. */
  function MergeTo(log: seq<Entry>, prev: nat, entries: seq<Entry>, k: nat, i: nat): seq<Entry>
    requires prev + 1 + k <= |log| && i <= |entries|
  {
    if i <= k then log else log[..prev + 1 + k] + entries[k..i]
  }

  /** What one round of the merge loop does with the entry meant for index idx. */
  function MergeOne(log: seq<Entry>, idx: nat, e: Entry): seq<Entry> {
    if idx >= |log| then log + [e]
    else if log[idx].term == e.term then log
    else log[..idx] + [e]
  }

  lemma MergeNext(log: seq<Entry>, prev: nat, entries: seq<Entry>, k: nat, i: nat)
    requires prev + 1 + k <= |log| && i < |entries|
    requires i < k ==> log[prev + 1 + i].term == entries[i].term
    requires i == k ==> prev + 1 + k >= |log| || log[prev + 1 + k].term != entries[k].term
    ensures MergeTo(log, prev, entries, k, i + 1)
         == MergeOne(MergeTo(log, prev, entries, k, i), prev + 1 + i, entries[i])
  {
    if i == k {
      assert log[..|log|] == log && entries[k..i + 1] == [entries[i]];
    } else if i > k {
      assert entries[k..i + 1] == entries[k..i] + [entries[i]];
    }
  }

  class Log {
    var entries: seq<Entry>

    ghost predicate Valid()
      reads this
    {
      WellIndexed(entries)
    }

    constructor ()
      ensures Valid()
      ensures entries == [SENTINEL]
    {
      entries := [SENTINEL];
    }

    /** The source panics on a wrong index, so the right one is demanded. */
    method Append(entry: Entry)
      requires Valid()
      requires entry.index == LastIndex() + 1
      modifies this
      ensures Valid()
      ensures entries == old(entries) + [entry]
    {
      entries := entries + [entry];
    }

    function At(index: int): (r: Option<Entry>)
      requires Valid()
      reads this
      ensures r.Some? <==> 1 <= index <= LastIndex()
      ensures r.Some? ==> r.value.index == index && r.value == entries[index]
    {
      if index <= 0 || index >= |entries| then None else Some(entries[index])
    }

    function LastIndex(): int
      reads this
    {
      |entries| - 1
    }

    function LastTerm(): int
      requires Valid()
      reads this
    {
      entries[|entries| - 1].term
    }

    method Truncate(fromIndex: int)
      requires Valid()
      modifies this
      ensures Valid()
      ensures 1 <= fromIndex <= old(LastIndex()) ==> entries == old(entries)[..fromIndex]
      ensures !(1 <= fromIndex <= old(LastIndex())) ==> entries == old(entries)
    {
      if fromIndex <= 0 || fromIndex >= |entries| {
        return;
      }
      entries := entries[..fromIndex];
    }

    method Entries(from: int, to: int) returns (r: seq<Entry>)
      requires Valid()
      ensures r == Slice(entries, from, to)
    {
      var n := |entries|;
      var lo := from;
      var hi := to;
      if lo <= 0 {
        lo := 1;
      }
      if hi > n {
        hi := n;
      }
      if lo >= hi {
        return [];
      }
      r := entries[lo..hi];
    }
  }
}
