/** The recent-transactions list of a price page: each new entry goes in
    front and the list is cut to `MaxTransactions`
    (`[tx, ...prev].slice(0, MAX_TRANSACTIONS)`). */
module ActivityLog {

  const MaxTransactions: nat := 10

  function Min(a: int, b: int): int
  {
    if a <= b then a else b
  }

  /** The list after one new entry: the entry first, then the old list in
      its order, at most `MaxTransactions` long, so that once the list is
      full the oldest entry is dropped. */
  function Record<T>(log: seq<T>, entry: T): (r: seq<T>)
    ensures |r| == Min(|log| + 1, MaxTransactions)
    ensures r[0] == entry
    ensures forall i :: 1 <= i < |r| ==> r[i] == log[i - 1]
  {
    ([entry] + log)[..Min(|log| + 1, MaxTransactions)]
  }

  function Reverse<T>(s: seq<T>): (r: seq<T>)
    ensures |r| == |s|
    ensures forall i :: 0 <= i < |s| ==> r[i] == s[|s| - 1 - i]
  {
    if s == [] then [] else Reverse(s[1..]) + [s[0]]
  }

  /** The list after entries arrive one by one, oldest first. */
  function RecordAll<T>(log: seq<T>, entries: seq<T>): seq<T>
    decreases |entries|
  {
    if entries == [] then log else RecordAll(Record(log, entries[0]), entries[1..])
  }

  /** A full list loses exactly its oldest entry. */
  lemma RecordEvictsOldest<T>(log: seq<T>, entry: T)
    requires |log| >= MaxTransactions
    ensures Record(log, entry) == [entry] + log[..MaxTransactions - 1]
  {
  }

  lemma PrefixOfAppend<T>(a: seq<T>, b: seq<T>, m: nat, k: nat)
    requires m <= |b| && k <= |a| + m
    ensures (a + b[..m])[..k] == (a + b)[..k]
  {
    assert forall i :: 0 <= i < k ==> (a + b[..m])[..k][i] == (a + b)[..k][i];
  }

  /** After any run of arrivals the list holds the newest entries, newest
      first, followed by what was there before, cut to `MaxTransactions`. */
  lemma {:induction false} RecordAllNewestFirst<T>(log: seq<T>, entries: seq<T>)
    requires entries != [] || |log| <= MaxTransactions
    ensures RecordAll(log, entries)
            == (Reverse(entries) + log)[..Min(|entries| + |log|, MaxTransactions)]
    decreases |entries|
  {
    if entries == [] {
      assert Reverse(entries) + log == log;
    } else {
      var e := entries[0];
      var rest := entries[1..];
      var log' := Record(log, e);
      RecordAllNewestFirst(log', rest);
      var m := Min(|log| + 1, MaxTransactions);
      var k := Min(|rest| + |log'|, MaxTransactions);
      assert log' == ([e] + log)[..m];
      PrefixOfAppend(Reverse(rest), [e] + log, m, k);
      assert Reverse(entries) == Reverse(rest) + [e];
      assert Reverse(rest) + ([e] + log) == Reverse(entries) + log;
      assert k == Min(|entries| + |log|, MaxTransactions);
    }
  }

  /** The list never grows beyond `MaxTransactions`. */
  lemma {:induction false} RecordAllBounded<T>(log: seq<T>, entries: seq<T>)
    requires |log| <= MaxTransactions
    ensures |RecordAll(log, entries)| <= MaxTransactions
    decreases |entries|
  {
    if entries != [] {
      RecordAllBounded(Record(log, entries[0]), entries[1..]);
    }
  }
}
