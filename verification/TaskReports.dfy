/** What the numbers of an ingest report count, in terms of the index before and after. */
module TaskReports {
  import opened Basics
  import opened TaskIndex
  import opened TaskLedger

  /** The tasks listed by the first n observations. */
  function Listed(s: Snapshot, n: nat): set<(string, string)>
    requires n <= |s.tasks|
  {
    if n == 0 then {} else Listed(s, n - 1) + {(s.host, s.tasks[n - 1].thread)}
  }

  lemma {:induction false} ListedMeans(s: Snapshot, n: nat, k: (string, string))
    requires n <= |s.tasks|
    ensures k in Listed(s, n) <==> k.0 == s.host && exists i :: 0 <= i < n && s.tasks[i].thread == k.1
  {
    if n > 0 {
      ListedMeans(s, n - 1, k);
    }
  }

  /** Known, and different afterwards. */
  function Changing(x: Index, s: Snapshot): set<(string, string)> {
    set k | k in x && Lookup(Apply(x, s), k) != Some(x[k])
  }

  /** Known, and judged no earlier than this. */
  function Judged(x: Index, s: Snapshot): set<(string, string)> {
    set k | k in x && !Older(x[k].state, StampOf(s))
  }

  lemma {:induction false} OneListed(s: Snapshot, n: nat)
    requires DistinctThreads(s.tasks) && 0 < n <= |s.tasks|
    ensures (s.host, s.tasks[n - 1].thread) !in Listed(s, n - 1)
  {
    ListedMeans(s, n - 1, (s.host, s.tasks[n - 1].thread));
  }

  lemma {:induction false} OneChanged(x: Index, s: Snapshot, o: Observation)
    requires DistinctThreads(s.tasks) && o in s.tasks
    ensures var k := (s.host, o.thread);
            var c := CountOne(Lookup(x, k), s, o);
            && c.inserted == (if k in x then 0 else 1)
            && c.updated == (if k in x && Lookup(Apply(x, s), k) != Some(x[k]) then 1 else 0)
            && c.stale == (if k in x && !Older(x[k].state, StampOf(s)) then 1 else 0)
  {
    var k := (s.host, o.thread);
    AppliedEverywhere(x, s, k);
    ObservedIs(s.tasks, o);
    if k in x && Older(x[k].state, StampOf(s)) {
      OlderIsStrict(x[k].state, StampOf(s), StampOf(s));
    }
  }

  lemma {:induction false} AddOne<K>(listed: set<K>, more: set<K>, k: K, chosen: set<K>)
    requires k !in listed && more == listed + {k}
    ensures |more * chosen| == |listed * chosen| + if k in chosen then 1 else 0
    ensures |more - chosen| == |listed - chosen| + if k in chosen then 0 else 1
  {
    if k in chosen {
      assert more * chosen == listed * chosen + {k} && more - chosen == listed - chosen;
    } else {
      assert more * chosen == listed * chosen && more - chosen == listed - chosen + {k};
    }
  }

  /** What one observation adds to the counts depends on these sets only. */
  ghost predicate CountsBy(x: Index, s: Snapshot, known: set<(string, string)>, changing: set<(string, string)>,
          judged: set<(string, string)>)
  {
    forall i :: 0 <= i < |s.tasks| ==>
      var k := (s.host, s.tasks[i].thread);
      CountOne(Lookup(x, k), s, s.tasks[i])
      == Counts(if k in known then 0 else 1, if k in changing then 1 else 0, if k in judged then 1 else 0)
  }

  lemma {:induction false} TallyUnfolds(x: Index, s: Snapshot, n: nat)
    requires 0 < n <= |s.tasks|
    ensures var a, b := Tally(x, s, n - 1), CountOne(Lookup(x, (s.host, s.tasks[n - 1].thread)), s, s.tasks[n - 1]);
            Tally(x, s, n) == Counts(a.inserted + b.inserted, a.updated + b.updated, a.stale + b.stale)
  {
  }

  lemma {:induction false} TallyBy(x: Index, s: Snapshot, n: nat, known: set<(string, string)>,
          changing: set<(string, string)>, judged: set<(string, string)>)
    requires DistinctThreads(s.tasks) && n <= |s.tasks| && CountsBy(x, s, known, changing, judged)
    ensures Tally(x, s, n) == Counts(|Listed(s, n) - known|, |Listed(s, n) * changing|, |Listed(s, n) * judged|)
  {
    if n > 0 {
      var k := (s.host, s.tasks[n - 1].thread);
      TallyBy(x, s, n - 1, known, changing, judged);
      TallyUnfolds(x, s, n);
      OneListed(s, n);
      AddOne(Listed(s, n - 1), Listed(s, n), k, known);
      AddOne(Listed(s, n - 1), Listed(s, n), k, changing);
      AddOne(Listed(s, n - 1), Listed(s, n), k, judged);
    }
  }

  lemma {:induction false} TallyCounts(x: Index, s: Snapshot, n: nat)
    requires DistinctThreads(s.tasks) && n <= |s.tasks|
    ensures Tally(x, s, n)
            == Counts(|Listed(s, n) - x.Keys|, |Listed(s, n) * Changing(x, s)|, |Listed(s, n) * Judged(x, s)|)
  {
    forall i | 0 <= i < |s.tasks|
      ensures var k := (s.host, s.tasks[i].thread);
              CountOne(Lookup(x, k), s, s.tasks[i])
              == Counts(if k in x.Keys then 0 else 1, if k in Changing(x, s) then 1 else 0,
                        if k in Judged(x, s) then 1 else 0)
    {
      OneChanged(x, s, s.tasks[i]);
    }
    TallyBy(x, s, n, x.Keys, Changing(x, s), Judged(x, s));
  }

  predicate IsMissing(x: Index, k: (string, string)) {
    k in x && x[k].missing.Some?
  }

  lemma {:induction false} MissingAt(x: Index, s: Snapshot, k: (string, string))
    requires k in x
    ensures k in NewlyMissing(x, s) <==> !IsMissing(x, k) && IsMissing(Apply(x, s), k)
  {
    AppliedEverywhere(x, s, k);
  }

  lemma {:induction false} MissingCounts(x: Index, s: Snapshot)
    ensures NewlyMissing(x, s) == set k | k in x && !IsMissing(x, k) && IsMissing(Apply(x, s), k)
  {
    forall k | k in x ensures k in NewlyMissing(x, s) <==> !IsMissing(x, k) && IsMissing(Apply(x, s), k) {
      MissingAt(x, s, k);
    }
  }

  lemma {:induction false} ListedSize(s: Snapshot, n: nat)
    requires DistinctThreads(s.tasks) && n <= |s.tasks|
    ensures |Listed(s, n)| == n
  {
    if n > 0 {
      ListedSize(s, n - 1);
      OneListed(s, n);
    }
  }

  lemma {:induction false} NewAt(x: Index, s: Snapshot, k: (string, string))
    requires k !in x
    ensures k in Apply(x, s) <==> k in Listed(s, |s.tasks|)
  {
    AppliedEverywhere(x, s, k);
    ObservedMeans(s.tasks, k.1);
    ListedMeans(s, |s.tasks|, k);
  }

  lemma {:induction false} NewAreInserted(x: Index, s: Snapshot)
    ensures Listed(s, |s.tasks|) - x.Keys == Apply(x, s).Keys - x.Keys
  {
    forall k | k !in x ensures k in Apply(x, s) <==> k in Listed(s, |s.tasks|) { NewAt(x, s, k); }
  }

  /** A report repeats the snapshot's header and says how many tasks it listed, how many of them the index did not know,
      how many of the known ones changed, how many it already knew something at least as new about, and how many others
      went missing. */
  lemma {:induction false} ReportCounts(x: Index, s: Snapshot)
    requires DistinctThreads(s.tasks)
    ensures var r, y, listed := ReportOf(x, s), Apply(x, s), Listed(s, |s.tasks|);
            && r.request == s.request && r.host == s.host && r.source == s.source && r.at == s.at
            && r.coverage == s.coverage && !r.replayed && r.observed == |listed|
            && r.counts.inserted == |y.Keys - x.Keys|
            && r.counts.updated == |listed * set k | k in x && Lookup(y, k) != Some(x[k])|
            && r.counts.stale == |listed * set k | k in x && AtMost(StampOf(s), x[k].state)|
            && r.missing == |set k | k in x && !IsMissing(x, k) && IsMissing(y, k)|
  {
    TallyCounts(x, s, |s.tasks|);
    MissingCounts(x, s);
    ListedSize(s, |s.tasks|);
    NewAreInserted(x, s);
    JudgedAreNewer(x, s);
  }

  lemma {:induction false} JudgedAreNewer(x: Index, s: Snapshot)
    ensures Judged(x, s) == set k | k in x && AtMost(StampOf(s), x[k].state)
  {
    forall k | k in x ensures Older(x[k].state, StampOf(s)) <==> !AtMost(StampOf(s), x[k].state) {
      OlderIsStrict(x[k].state, StampOf(s), StampOf(s));
    }
  }
}
