/** Whatever order snapshots arrive in, the index converges to the newest observation of each task. */
module TaskConvergence {
  import opened Basics
  import opened TaskIndex

  /** Ingesting snapshots one after another, the last element last. */
  function Fold(ss: seq<Snapshot>): Index {
    if ss == [] then map[] else Apply(Fold(ss[..|ss| - 1]), ss[|ss| - 1])
  }

  // ---- the stamps of one record ----

  /** The newest listing and the newest judgement differ exactly while the task is missing. */
  predicate StampsOk(t: Task) {
    && AtMost(t.seen, t.state)
    && (t.seen == t.state <==> t.missing.None?)
    && (t.missing.Some? ==> t.seen.at <= t.missing.value <= t.state.at && t.tombstoned.None?)
    && AtMost(NEVER, t.classified)
  }

  lemma {:induction false} ClassifyAdvances(t: Task, s: Snapshot, c: Option<Classification>)
    requires StampsOk(t)
    ensures StampsOk(Classify(t, s, c)) && AtMost(t.classified, Classify(t, s, c).classified)
    ensures c.Some? ==> AtMost(ClassStamp(s, c.value), Classify(t, s, c).classified)
  {
    if c.Some? {
      OlderIsStrict(t.classified, ClassStamp(s, c.value), NEVER);
      OlderIsStrict(NEVER, t.classified, ClassStamp(s, c.value));
    }
  }

  /** What observing a task keeps and moves, from any record of it. */
  lemma {:induction false} MergeAdvances(existing: Option<Task>, s: Snapshot, o: Observation)
    requires existing.Some? ==> StampsOk(existing.value)
    ensures var t := Merge(existing, s, o);
            && StampsOk(t) && AtMost(StampOf(s), t.state)
            && (o.classification.Some? ==> AtMost(ClassStamp(s, o.classification.value), t.classified))
            && (existing.Some? ==>
                  AtMost(existing.value.state, t.state) && AtMost(existing.value.classified, t.classified))
  {
    if existing.Some? {
      OlderIsStrict(existing.value.state, StampOf(s), StampOf(s));
      ClassifyAdvances(existing.value, s, o.classification);
    } else {
      ClassifyAdvances(BLANK, s, o.classification);
    }
  }

  lemma {:induction false} AbsentAdvances(t: Task, s: Snapshot)
    requires StampsOk(t)
    ensures StampsOk(MarkAbsent(t, s)) && AtMost(t.state, MarkAbsent(t, s).state)
    ensures MarkAbsent(t, s).classified == t.classified
  {
    OlderIsStrict(t.seen, t.state, StampOf(s));
    OlderIsStrict(t.state, StampOf(s), StampOf(s));
  }

  ghost predicate AllStampsOk(x: Index) {
    forall k :: k in x ==> StampsOk(x[k])
  }

  /** No snapshot, window or complete, moves a stamp back or unsettles a record. */
  lemma {:induction false} ApplyAdvances(x: Index, s: Snapshot, k: (string, string))
    requires AllStampsOk(x)
    ensures k in Apply(x, s) ==> StampsOk(Apply(x, s)[k])
    ensures k in x ==>
              && k in Apply(x, s)
              && AtMost(x[k].state, Apply(x, s)[k].state) && AtMost(x[k].classified, Apply(x, s)[k].classified)
  {
    AppliedEverywhere(x, s, k);
    var o := Observed(s.tasks, k.1);
    if k.0 == s.host && o.Some? {
      MergeAdvances(Lookup(x, k), s, o.value);
    } else if k in x {
      AbsentAdvances(x[k], s);
    }
  }

  /** The stamp invariant, after any history of window and complete snapshots. */
  lemma {:induction false} StampsHold(ss: seq<Snapshot>)
    ensures AllStampsOk(Fold(ss))
  {
    if ss != [] {
      var before := Fold(ss[..|ss| - 1]);
      StampsHold(ss[..|ss| - 1]);
      forall k | k in Fold(ss) ensures StampsOk(Fold(ss)[k]) {
        ApplyAdvances(before, ss[|ss| - 1], k);
      }
    }
  }

  // ---- ingesting a snapshot again ----

  /** The record already knows everything the observation could tell. */
  predicate Covers(t: Task, s: Snapshot, o: Observation) {
    AtMost(StampOf(s), t.state)
      && (o.classification.Some? ==> AtMost(ClassStamp(s, o.classification.value), t.classified))
  }

  lemma {:induction false} CoveredMergeIsNoop(t: Task, s: Snapshot, o: Observation)
    requires Covers(t, s, o)
    ensures Merge(Some(t), s, o) == t
  {
    OlderIsStrict(t.state, StampOf(s), t.state);
    if o.classification.Some? {
      OlderIsStrict(t.classified, ClassStamp(s, o.classification.value), t.classified);
    }
  }

  lemma {:induction false} AtMostTransitive(a: Stamp, b: Stamp, c: Stamp)
    requires AtMost(a, b) && AtMost(b, c)
    ensures AtMost(a, c)
  {
    OlderIsStrict(a, b, c);
  }

  lemma {:induction false} Covered(ss: seq<Snapshot>, i: nat, o: Observation)
    requires i < |ss| && o in ss[i].tasks && DistinctThreads(ss[i].tasks)
    ensures (ss[i].host, o.thread) in Fold(ss) && Covers(Fold(ss)[(ss[i].host, o.thread)], ss[i], o)
  {
    var k := (ss[i].host, o.thread);
    var before, last := Fold(ss[..|ss| - 1]), ss[|ss| - 1];
    StampsHold(ss[..|ss| - 1]);
    if i == |ss| - 1 {
      ObservedIs(last.tasks, o);
      AppliedEverywhere(before, last, k);
      MergeAdvances(Lookup(before, k), last, o);
    } else {
      Covered(ss[..|ss| - 1], i, o);
      ApplyAdvances(before, last, k);
      AtMostTransitive(StampOf(ss[i]), before[k].state, Fold(ss)[k].state);
      if o.classification.Some? {
        AtMostTransitive(ClassStamp(ss[i], o.classification.value), before[k].classified, Fold(ss)[k].classified);
      }
    }
  }

  /** A snapshot that was ever ingested has nothing to add about a task it lists. */
  lemma {:induction false} ListedAgain(ss: seq<Snapshot>, i: nat, k: (string, string))
    requires i < |ss| && DistinctThreads(ss[i].tasks) && k.0 == ss[i].host && Observed(ss[i].tasks, k.1).Some?
    ensures Lookup(Apply(Fold(ss), ss[i]), k) == Lookup(Fold(ss), k)
  {
    var x, s := Fold(ss), ss[i];
    var o := Observed(s.tasks, k.1).value;
    AppliedEverywhere(x, s, k);
    ObservedMeans(s.tasks, k.1);
    Covered(ss, i, o);
    CoveredMergeIsNoop(x[k], s, o);
  }

  /** A window snapshot that was ever ingested changes nothing when it comes again, however late and whatever came in
      between: forgetting its replay record is harmless. */
  lemma {:induction false} WindowAgainIsNoop(ss: seq<Snapshot>, i: nat)
    requires i < |ss| && ss[i].coverage == WINDOW && DistinctThreads(ss[i].tasks)
    ensures Apply(Fold(ss), ss[i]) == Fold(ss)
  {
    var x, s := Fold(ss), ss[i];
    forall k ensures Lookup(Apply(x, s), k) == Lookup(x, k) {
      AppliedEverywhere(x, s, k);
      if k.0 == s.host && Observed(s.tasks, k.1).Some? { ListedAgain(ss, i, k); }
    }
    SameEverywhere(Apply(x, s), x);
  }

  /** A live task of the snapshot's host and source that it does not list and whose stamp it beats. */
  predicate Misses(x: Index, s: Snapshot, k: (string, string)) {
    k in x && k.0 == s.host && Observed(s.tasks, k.1).None? && Absents(x[k], s)
  }

  lemma {:induction false} MissedChanges(x: Index, s: Snapshot, k: (string, string))
    requires s.coverage == COMPLETE && Misses(x, s, k)
    ensures Lookup(Apply(x, s), k) != Lookup(x, k)
  {
    AppliedEverywhere(x, s, k);
    OlderIsStrict(x[k].state, StampOf(s), x[k].state);
  }

  /** A complete snapshot that comes again changes nothing exactly when it misses no task: what came in between brought
      no task of its source that it does not list, under an older stamp. */
  lemma {:induction false} CompleteAgainIff(ss: seq<Snapshot>, i: nat)
    requires i < |ss| && ss[i].coverage == COMPLETE && DistinctThreads(ss[i].tasks)
    ensures Apply(Fold(ss), ss[i]) == Fold(ss) <==> forall k :: !Misses(Fold(ss), ss[i], k)
  {
    var x, s := Fold(ss), ss[i];
    if k :| Misses(x, s, k) {
      MissedChanges(x, s, k);
    } else {
      forall k ensures Lookup(Apply(x, s), k) == Lookup(x, k) {
        AppliedEverywhere(x, s, k);
        if k.0 == s.host && Observed(s.tasks, k.1).Some? {
          ListedAgain(ss, i, k);
        } else {
          assert !Misses(x, s, k);
        }
      }
      SameEverywhere(Apply(x, s), x);
    }
  }

  const LATE := Observation("t", "", "", "", "", "", false, 0, 0, None, false, None, None)
  const WHOLE := Snapshot("r", "h", "s", 5, COMPLETE, [])
  const BEHIND := Snapshot("q", "h", "s", 3, WINDOW, [LATE])

  lemma {:induction false} ExamplesAreValid()
    ensures ValidSnapshot(WHOLE) && ValidSnapshot(BEHIND)
  {
    AsciiLen("");
    AsciiLen("r");
    AsciiLen("h");
    AsciiLen("s");
    AsciiLen("q");
    AsciiLen("t");
    assert ValidObservation(LATE);
  }

  lemma {:induction false} LateIsMissed(x: Index)
    requires ("h", "t") !in x
    ensures Misses(Apply(x, BEHIND), WHOLE, ("h", "t"))
  {
    var k := ("h", "t");
    ObservedIs(BEHIND.tasks, LATE);
    AppliedEverywhere(x, BEHIND, k);
    assert Lookup(Apply(x, BEHIND), k) == Some(MergeTask(None, BEHIND, LATE));
  }

  /** It can: a window snapshot that arrives later, though it is older, brings a task which the complete one, coming
      again, marks missing. */
  lemma {:induction false} CompleteAgainMarks()
    ensures ValidSnapshot(WHOLE) && ValidSnapshot(BEHIND)
    ensures Misses(Fold([WHOLE, BEHIND]), WHOLE, ("h", "t"))
    ensures Apply(Fold([WHOLE, BEHIND]), WHOLE) != Fold([WHOLE, BEHIND])
  {
    ExamplesAreValid();
    FoldOfTwo(WHOLE, BEHIND);
    AppliedEverywhere(map[], WHOLE, ("h", "t"));
    LateIsMissed(Apply(map[], WHOLE));
    MissedChanges(Fold([WHOLE, BEHIND]), WHOLE, ("h", "t"));
  }

  lemma {:induction false} FoldOfTwo(s: Snapshot, u: Snapshot)
    ensures Fold([s, u]) == Apply(Apply(map[], s), u)
  {
    var none: seq<Snapshot>, one, two := [], [s], [s, u];
    assert two[..|two| - 1] == one && one[..|one| - 1] == none;
    assert Fold(none) == map[];
    assert Fold(one) == Apply(Fold(one[..|one| - 1]), s);
    assert Fold(two) == Apply(Fold(two[..|two| - 1]), u);
  }

  // ---- convergence ----

  /** This host sends window snapshots, and a request ID always names the same one; other hosts may do anything. */
  ghost predicate Windows(ss: seq<Snapshot>, host: string) {
    && (forall i :: 0 <= i < |ss| && ss[i].host == host ==> ss[i].coverage == WINDOW && DistinctThreads(ss[i].tasks))
    && (forall i, j :: 0 <= i < j < |ss| && ss[i].host == ss[j].host == host && ss[i].request == ss[j].request ==>
         ss[i] == ss[j])
  }

  /** The same snapshots of this host arrived. */
  ghost predicate SameOf(ss: seq<Snapshot>, us: seq<Snapshot>, host: string) {
    forall s: Snapshot :: s.host == host ==> (s in ss <==> s in us)
  }

  /** Snapshot `i` observes the task. */
  predicate Sees(ss: seq<Snapshot>, k: (string, string), i: nat) {
    i < |ss| && ss[i].host == k.0 && Observed(ss[i].tasks, k.1).Some?
  }

  /** ... and no other one that does is newer. */
  ghost predicate Newest(ss: seq<Snapshot>, k: (string, string), i: nat) {
    Sees(ss, k, i) && forall j: nat :: Sees(ss, k, j) ==> AtMost(StampOf(ss[j]), StampOf(ss[i]))
  }

  function ClassOf(ss: seq<Snapshot>, k: (string, string), i: nat): Option<Classification> {
    if Sees(ss, k, i) then Observed(ss[i].tasks, k.1).value.classification else None
  }

  predicate Classifies(ss: seq<Snapshot>, k: (string, string), i: nat) {
    i < |ss| && ClassOf(ss, k, i).Some?
  }

  ghost predicate NewestClass(ss: seq<Snapshot>, k: (string, string), i: nat) {
    && Classifies(ss, k, i) && Older(NEVER, ClassStamp(ss[i], ClassOf(ss, k, i).value))
    && forall j: nat :: Classifies(ss, k, j) ==>
         AtMost(ClassStamp(ss[j], ClassOf(ss, k, j).value), ClassStamp(ss[i], ClassOf(ss, k, i).value))
  }

  /** The record shows this snapshot's view of the task. */
  predicate ShowsState(t: Task, s: Snapshot, o: Observation) {
    && t.unread == o.unread && t.tombstoned == (if o.tombstoned then Some(s.at) else None)
    && t.updated == (if o.updated != 0 then o.updated else s.at)
    && t.seen == StampOf(s) && t.state == StampOf(s) && t.source == s.source && t.missing.None?
  }

  predicate ShowsClass(t: Task, s: Snapshot, c: Classification) {
    t.summary == c.summary && t.classified == ClassStamp(s, c)
  }

  /** No classification beats the baseline, or the newest one that does is shown. */
  ghost predicate ClassSettled(ss: seq<Snapshot>, k: (string, string), t: Task) {
    if t.classified == NEVER
    then t.summary == NO_SUMMARY
      && forall i: nat :: Classifies(ss, k, i) ==> AtMost(ClassStamp(ss[i], ClassOf(ss, k, i).value), NEVER)
    else exists i: nat :: NewestClass(ss, k, i) && ShowsClass(t, ss[i], ClassOf(ss, k, i).value)
  }

  /** All that the record of `k` says is what the newest snapshots said. */
  ghost predicate Settled(ss: seq<Snapshot>, k: (string, string), t: Option<Task>) {
    && (t.None? ==> forall i: nat :: !Sees(ss, k, i))
    && (t.Some? ==>
          && (exists i: nat :: Newest(ss, k, i) && ShowsState(t.value, ss[i], Observed(ss[i].tasks, k.1).value))
          && ClassSettled(ss, k, t.value))
  }

  /** Appending a snapshot leaves what the earlier ones say about a task alone. */
  lemma {:induction false} EarlierUnchanged(ss: seq<Snapshot>, k: (string, string), i: nat)
    requires ss != [] && i < |ss| - 1
    ensures Sees(ss, k, i) == Sees(ss[..|ss| - 1], k, i) && ClassOf(ss, k, i) == ClassOf(ss[..|ss| - 1], k, i)
  {
  }

  /** One more window snapshot, as far as one record goes. */
  function Seen(before: Option<Task>, ss: seq<Snapshot>, k: (string, string)): Option<Task>
    requires ss != []
  {
    var n := |ss| - 1;
    if Sees(ss, k, n) then Some(Merge(before, ss[n], Observed(ss[n].tasks, k.1).value)) else before
  }

  lemma {:induction false} FoldSees(ss: seq<Snapshot>, k: (string, string))
    requires Windows(ss, k.0) && ss != []
    ensures Lookup(Fold(ss), k) == Seen(Lookup(Fold(ss[..|ss| - 1]), k), ss, k)
  {
    AppliedEverywhere(Fold(ss[..|ss| - 1]), ss[|ss| - 1], k);
  }

  lemma {:induction false} EarlierAll(ss: seq<Snapshot>, k: (string, string))
    requires ss != []
    ensures forall i: nat :: i < |ss| - 1 ==> Sees(ss, k, i) == Sees(ss[..|ss| - 1], k, i)
    ensures forall i: nat :: i < |ss| - 1 ==> ClassOf(ss, k, i) == ClassOf(ss[..|ss| - 1], k, i)
    ensures forall i: nat :: i < |ss| - 1 ==> Classifies(ss, k, i) == Classifies(ss[..|ss| - 1], k, i)
  {
    forall i: nat | i < |ss| - 1
      ensures Sees(ss, k, i) == Sees(ss[..|ss| - 1], k, i) && ClassOf(ss, k, i) == ClassOf(ss[..|ss| - 1], k, i)
    {
      EarlierUnchanged(ss, k, i);
    }
  }

  lemma {:induction false} NewestPersists(ss: seq<Snapshot>, k: (string, string), i: nat)
    requires ss != [] && Newest(ss[..|ss| - 1], k, i)
    requires Sees(ss, k, |ss| - 1) ==> AtMost(StampOf(ss[|ss| - 1]), StampOf(ss[i]))
    ensures Newest(ss, k, i)
  {
    EarlierAll(ss, k);
    forall j: nat | Sees(ss, k, j) ensures AtMost(StampOf(ss[j]), StampOf(ss[i])) {
      if j < |ss| - 1 { assert Sees(ss[..|ss| - 1], k, j); }
    }
  }

  lemma {:induction false} NewestChanges(ss: seq<Snapshot>, k: (string, string), i: nat)
    requires ss != [] && Newest(ss[..|ss| - 1], k, i)
    requires Sees(ss, k, |ss| - 1) && AtMost(StampOf(ss[i]), StampOf(ss[|ss| - 1]))
    ensures Newest(ss, k, |ss| - 1)
  {
    EarlierAll(ss, k);
    forall j: nat | Sees(ss, k, j) ensures AtMost(StampOf(ss[j]), StampOf(ss[|ss| - 1])) {
      if j < |ss| - 1 {
        assert Sees(ss[..|ss| - 1], k, j);
        AtMostTransitive(StampOf(ss[j]), StampOf(ss[i]), StampOf(ss[|ss| - 1]));
      }
    }
  }

  lemma {:induction false} StateSettles(ss: seq<Snapshot>, k: (string, string), before: Option<Task>)
    requires ss != [] && Settled(ss[..|ss| - 1], k, before)
    ensures Seen(before, ss, k).None? ==> forall i: nat :: !Sees(ss, k, i)
    ensures Seen(before, ss, k).Some? ==>
              exists i: nat :: Newest(ss, k, i)
                && ShowsState(Seen(before, ss, k).value, ss[i], Observed(ss[i].tasks, k.1).value)
  {
    var n := |ss| - 1;
    EarlierAll(ss, k);
    if before.Some? {
      var i: nat :| Newest(ss[..n], k, i)
        && ShowsState(before.value, ss[..n][i], Observed(ss[..n][i].tasks, k.1).value);
      if Sees(ss, k, n) && Older(StampOf(ss[i]), StampOf(ss[n])) {
        NewestChanges(ss, k, i);
      } else {
        OlderIsStrict(StampOf(ss[i]), StampOf(ss[n]), StampOf(ss[n]));
        NewestPersists(ss, k, i);
      }
    } else if Sees(ss, k, n) {
      assert Newest(ss, k, n);
    }
  }

  function RecordOf(t: Option<Task>): Task {
    if t.Some? then t.value else BLANK
  }

  lemma {:induction false} SeenClass(ss: seq<Snapshot>, k: (string, string), before: Option<Task>)
    requires ss != [] && Seen(before, ss, k).Some?
    ensures var t, u := Seen(before, ss, k).value, Classify(RecordOf(before), ss[|ss| - 1], ClassOf(ss, k, |ss| - 1));
            t.summary == u.summary && t.classified == u.classified
  {
  }

  lemma {:induction false} ClassStays(ss: seq<Snapshot>, k: (string, string), t: Task)
    requires ss != [] && ClassSettled(ss[..|ss| - 1], k, t)
    requires Classifies(ss, k, |ss| - 1) ==>
             !Older(t.classified, ClassStamp(ss[|ss| - 1], ClassOf(ss, k, |ss| - 1).value))
    ensures ClassSettled(ss, k, t)
  {
    var n := |ss| - 1;
    EarlierAll(ss, k);
    if Classifies(ss, k, n) { OlderIsStrict(t.classified, ClassStamp(ss[n], ClassOf(ss, k, n).value), NEVER); }
    if t.classified != NEVER {
      var i: nat :| NewestClass(ss[..n], k, i) && ShowsClass(t, ss[..n][i], ClassOf(ss[..n], k, i).value);
      forall j: nat | Classifies(ss, k, j) ensures AtMost(ClassStamp(ss[j], ClassOf(ss, k, j).value), t.classified) {
        if j < n { assert Classifies(ss[..n], k, j); }
      }
      assert NewestClass(ss, k, i);
    } else {
      forall j: nat | Classifies(ss, k, j) ensures AtMost(ClassStamp(ss[j], ClassOf(ss, k, j).value), NEVER) {
        if j < n { assert Classifies(ss[..n], k, j); }
      }
    }
  }

  lemma {:induction false} ClassBelow(ss: seq<Snapshot>, k: (string, string), t: Task, j: nat)
    requires ClassSettled(ss, k, t) && Classifies(ss, k, j)
    ensures AtMost(ClassStamp(ss[j], ClassOf(ss, k, j).value), t.classified)
    ensures AtMost(NEVER, t.classified)
  {
  }

  lemma {:induction false} ClassChanges(ss: seq<Snapshot>, k: (string, string), t: Task)
    requires ss != [] && ClassSettled(ss[..|ss| - 1], k, t) && AtMost(NEVER, t.classified)
    requires Classifies(ss, k, |ss| - 1)
    requires Older(t.classified, ClassStamp(ss[|ss| - 1], ClassOf(ss, k, |ss| - 1).value))
    ensures ClassSettled(ss, k, Classify(t, ss[|ss| - 1], ClassOf(ss, k, |ss| - 1)))
  {
    var n := |ss| - 1;
    var mine := ClassStamp(ss[n], ClassOf(ss, k, n).value);
    EarlierAll(ss, k);
    OlderIsStrict(NEVER, t.classified, mine);
    OlderIsStrict(NEVER, mine, mine);
    forall j: nat | Classifies(ss, k, j) ensures AtMost(ClassStamp(ss[j], ClassOf(ss, k, j).value), mine) {
      if j < n {
        assert Classifies(ss[..n], k, j);
        ClassBelow(ss[..n], k, t, j);
        AtMostTransitive(ClassStamp(ss[j], ClassOf(ss, k, j).value), t.classified, mine);
      }
    }
    assert NewestClass(ss, k, n);
  }

  lemma {:induction false} BlankIsSettled(ss: seq<Snapshot>, k: (string, string))
    requires forall i: nat :: !Sees(ss, k, i)
    ensures ClassSettled(ss, k, BLANK)
  {
  }

  lemma {:induction false} AboveNever(ss: seq<Snapshot>, k: (string, string), t: Task)
    requires ClassSettled(ss, k, t)
    ensures AtMost(NEVER, t.classified)
  {
  }

  lemma {:induction false} ClassSettles(ss: seq<Snapshot>, k: (string, string), before: Option<Task>)
    requires ss != [] && Settled(ss[..|ss| - 1], k, before) && Seen(before, ss, k).Some?
    ensures ClassSettled(ss, k, Seen(before, ss, k).value)
  {
    var n, t := |ss| - 1, RecordOf(before);
    if before.None? { BlankIsSettled(ss[..n], k); }
    assert ClassSettled(ss[..n], k, t);
    AboveNever(ss[..n], k, t);
    SeenClass(ss, k, before);
    if Classifies(ss, k, n) && Older(t.classified, ClassStamp(ss[n], ClassOf(ss, k, n).value)) {
      ClassChanges(ss, k, t);
    } else {
      ClassStays(ss, k, t);
    }
  }

  /** Last writer wins: in any order of arrival each record shows the newest snapshot that observes the task, and the
      newest classification, even one that arrived in a stale snapshot. */
  lemma {:induction false} Converges(ss: seq<Snapshot>, k: (string, string))
    requires Windows(ss, k.0)
    ensures Settled(ss, k, Lookup(Fold(ss), k))
  {
    if ss != [] {
      var before := Lookup(Fold(ss[..|ss| - 1]), k);
      Converges(ss[..|ss| - 1], k);
      FoldSees(ss, k);
      StateSettles(ss, k, before);
      if Seen(before, ss, k).Some? { ClassSettles(ss, k, before); }
    }
  }

  /** The fields that do not depend on the order of arrival. */
  predicate SameView(a: Task, b: Task) {
    && a.unread == b.unread && a.tombstoned == b.tombstoned && a.updated == b.updated && a.seen == b.seen
    && a.state == b.state
    && a.source == b.source && a.missing == b.missing && a.summary == b.summary && a.classified == b.classified
  }

  /** Two arrival orders of the same window snapshots of a host index the same of its tasks and agree on all of these
      fields, whatever other hosts send. */
  lemma {:induction false} AnyOrderAgrees(ss: seq<Snapshot>, us: seq<Snapshot>, k: (string, string))
    requires Windows(ss, k.0) && Windows(us, k.0) && SameOf(ss, us, k.0)
    ensures k in Fold(ss) <==> k in Fold(us)
    ensures k in Fold(ss) ==> SameView(Fold(ss)[k], Fold(us)[k])
  {
    Converges(ss, k);
    Converges(us, k);
    if k in Fold(ss) { SeenToo(ss, us, k); }
    if k in Fold(us) { SeenToo(us, ss, k); }
    if k in Fold(ss) {
      SameState(ss, us, k);
      SameClass(ss, us, k);
    }
  }

  lemma {:induction false} Elsewhere(ss: seq<Snapshot>, us: seq<Snapshot>, i: nat) returns (j: nat)
    requires i < |ss| && SameOf(ss, us, ss[i].host)
    ensures j < |us| && us[j] == ss[i]
  {
    assert ss[i] in us;
    j :| 0 <= j < |us| && us[j] == ss[i];
  }

  lemma {:induction false} SeenToo(ss: seq<Snapshot>, us: seq<Snapshot>, k: (string, string))
    requires Settled(ss, k, Lookup(Fold(ss), k)) && Settled(us, k, Lookup(Fold(us), k)) && k in Fold(ss)
    requires SameOf(ss, us, k.0)
    ensures k in Fold(us)
  {
    var i: nat :| Newest(ss, k, i);
    var j := Elsewhere(ss, us, i);
    assert Sees(us, k, j);
  }

  /** Stamps name a host's snapshots, since request IDs do. */
  lemma {:induction false} StampNames(ss: seq<Snapshot>, host: string, i: nat, s: Snapshot)
    requires Windows(ss, host) && i < |ss| && ss[i].host == s.host == host && s in ss && StampOf(ss[i]) == StampOf(s)
    ensures ss[i] == s
  {
    var j :| 0 <= j < |ss| && ss[j] == s;
  }

  lemma {:induction false} SameState(ss: seq<Snapshot>, us: seq<Snapshot>, k: (string, string))
    requires Windows(ss, k.0) && Windows(us, k.0) && SameOf(ss, us, k.0)
    requires Settled(ss, k, Lookup(Fold(ss), k)) && Settled(us, k, Lookup(Fold(us), k)) && k in Fold(ss)
    requires k in Fold(us)
    ensures var a, b := Fold(ss)[k], Fold(us)[k];
            a.unread == b.unread && a.tombstoned == b.tombstoned && a.updated == b.updated && a.seen == b.seen
              && a.state == b.state
            && a.source == b.source && a.missing == b.missing
  {
    var i: nat :| Newest(ss, k, i) && ShowsState(Fold(ss)[k], ss[i], Observed(ss[i].tasks, k.1).value);
    var j: nat :| Newest(us, k, j) && ShowsState(Fold(us)[k], us[j], Observed(us[j].tasks, k.1).value);
    SameNewest(ss, us, k, i, j);
  }

  lemma {:induction false} SameNewest(ss: seq<Snapshot>, us: seq<Snapshot>, k: (string, string), i: nat, j: nat)
    requires Windows(ss, k.0) && SameOf(ss, us, k.0)
    requires Newest(ss, k, i) && Newest(us, k, j)
    ensures ss[i] == us[j]
  {
    var i2 := Elsewhere(ss, us, i);
    var j2 := Elsewhere(us, ss, j);
    assert Sees(us, k, i2) && Sees(ss, k, j2);
    OlderIsStrict(StampOf(ss[i]), StampOf(us[j]), StampOf(ss[i]));
    StampNames(ss, k.0, i, us[j]);
  }

  lemma {:induction false} SameClass(ss: seq<Snapshot>, us: seq<Snapshot>, k: (string, string))
    requires Windows(ss, k.0) && Windows(us, k.0) && SameOf(ss, us, k.0)
    requires Settled(ss, k, Lookup(Fold(ss), k)) && Settled(us, k, Lookup(Fold(us), k)) && k in Fold(ss)
    requires k in Fold(us)
    ensures Fold(ss)[k].summary == Fold(us)[k].summary && Fold(ss)[k].classified == Fold(us)[k].classified
  {
    if Fold(ss)[k].classified != NEVER {
      ClassCarries(ss, us, k);
    } else if Fold(us)[k].classified != NEVER {
      ClassCarries(us, ss, k);
    }
  }

  /** The newest classification is the same one in both orders of arrival. */
  lemma {:induction false} NewestClassSame(ss: seq<Snapshot>, us: seq<Snapshot>, k: (string, string), i: nat, j: nat)
    requires Windows(ss, k.0) && Windows(us, k.0) && SameOf(ss, us, k.0)
    requires NewestClass(ss, k, i) && NewestClass(us, k, j)
    ensures ss[i] == us[j]
  {
    var i2 := Elsewhere(ss, us, i);
    var j2 := Elsewhere(us, ss, j);
    assert Classifies(us, k, i2) && ClassOf(us, k, i2) == ClassOf(ss, k, i);
    assert Classifies(ss, k, j2) && ClassOf(ss, k, j2) == ClassOf(us, k, j);
    var mine := ClassStamp(ss[i], ClassOf(ss, k, i).value);
    OlderIsStrict(mine, ClassStamp(us[j], ClassOf(us, k, j).value), mine);
    assert ss[i].request == us[j].request && ss[j2] == us[j];
  }

  lemma {:induction false} StaysClassified(ss: seq<Snapshot>, us: seq<Snapshot>, k: (string, string), i: nat, t: Task)
    requires SameOf(ss, us, k.0) && NewestClass(ss, k, i) && ClassSettled(us, k, t)
    ensures t.classified != NEVER
  {
    var i2 := Elsewhere(ss, us, i);
    assert Classifies(us, k, i2) && ClassOf(us, k, i2) == ClassOf(ss, k, i);
    OlderIsStrict(NEVER, ClassStamp(ss[i], ClassOf(ss, k, i).value), NEVER);
  }

  lemma {:induction false} ClassCarries(ss: seq<Snapshot>, us: seq<Snapshot>, k: (string, string))
    requires Windows(ss, k.0) && Windows(us, k.0) && SameOf(ss, us, k.0)
    requires Settled(ss, k, Lookup(Fold(ss), k)) && Settled(us, k, Lookup(Fold(us), k)) && k in Fold(ss)
    requires k in Fold(us)
    requires Fold(ss)[k].classified != NEVER
    ensures Fold(ss)[k].summary == Fold(us)[k].summary && Fold(ss)[k].classified == Fold(us)[k].classified
  {
    var i: nat :| NewestClass(ss, k, i) && ShowsClass(Fold(ss)[k], ss[i], ClassOf(ss, k, i).value);
    StaysClassified(ss, us, k, i, Fold(us)[k]);
    var j: nat :| NewestClass(us, k, j) && ShowsClass(Fold(us)[k], us[j], ClassOf(us, k, j).value);
    NewestClassSame(ss, us, k, i, j);
  }
}
