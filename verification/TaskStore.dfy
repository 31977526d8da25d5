/** The task store as a program: ingestion, page staging and finishing, updating their tables in place. */
module TaskStore {
  import opened Basics
  import opened TaskIndex
  import opened TaskLedger
  import opened TaskStaging
  import opened TaskCollections

  // ---- the ingest loop, observation by observation ----

  /** The index after the first n observations. */
  function Prefix(x: Index, s: Snapshot, n: nat): Index
    requires n <= |s.tasks|
  {
    Apply(x, s.(coverage := WINDOW, tasks := s.tasks[..n]))
  }

  lemma {:induction false} PrefixAt(x: Index, s: Snapshot, n: nat, k: (string, string))
    requires n <= |s.tasks|
    ensures Lookup(Prefix(x, s, n), k) ==
            if k.0 == s.host && Observed(s.tasks[..n], k.1).Some?
            then Some(Merge(Lookup(x, k), s, Observed(s.tasks[..n], k.1).value))
            else Lookup(x, k)
  {
    var u := s.(coverage := WINDOW, tasks := s.tasks[..n]);
    AppliedEverywhere(x, u, k);
    if Observed(u.tasks, k.1).Some? { SameMerge(Lookup(x, k), s, u, Observed(u.tasks, k.1).value); }
  }

  lemma {:induction false} NotYetObserved(s: Snapshot, n: nat)
    requires DistinctThreads(s.tasks) && n < |s.tasks|
    ensures Observed(s.tasks[..n], s.tasks[n].thread).None?
  {
    ObservedMeans(s.tasks[..n], s.tasks[n].thread);
  }

  lemma {:induction false} PrefixStepAt(x: Index, s: Snapshot, n: nat, k: (string, string))
    requires DistinctThreads(s.tasks) && n < |s.tasks|
    ensures Lookup(Prefix(x, s, n + 1), k) ==
            if k == (s.host, s.tasks[n].thread) then Some(Merge(Lookup(x, k), s, s.tasks[n]))
            else Lookup(Prefix(x, s, n), k)
  {
    PrefixAt(x, s, n, k);
    PrefixAt(x, s, n + 1, k);
    assert s.tasks[..n + 1][..n] == s.tasks[..n];
  }

  lemma {:induction false} PrefixStep(x: Index, s: Snapshot, n: nat)
    requires DistinctThreads(s.tasks) && n < |s.tasks|
    ensures var key := (s.host, s.tasks[n].thread);
            && Lookup(Prefix(x, s, n), key) == Lookup(x, key)
            && Prefix(x, s, n + 1) == Prefix(x, s, n)[key := Merge(Lookup(x, key), s, s.tasks[n])]
  {
    var key := (s.host, s.tasks[n].thread);
    NotYetObserved(s, n);
    PrefixAt(x, s, n, key);
    StepEverywhere(Prefix(x, s, n), Prefix(x, s, n + 1), key, Merge(Lookup(x, key), s, s.tasks[n])) by {
      forall k: (string, string) ensures Lookup(Prefix(x, s, n + 1), k) ==
          if k == key then Some(Merge(Lookup(x, key), s, s.tasks[n])) else Lookup(Prefix(x, s, n), k)
      {
        PrefixStepAt(x, s, n, k);
      }
    }
  }

  lemma {:induction false} StepEverywhere(a: Index, b: Index, key: (string, string), t: Task)
    requires forall k :: Lookup(b, k) == if k == key then Some(t) else Lookup(a, k)
    ensures b == a[key := t]
  {
    SameEverywhere(b, a[key := t]);
  }

  lemma {:induction false} EmptyPrefix(x: Index, s: Snapshot)
    ensures Prefix(x, s, 0) == x
  {
    forall k ensures Lookup(Prefix(x, s, 0), k) == Lookup(x, k) { PrefixAt(x, s, 0, k); }
    SameEverywhere(Prefix(x, s, 0), x);
  }

  lemma {:induction false} UpdateSize(a: Index, b: Index, k: (string, string), t: Task, x: Option<Task>)
    requires b == a[k := t] && Lookup(a, k) == x
    ensures |b| == |a| + if x.Some? then 0 else 1
  {
    assert b.Keys == a.Keys + {k};
    assert |a.Keys| == |a| && |b.Keys| == |b|;
  }

  lemma {:induction false} GrowthStep(x: Index, s: Snapshot, n: nat)
    requires DistinctThreads(s.tasks) && n < |s.tasks|
    ensures |Prefix(x, s, n + 1)| == |Prefix(x, s, n)| + if (s.host, s.tasks[n].thread) in x then 0 else 1
  {
    var key := (s.host, s.tasks[n].thread);
    PrefixStep(x, s, n);
    UpdateSize(Prefix(x, s, n), Prefix(x, s, n + 1), key, Merge(Lookup(x, key), s, s.tasks[n]), Lookup(x, key));
  }

  lemma {:induction false} TallyStep(x: Index, s: Snapshot, n: nat)
    requires n < |s.tasks|
    ensures Tally(x, s, n + 1).inserted == Tally(x, s, n).inserted + if (s.host, s.tasks[n].thread) in x then 0 else 1
  {
  }

  lemma {:induction false} GrowthNext(x: Index, s: Snapshot, n: nat)
    requires DistinctThreads(s.tasks) && n < |s.tasks| && |Prefix(x, s, n)| == |x| + Tally(x, s, n).inserted
    ensures |Prefix(x, s, n + 1)| == |x| + Tally(x, s, n + 1).inserted
  {
    GrowthStep(x, s, n);
    TallyStep(x, s, n);
  }

  lemma {:induction false} GrowthStart(x: Index, s: Snapshot)
    ensures |Prefix(x, s, 0)| == |x| + Tally(x, s, 0).inserted
  {
    EmptyPrefix(x, s);
  }

  /** The index grows by exactly the tasks reported as inserted. */
  lemma {:induction false} InsertedIsGrowth(x: Index, s: Snapshot, n: nat)
    requires DistinctThreads(s.tasks) && n <= |s.tasks|
    ensures |Prefix(x, s, n)| == |x| + Tally(x, s, n).inserted
    decreases n
  {
    GrowthStart(x, s);
    for i := 0 to n
      invariant |Prefix(x, s, i)| == |x| + Tally(x, s, i).inserted
    {
      GrowthNext(x, s, i);
    }
  }

  // ---- the pass over absent tasks ----

  /** What the query over this host and source selects, given the threads seen. */
  function AbsentIn(x: Index, s: Snapshot, seen: set<string>): set<(string, string)> {
    set k | k in x && k.0 == s.host && k.1 !in seen && Absents(x[k], s)
  }

  function Marked(x: Index, s: Snapshot, done: set<(string, string)>): Index {
    map k | k in x :: if k in done then MarkAbsent(x[k], s) else x[k]
  }

  lemma {:induction false} SeenIsObserved(s: Snapshot, seen: set<string>, thread: string)
    requires seen == set o | o in s.tasks :: o.thread
    ensures thread in seen <==> Observed(s.tasks, thread).Some?
  {
    ObservedMeans(s.tasks, thread);
  }

  lemma {:induction false} AbsentPass(x: Index, s: Snapshot, seen: set<string>)
    requires seen == (set o | o in s.tasks :: o.thread) && s.coverage == COMPLETE
    ensures var mid := Prefix(x, s, |s.tasks|);
            Marked(mid, s, AbsentIn(mid, s, seen)) == Apply(x, s)
  {
    var mid := Prefix(x, s, |s.tasks|);
    var done := AbsentIn(mid, s, seen);
    assert s.tasks[..|s.tasks|] == s.tasks;
    forall k ensures Lookup(Marked(mid, s, done), k) == Lookup(Apply(x, s), k) {
      PrefixAt(x, s, |s.tasks|, k);
      AppliedEverywhere(x, s, k);
      SeenIsObserved(s, seen, k.1);
    }
    SameEverywhere(Marked(mid, s, done), Apply(x, s));
  }

  lemma {:induction false} MissingAreNew(x: Index, s: Snapshot, seen: set<string>)
    requires seen == (set o | o in s.tasks :: o.thread) && s.coverage == COMPLETE
    ensures var mid := Prefix(x, s, |s.tasks|);
            NewlyIn(mid, AbsentIn(mid, s, seen)) == NewlyMissing(x, s)
  {
    var mid := Prefix(x, s, |s.tasks|);
    assert s.tasks[..|s.tasks|] == s.tasks;
    forall k ensures k in NewlyIn(mid, AbsentIn(mid, s, seen)) <==> k in NewlyMissing(x, s) {
      PrefixAt(x, s, |s.tasks|, k);
      SeenIsObserved(s, seen, k.1);
    }
  }

  lemma {:induction false} WindowPass(x: Index, s: Snapshot)
    requires s.coverage == WINDOW
    ensures Prefix(x, s, |s.tasks|) == Apply(x, s) && NewlyMissing(x, s) == {}
  {
    assert s.tasks[..|s.tasks|] == s.tasks;
    assert s.(coverage := WINDOW, tasks := s.tasks[..|s.tasks|]) == s;
  }

  lemma {:induction false} MarkOne(mid: Index, s: Snapshot, done: set<(string, string)>, k: (string, string))
    requires k in mid && k !in done && Absents(mid[k], s)
    ensures Marked(mid, s, done)[k] == mid[k]
    ensures Marked(mid, s, done + {k})
            == Marked(mid, s, done)[k := mid[k].(missing := if mid[k].missing.Some? then mid[k].missing
                                                            else Some(s.at), state := StampOf(s))]
  {
  }

  ghost predicate Splits(absent: set<(string, string)>, done: set<(string, string)>, left: set<(string, string)>) {
    done !! left && done + left == absent
  }

  lemma {:induction false} NextAbsent(mid: Index, s: Snapshot, seen: set<string>, done: set<(string, string)>,
          left: set<(string, string)>,
                                      k: (string, string))
    requires Splits(AbsentIn(mid, s, seen), done, left) && k in left
    ensures k in mid && k !in done && Absents(mid[k], s) && Splits(AbsentIn(mid, s, seen), done + {k}, left - {k})
  {
    assert k in AbsentIn(mid, s, seen);
  }

  function NewlyIn(mid: Index, done: set<(string, string)>): set<(string, string)> {
    set k | k in done && k in mid && mid[k].missing.None?
  }

  lemma {:induction false} OneMoreDone(mid: Index, done: set<(string, string)>, k: (string, string))
    requires k in mid && k !in done
    ensures |NewlyIn(mid, done + {k})| == |NewlyIn(mid, done)| + if mid[k].missing.None? then 1 else 0
  {
    assert NewlyIn(mid, done + {k}) == NewlyIn(mid, done) + (if mid[k].missing.None? then {k} else {});
  }

  predicate NoneSeen(ts: seq<HostTask>, seen: set<string>) {
    forall j :: 0 <= j < |ts| ==> ts[j].thread !in seen
  }

  lemma {:induction false} SeenIsListed(ts: seq<HostTask>, seen: set<string>, thread: string)
    requires seen == (set t | t in ts :: t.thread) && thread in seen
    ensures exists i :: 0 <= i < |ts| && ts[i].thread == thread
  {
    var t :| t in ts && t.thread == thread;
    var i :| 0 <= i < |ts| && ts[i] == t;
  }

  lemma {:induction false} StagedOn(l: Ledger, key: Key, n: (Key, int), j: nat)
    requires n in l.pages && n.0 == key && j < |l.pages[n].tasks|
    ensures Staged(l, key, l.pages[n].tasks[j].thread)
  {
  }

  lemma {:induction false} NotStaged(l: Ledger, key: Key, seen: set<string>, ts: seq<HostTask>, i: nat)
    requires seen == (set t | t in ts :: t.thread) && i < |ts|
    requires forall n :: n in l.pages && n.0 == key ==> NoneSeen(l.pages[n].tasks, seen)
    ensures !Staged(l, key, ts[i].thread)
  {
    assert ts[i] in ts && ts[i].thread in seen;
  }

  lemma {:induction false} LowestExists(left: set<(Key, int)>)
    requires left != {}
    ensures exists p :: p in left && forall q :: q in left ==> p.1 <= q.1
  {
    var x :| x in left;
    var p := x;
    if left != {x} {
      LowestExists(left - {x});
      var y :| y in left - {x} && forall q :: q in left - {x} ==> y.1 <= q.1;
      p := if x.1 < y.1 then x else y;
    }
    forall q | q in left ensures p.1 <= q.1 {
      if q != x { assert q in left - {x}; }
    }
  }

  /** Of the staged pages of this collection those up to n have been read, in order; `left` are the others. */
  ghost predicate ReadUpTo(l: Ledger, key: Key, n: nat, left: set<(Key, int)>) {
    && (forall p :: p in left ==> p in l.pages && p.0 == key)
    && (forall p :: p in l.pages && p.0 == key ==> (p in left <==> !(1 <= p.1 <= n)))
    && (forall i :: 1 <= i <= n ==> Chained(l, key, i))
  }

  /** Where the next page has to start. */
  function EndOf(l: Ledger, key: Key, n: nat): string {
    if n == 0 || (key, n) !in l.pages then "" else l.pages[(key, n)].next
  }

  /** In a collection that reads back, the lowest page not read yet is the next one and starts where the last one
      ended. */
  lemma {:induction false} InPlace(l: Ledger, key: Key, n: nat, left: set<(Key, int)>, p: (Key, int))
    requires key in l.collections && ReadUpTo(l, key, n, left) && p in left && forall q :: q in left ==> p.1 <= q.1
    ensures ReadsBack(l, key) ==> p.1 == n + 1 && l.pages[p].cursor == EndOf(l, key, n)
  {
    if ReadsBack(l, key) {
      assert n < p.1 <= l.collections[key].pageCount;
      assert Chained(l, key, n + 1);
      assert (key, n + 1) in left;
      assert p == (key, n + 1);
    }
  }

  lemma {:induction false} ReadOne(l: Ledger, key: Key, n: nat, left: set<(Key, int)>)
    requires ReadUpTo(l, key, n, left) && (key, n + 1) in left && l.pages[(key, n + 1)].cursor == EndOf(l, key, n)
    ensures ReadUpTo(l, key, n + 1, left - {(key, n + 1)})
    ensures Union(l, key, n + 1) == Union(l, key, n) + FromHosts(l.pages[(key, n + 1)].tasks)
  {
    assert n > 0 ==> Chained(l, key, n);
    assert Chained(l, key, n + 1);
  }

  lemma {:induction false} AllRead(l: Ledger, key: Key, n: nat)
    requires key in l.collections && ReadUpTo(l, key, n, {})
    ensures ReadsBack(l, key) <==>
            n == l.collections[key].pageCount && |Union(l, key, n)| == l.collections[key].taskCount
    ensures n == l.collections[key].pageCount ==> LastCursor(l, key) == EndOf(l, key, n)
  {
    var m := l.collections[key].pageCount;
    if ReadsBack(l, key) {
      assert n > 0 ==> Chained(l, key, n) && (key, n as int) in l.pages;
      assert m > 0 ==> Chained(l, key, m) && (key, m as int) in l.pages;
    }
    assert (key, 0) in l.pages ==> (key, 0) in {};
  }

  lemma {:induction false} IngestErrorKeeps(l: Ledger, s: Snapshot)
    ensures IngestLocked(l, s).1.Err? ==> IngestLocked(l, s).0 == l
  {
  }

  class Store {
    const sha: string -> string
    var tasks: Index
    var replays: seq<Replay>
    var collections: map<Key, Manifest>
    var pages: map<(Key, int), Page>
    var nextRow: nat

    constructor (sha: string -> string)
      requires IsDigest(sha)
      ensures Valid() && Contents() == EMPTY_LEDGER && this.sha == sha
    {
      this.sha := sha;
      tasks, replays, collections, pages, nextRow := map[], [], map[], map[], 0;
    }

    function Contents(): Ledger
      reads this
    {
      Ledger(tasks, replays, collections, pages, nextRow)
    }

    ghost predicate Valid()
      reads this
    {
      StagingInv(Contents()) && IsDigest(sha)
    }

    // ---- ingest ----

    method Ingest(raw: Snapshot) returns (r: Outcome<Report>)
      modifies this`tasks, this`replays
      ensures (Contents(), r) == IngestLocked(old(Contents()), raw)
    {
      var s := Normalize(raw);
      if !ValidSnapshot(s) {
        return Err(Invalid);
      }
      var stored := FindReplay(replays, s.request);
      if stored.Some? {
        return if stored.value.mark != MarkOf(s) then Err(IngestMismatch)
               else Ok(stored.value.report.(replayed := true));
      }
      var report := Publish(s);
      replays := PruneReplays(replays + [Replay(s.request, MarkOf(s), report)], MAX_INGEST_REPLAYS);
      return Ok(report);
    }

    /** Merge every observation, then mark what a complete snapshot does not list. */
    method Publish(s: Snapshot) returns (report: Report)
      requires ValidSnapshot(s)
      modifies this`tasks
      ensures tasks == Apply(old(tasks), s) && report == ReportOf(old(tasks), s)
    {
      ghost var x := tasks;
      var counts := MergeAll(s);
      var missing := 0;
      if s.coverage == COMPLETE {
        missing := MarkAbsentTasks(s);
        AbsentPass(x, s, set o | o in s.tasks :: o.thread);
        MissingAreNew(x, s, set o | o in s.tasks :: o.thread);
      } else {
        WindowPass(x, s);
      }
      report := Report(s.request, s.host, s.source, s.at, s.coverage, |s.tasks|, counts, missing, false);
    }

    method MergeAll(s: Snapshot) returns (counts: Counts)
      requires DistinctThreads(s.tasks)
      modifies this`tasks
      ensures tasks == Prefix(old(tasks), s, |s.tasks|) && counts == Tally(old(tasks), s, |s.tasks|)
    {
      ghost var x := tasks;
      counts := Counts(0, 0, 0);
      EmptyPrefix(x, s);
      for i := 0 to |s.tasks|
        invariant tasks == Prefix(x, s, i) && counts == Tally(x, s, i)
      {
        PrefixStep(x, s, i);
        counts := MergeOne(s, s.tasks[i], counts);
      }
    }

    /** One turn of the loop. A stale snapshot may still bring a newer classification. */
    method MergeOne(s: Snapshot, o: Observation, counts: Counts) returns (c: Counts)
      modifies this`tasks
      ensures tasks == old(tasks)[(s.host, o.thread) := Merge(Lookup(old(tasks), (s.host, o.thread)), s, o)]
      ensures var one := CountOne(Lookup(old(tasks), (s.host, o.thread)), s, o);
              c == Counts(counts.inserted + one.inserted, counts.updated + one.updated, counts.stale + one.stale)
    {
      var key := (s.host, o.thread);
      c := counts;
      if key in tasks && !Older(tasks[key].state, StampOf(s)) {
        c := c.(stale := c.stale + 1);
        var reclassified := Classify(tasks[key], s, o.classification);
        if reclassified != tasks[key] {
          tasks := tasks[key := reclassified];
          c := c.(updated := c.updated + 1);
        }
        return;
      }
      var found := key in tasks;
      tasks := tasks[key := MergeTask(Lookup(tasks, key), s, o)];
      c := if found then c.(updated := c.updated + 1) else c.(inserted := c.inserted + 1);
    }

    method MarkAbsentTasks(s: Snapshot) returns (missing: nat)
      modifies this`tasks
      ensures var seen := set o | o in s.tasks :: o.thread;
              var absent := AbsentIn(old(tasks), s, seen);
              && tasks == Marked(old(tasks), s, absent)
              && missing == |NewlyIn(old(tasks), absent)|
    {
      ghost var mid := tasks;
      var seen := set o | o in s.tasks :: o.thread;
      var left := AbsentIn(tasks, s, seen);
      ghost var done: set<(string, string)> := {};
      missing := 0;
      while left != {}
        invariant Splits(AbsentIn(mid, s, seen), done, left)
        invariant tasks == Marked(mid, s, done) && missing == |NewlyIn(mid, done)|
        decreases |left|
      {
        var k :| k in left;
        NextAbsent(mid, s, seen, done, left, k);
        left := left - {k};
        MarkOne(mid, s, done, k);
        OneMoreDone(mid, done, k);
        if tasks[k].missing.None? {
          missing := missing + 1;
        }
        tasks := tasks[k := tasks[k].(missing := if tasks[k].missing.Some? then tasks[k].missing
                                                 else Some(s.at), state := StampOf(s))];
        done := done + {k};
      }
      assert done == AbsentIn(mid, s, seen);
    }

    // ---- staging ----

    method AddPage(raw: PageRequest, now: int) returns (r: Outcome<PageResult>)
      requires Valid()
      modifies this`collections, this`pages, this`nextRow
      ensures Valid()
      ensures (Contents(), r) == TaskLedger.AddPage(old(Contents()), raw, now)
    {
      AddPageKeepsInv(Contents(), raw, now);
      r := AddOrBegin(raw, now);
    }

    method AddOrBegin(raw: PageRequest, now: int) returns (r: Outcome<PageResult>)
      modifies this`collections, this`pages, this`nextRow
      ensures (Contents(), r) == TaskLedger.AddPage(old(Contents()), raw, now)
    {
      var p := NormalPage(raw);
      if !ValidPage(p) {
        return Err(Invalid);
      }
      var key := (p.host, p.observation);
      if key in collections {
        r := Stage(key, p);
        return;
      }
      if p.page != 1 {
        return Err(NotFound);
      }
      r := Begin(key, p, now);
    }

    /** Page one creates the collection; if it is then refused, the transaction leaves nothing behind. */
    method Begin(key: Key, p: PageRequest, now: int) returns (r: Outcome<PageResult>)
      requires key !in collections
      modifies this`collections, this`pages, this`nextRow
      ensures var l := old(Contents());
              var staged := StagePage(NewCollection(l, key, p.at, now), key, p);
              (Contents(), r) == if |Open(TaskLedger.Without(l, Stale(l, now)))| >= MAX_OPEN then (l, Err(TooManyOpen))
                                 else if staged.1.Ok? then staged else (l, staged.1)
    {
      var before := (collections, pages, nextRow);
      PruneStale(now);
      var open := set k | k in collections && collections[k].finish.None?;
      assert open == Open(Contents());
      if |open| >= MAX_OPEN {
        collections, pages, nextRow := before.0, before.1, before.2;
        return Err(TooManyOpen);
      }
      InsertCollection(key, p.at, now);
      r := Stage(key, p);
      if r.Err? {
        collections, pages, nextRow := before.0, before.1, before.2;
      }
    }

    method InsertCollection(key: Key, at: int, now: int)
      modifies this`collections, this`nextRow
      ensures Contents() == Opened(old(Contents()), key, at, now) && key in collections
    {
      collections := collections[key := Manifest(at, 0, 0, now, nextRow, None)];
      nextRow := nextRow + 1;
    }

    method PruneStale(now: int)
      modifies this`collections, this`pages
      ensures Contents() == TaskLedger.Without(old(Contents()), Stale(old(Contents()), now))
    {
      var gone := set k | k in collections && collections[k].finish.None? && collections[k].created < now - STALE_AGE;
      assert gone == Stale(Contents(), now);
      collections := map k | k in collections && k !in gone :: collections[k];
      pages := map p | p in pages && p.0 !in gone :: pages[p];
    }

    method Stage(key: Key, p: PageRequest) returns (r: Outcome<PageResult>)
      requires key in collections
      modifies this`collections, this`pages
      ensures (Contents(), r) == StagePage(old(Contents()), key, p)
    {
      var m := collections[key];
      var result := PageResult(p.page, |p.tasks|, m.at, false);
      if (key, p.page) in pages {
        return if pages[(key, p.page)].mark != MarkOfPage(p) then Err(PageMismatch) else Ok(result.(replayed := true));
      }
      var error := CheckPage(key, p);
      if error.Some? {
        return Err(error.value);
      }
      pages := pages[(key, p.page) := Page(p.cursor, p.next, MarkOfPage(p), p.tasks)];
      collections := collections[key := m.(pageCount := m.pageCount + 1, taskCount := m.taskCount + |p.tasks|)];
      return Ok(result);
    }

    method CheckPage(key: Key, p: PageRequest) returns (error: Option<Failure>)
      requires key in collections
      ensures error == PageError(Contents(), key, p)
    {
      var m := collections[key];
      if m.finish.Some? {
        return Some(Finalized);
      }
      if p.page != m.pageCount + 1 {
        return Some(NotContiguous);
      }
      if p.page == 1 {
        if p.cursor != "" {
          return Some(FirstCursor);
        }
      } else {
        if (key, p.page - 1) !in pages {
          return Some(BrokenStaging);
        }
        var previous := pages[(key, p.page - 1)].next;
        if previous == "" {
          return Some(AfterTerminal);
        }
        if p.cursor != previous {
          return Some(WrongCursor);
        }
      }
      if p.next != "" {
        var reused := exists n :: n in pages && n.0 == key && (pages[n].cursor == p.next || pages[n].next == p.next);
        if reused || p.next == p.cursor {
          return Some(RepeatedCursor);
        }
      }
      if m.taskCount + |p.tasks| > MAX_TASKS {
        return Some(TooManyTasks);
      }
      var duplicate := HasDuplicate(key, p);
      return if duplicate then Some(DuplicateThread) else None;
    }

    /** Walk the staged pages of the collection looking for a thread of the new page. */
    method HasDuplicate(key: Key, p: PageRequest) returns (found: bool)
      ensures found <==> exists i :: 0 <= i < |p.tasks| && Staged(Contents(), key, p.tasks[i].thread)
    {
      var seen := set t | t in p.tasks :: t.thread;
      var rows := set n | n in pages && n.0 == key;
      var left := rows;
      while left != {}
        invariant left <= rows
        invariant forall n :: n in rows - left ==> NoneSeen(pages[n].tasks, seen)
        decreases |left|
      {
        var n :| n in left;
        for j := 0 to |pages[n].tasks|
          invariant forall k :: 0 <= k < j ==> pages[n].tasks[k].thread !in seen
        {
          if pages[n].tasks[j].thread in seen {
            SeenIsListed(p.tasks, seen, pages[n].tasks[j].thread);
            StagedOn(Contents(), key, n, j);
            return true;
          }
        }
        left := left - {n};
      }
      forall i | 0 <= i < |p.tasks| ensures !Staged(Contents(), key, p.tasks[i].thread) {
        NotStaged(Contents(), key, seen, p.tasks, i);
      }
      return false;
    }

    // ---- finishing ----

    method Finish(host: string, observation: string, rawCoverage: string, now: int) returns (r: Outcome<FinishResult>)
      requires Valid()
      modifies this`tasks, this`replays, this`collections, this`pages
      ensures Valid()
      ensures (Contents(), r) == FinishCollection(old(Contents()), sha, host, observation, rawCoverage, now)
    {
      FinishKeepsInv(Contents(), sha, host, observation, rawCoverage, now);
      r := FinishChecked(host, observation, rawCoverage, now);
    }

    /** Nothing about the staged pages is taken on trust: they are read back and checked against the manifest. */
    method FinishChecked(host: string, observation: string, rawCoverage: string, now: int)
      returns (r: Outcome<FinishResult>)
      modifies this`tasks, this`replays, this`collections, this`pages
      ensures (Contents(), r) == FinishCollection(old(Contents()), sha, host, observation, rawCoverage, now)
    {
      var key, coverage := (TrimSpace(host), TrimSpace(observation)), NormalFinish(rawCoverage);
      if !ValidName(key.0) || !ValidName(key.1) || coverage !in {WINDOW, COMPLETE} {
        return Err(Invalid);
      }
      if key !in collections {
        return Err(NotFound);
      }
      r := FinishFound(key, coverage, now);
    }

    method FinishFound(key: Key, coverage: string, now: int) returns (r: Outcome<FinishResult>)
      requires key in collections
      modifies this`tasks, this`replays, this`collections, this`pages
      ensures (Contents(), r) == FinishKnown(old(Contents()), sha, key, coverage, now)
    {
      var m := collections[key];
      if m.finish.Some? {
        return if m.finish.value.coverage != coverage then Err(FinishMismatch)
               else Ok(m.finish.value.result.(replayed := true));
      }
      if m.pageCount < 1 {
        return Err(BrokenStaging);
      }
      var read := ReadPages(key, m.pageCount, m.taskCount);
      if read.Err? {
        return Err(read.error);
      }
      var (staged, last) := read.value;
      if coverage == COMPLETE && last != "" {
        return Err(NotTerminal);
      }
      r := PublishAndClose(key, Snapshot(IngestId(sha, key), key.0, SOURCE, m.at, coverage, staged), now);
    }

    method PublishAndClose(key: Key, union: Snapshot, now: int) returns (r: Outcome<FinishResult>)
      requires key in collections
      modifies this`tasks, this`replays, this`collections, this`pages
      ensures (Contents(), r) == Conclude(old(Contents()), key, union, now)
    {
      var pageCount := collections[key].pageCount;
      var report := Ingest(union);
      if report.Err? {
        IngestErrorKeeps(old(Contents()), union);
        return Err(report.error);
      }
      var result := FinishResult(pageCount, report.value, false);
      Compact(key, TaskLedger.Finish(union.coverage, result, now));
      return Ok(result);
    }

    /** Walk the staged pages in page order. They must be numbered from one without a gap, each starting where the one
        before ended, and as many as the manifest counts. */
    method ReadPages(key: Key, expectedPages: nat, expectedTasks: nat) returns (r: Outcome<(seq<Observation>, string)>)
      requires key in collections && expectedPages == collections[key].pageCount
      requires expectedTasks == collections[key].taskCount
      ensures r == if ReadsBack(Contents(), key)
                   then Ok((Union(Contents(), key, expectedPages), LastCursor(Contents(), key)))
                   else Err(BrokenStaging)
    {
      ghost var l := Contents();
      var staged: seq<Observation>, cursor, n := [], "", 0;
      var left := set p | p in pages && p.0 == key;
      while left != {}
        invariant ReadUpTo(l, key, n, left)
        invariant staged == Union(l, key, n) && cursor == EndOf(l, key, n)
        decreases |left|
      {
        LowestExists(left);
        var p :| p in left && forall q :: q in left ==> p.1 <= q.1;
        InPlace(l, key, n, left, p);
        if p.1 != n + 1 || pages[p].cursor != cursor {
          return Err(BrokenStaging);
        }
        ReadOne(l, key, n, left);
        n := n + 1;
        left := left - {p};
        staged := staged + FromHosts(pages[p].tasks);
        cursor := pages[p].next;
      }
      AllRead(l, key, n);
      if n != expectedPages || |staged| != expectedTasks {
        return Err(BrokenStaging);
      }
      return Ok((staged, cursor));
    }

    /** Record the result, empty the payloads, forget the oldest finished collections. */
    method Compact(key: Key, f: TaskLedger.Finish)
      requires key in collections
      modifies this`collections, this`pages
      ensures Contents() == Close(old(Contents()), key, f)
    {
      ghost var l := Contents();
      collections := collections[key := collections[key].(finish := Some(f))];
      pages := map p | p in pages :: if p.0 == key then pages[p].(tasks := []) else pages[p];
      assert Contents() == Closed(l, key, f);
      var gone := Forgotten(Contents(), MAX_COLLECTION_REPLAYS);
      collections := map k | k in collections && k !in gone :: collections[k];
      pages := map p | p in pages && p.0 !in gone :: pages[p];
    }
  }
}
