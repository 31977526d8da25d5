/** Staged collections: what every transaction keeps, and why finishing one is the same as ingesting its union. */
module TaskStaging {
  import opened Basics
  import opened TaskIndex
  import opened TaskLedger

  // ---- trimming ----

  predicate IsTrimmed(s: string) {
    s == "" || (!IsSpace(s[0]) && !IsSpace(s[|s| - 1]))
  }

  lemma {:induction false} TrimLeftStops(s: string)
    ensures TrimLeft(s) == "" || !IsSpace(TrimLeft(s)[0])
  {
    if s != "" && IsSpace(s[0]) { TrimLeftStops(s[1..]); }
  }

  lemma {:induction false} TrimRightKeepsHead(s: string)
    ensures TrimRight(s) == "" || (!IsSpace(TrimRight(s)[|TrimRight(s)| - 1]) && s != "" && TrimRight(s)[0] == s[0])
  {
    if s != "" && IsSpace(s[|s| - 1]) {
      TrimRightKeepsHead(s[..|s| - 1]);
    }
  }

  lemma {:induction false} TrimIsTrimmed(s: string)
    ensures IsTrimmed(TrimSpace(s))
  {
    TrimLeftStops(s);
    TrimRightKeepsHead(TrimLeft(s));
  }

  lemma {:induction false} TrimmedStays(s: string)
    requires IsTrimmed(s)
    ensures TrimSpace(s) == s
  {
  }

  lemma {:induction false} TrimTwice(s: string)
    ensures TrimSpace(TrimSpace(s)) == TrimSpace(s)
  {
    TrimIsTrimmed(s);
    TrimmedStays(TrimSpace(s));
  }

  lemma {:induction false} NormalHostTwice(t: HostTask)
    ensures NormalObservation(FromHost(NormalHost(t))) == FromHost(NormalHost(t))
  {
    TrimTwice(t.thread);
    TrimTwice(t.title);
    TrimTwice(t.cwd);
    TrimTwice(t.project);
    TrimTwice(t.status);
    TrimmedStays("");
  }

  // ---- the invariant ----

  /** Pages are numbered from one without a gap, linked by their cursors, and no next-cursor repeats. */
  ghost predicate PagesOk(l: Ledger, key: Key)
    requires key in l.collections
  {
    var m := l.collections[key];
    && (forall n :: (key, n) in l.pages <==> 1 <= n <= m.pageCount)
    && (forall n :: 1 <= n <= m.pageCount ==> Chained(l, key, n))
    && (forall n :: 1 <= n < m.pageCount ==> l.pages[(key, n)].next != "")
    && (forall i, j :: 1 <= i < j <= m.pageCount ==> l.pages[(key, i)].next != l.pages[(key, j)].next)
  }

  predicate Clean(o: Observation) {
    ValidObservation(o) && NormalObservation(o) == o
  }

  /** Until it is finished a collection holds its tasks: distinct, valid, trimmed, within the limit and counted. */
  ghost predicate StagedOk(l: Ledger, key: Key)
    requires key in l.collections
  {
    var m := l.collections[key];
    var u := Union(l, key, m.pageCount);
    && |u| == m.taskCount <= MAX_TASKS && DistinctThreads(u) && (forall i :: 0 <= i < |u| ==> Clean(u[i])) && m.at != 0
    && MarksOk(l, key, m.pageCount)
  }

  predicate NameOk(s: string) {
    ValidName(s) && TrimSpace(s) == s
  }

  ghost predicate ColOk(l: Ledger, key: Key)
    requires key in l.collections
  {
    && PagesOk(l, key) && (l.collections[key].finish.None? ==> StagedOk(l, key))
    && NameOk(key.0) && NameOk(key.1)
  }

  ghost predicate StagingInv(l: Ledger) {
    && (forall key {:trigger ColOk(l, key)} :: key in l.collections ==>
         ColOk(l, key) && l.collections[key].pageCount >= 1)
    && (forall p :: p in l.pages ==> p.0 in l.collections)
  }

  // ---- frames ----

  ghost predicate SamePages(l: Ledger, u: Ledger, key: Key) {
    forall n :: ((key, n) in l.pages <==> (key, n) in u.pages)
      && ((key, n) in l.pages ==> l.pages[(key, n)] == u.pages[(key, n)])
  }

  lemma {:induction false} UnionSame(l: Ledger, u: Ledger, key: Key, n: nat)
    requires SamePages(l, u, key)
    ensures Union(l, key, n) == Union(u, key, n)
  {
    if n > 0 {
      UnionSame(l, u, key, n - 1);
      assert (key, n) in l.pages <==> (key, n) in u.pages;
    }
  }

  lemma {:induction false} LinksSame(l: Ledger, u: Ledger, key: Key)
    requires key in l.collections && key in u.collections && l.collections[key] == u.collections[key]
    requires SamePages(l, u, key)
    requires PagesOk(l, key)
    ensures PagesOk(u, key)
  {
    forall n | 1 <= n <= u.collections[key].pageCount ensures Chained(u, key, n) {
      assert Chained(l, key, n);
      assert (key, n) in u.pages && (n > 1 ==> (key, n - 1) in u.pages);
    }
  }

  lemma {:induction false} ColSame(l: Ledger, u: Ledger, key: Key)
    requires key in l.collections && key in u.collections && l.collections[key] == u.collections[key]
    requires SamePages(l, u, key)
    requires ColOk(l, key)
    ensures ColOk(u, key)
  {
    UnionSame(l, u, key, l.collections[key].pageCount);
    LinksSame(l, u, key);
  }

  lemma {:induction false} WithoutKeepsInv(l: Ledger, gone: set<Key>)
    requires StagingInv(l)
    ensures StagingInv(TaskLedger.Without(l, gone))
  {
    var u := TaskLedger.Without(l, gone);
    forall key | key in u.collections ensures ColOk(u, key) && u.collections[key].pageCount >= 1 {
      ColSame(l, u, key);
    }
  }

  // ---- adding a page ----

  lemma {:induction false} UnionUpTo(l: Ledger, u: Ledger, key: Key, n: nat)
    requires forall i :: 1 <= i <= n ==>
             ((key, i) in l.pages <==> (key, i) in u.pages)
               && ((key, i) in l.pages ==> l.pages[(key, i)] == u.pages[(key, i)])
    ensures Union(l, key, n) == Union(u, key, n)
  {
    if n > 0 { UnionUpTo(l, u, key, n - 1); }
  }

  /** Every staged thread is on some page. */
  lemma {:induction false} UnionIsStaged(l: Ledger, key: Key, n: nat, o: Observation)
    requires o in Union(l, key, n)
    ensures Staged(l, key, o.thread)
  {
    if o in Union(l, key, n - 1) {
      UnionIsStaged(l, key, n - 1, o);
    } else {
      var ts := l.pages[(key, n)].tasks;
      var i :| 0 <= i < |ts| && FromHosts(ts)[i] == o;
      assert ts[i].thread == o.thread;
    }
  }

  /** A page that passed every check against this collection. */
  ghost predicate Fits(l: Ledger, key: Key, r: PageRequest) {
    && key in l.collections && PagesOk(l, key) && l.collections[key].finish.None? && StagedOk(l, key)
    && PageError(l, key, r).None? && DistinctThreads(FromHosts(r.tasks))
    && (forall i :: 0 <= i < |r.tasks| ==> Clean(FromHost(r.tasks[i])))
  }

  lemma {:induction false} UnionUntouched(l: Ledger, u: Ledger, key: Key, at: int, page: Page, n: nat)
    requires u.pages == l.pages[(key, at) := page] && n < at
    ensures Union(u, key, n) == Union(l, key, n)
  {
    UnionUpTo(l, u, key, n);
  }

  lemma {:induction false} InsertedUnion(l: Ledger, key: Key, r: PageRequest)
    requires key in l.collections && r.page >= 1
    ensures var u := InsertPage(l, key, r);
            Union(u, key, r.page) == Union(l, key, r.page - 1) + FromHosts(r.tasks)
  {
    var u := InsertPage(l, key, r);
    UnionUntouched(l, u, key, r.page, Page(r.cursor, r.next, MarkOfPage(r), r.tasks), r.page - 1);
  }

  lemma {:induction false} JoinedDistinct(l: Ledger, key: Key, n: nat, a: seq<Observation>, r: PageRequest)
    requires a == Union(l, key, n) && DistinctThreads(a) && DistinctThreads(FromHosts(r.tasks))
    requires forall i :: 0 <= i < |r.tasks| ==> !Staged(l, key, r.tasks[i].thread)
    ensures DistinctThreads(a + FromHosts(r.tasks))
  {
    var c: seq<Observation> := a + FromHosts(r.tasks);
    forall i, j | 0 <= i < j < |c| ensures c[i].thread != c[j].thread {
      if i < |a| <= j {
        UnionIsStaged(l, key, n, a[i]);
        assert r.tasks[j - |a|].thread == c[j].thread;
      }
    }
  }

  lemma {:induction false} JoinedClean(a: seq<Observation>, b: seq<Observation>)
    requires (forall i :: 0 <= i < |a| ==> Clean(a[i])) && forall i :: 0 <= i < |b| ==> Clean(b[i])
    ensures forall i :: 0 <= i < |a + b| ==> Clean((a + b)[i])
  {
  }

  ghost predicate MarksOk(l: Ledger, key: Key, n: nat) {
    forall i :: 1 <= i <= n && (key, i) in l.pages ==>
      l.pages[(key, i)].mark
        == PageMark(l.pages[(key, i)].cursor, l.pages[(key, i)].next, set t | t in l.pages[(key, i)].tasks)
  }

  lemma {:induction false} InsertedIsMarked(l: Ledger, key: Key, r: PageRequest)
    requires key in l.collections && r.page >= 1 && MarksOk(l, key, r.page - 1)
    ensures MarksOk(InsertPage(l, key, r), key, r.page)
  {
  }

  lemma {:induction false} FitsMeans(l: Ledger, key: Key, r: PageRequest)
    requires key in l.collections && PageError(l, key, r).None?
    ensures r.page == l.collections[key].pageCount + 1 && l.collections[key].taskCount + |r.tasks| <= MAX_TASKS
    ensures forall i :: 0 <= i < |r.tasks| ==> !Staged(l, key, r.tasks[i].thread)
  {
  }

  lemma {:induction false} InsertedIsStaged(l: Ledger, key: Key, r: PageRequest)
    requires Fits(l, key, r)
    ensures StagedOk(InsertPage(l, key, r), key)
  {
    var a, b := Union(l, key, l.collections[key].pageCount), FromHosts(r.tasks);
    FitsMeans(l, key, r);
    InsertedUnion(l, key, r);
    InsertedIsMarked(l, key, r);
    JoinedDistinct(l, key, r.page - 1, a, r);
    JoinedClean(a, b);
    assert Union(InsertPage(l, key, r), key, r.page) == a + b;
  }

  lemma {:induction false} InsertedIsLinked(l: Ledger, key: Key, r: PageRequest)
    requires Fits(l, key, r)
    ensures PagesOk(InsertPage(l, key, r), key)
  {
    var u, c := InsertPage(l, key, r), l.collections[key].pageCount;
    forall n | 1 <= n <= c + 1 ensures Chained(u, key, n) {
      if n <= c { assert Chained(l, key, n); }
    }
    forall i, j | 1 <= i < j <= c + 1 ensures u.pages[(key, i)].next != u.pages[(key, j)].next {
      if j == c + 1 {
        assert (key, i) in l.pages;
        if r.next != "" { assert !CursorUsed(l, key, r.next); }
      }
    }
  }

  lemma {:induction false} InsertKeepsOthers(l: Ledger, key: Key, r: PageRequest, other: Key)
    requires key in l.collections && other in l.collections && other != key && ColOk(l, other)
    ensures ColOk(InsertPage(l, key, r), other)
  {
    ColSame(l, InsertPage(l, key, r), other);
  }

  /** All collections are sound; `key` may still be without pages. */
  ghost predicate Building(l: Ledger, key: Key) {
    && key in l.collections && (forall k {:trigger ColOk(l, k)} :: k in l.collections ==> ColOk(l, k))
    && (forall k :: k in l.collections && k != key ==> l.collections[k].pageCount >= 1)
    && (forall p :: p in l.pages ==> p.0 in l.collections)
  }

  lemma {:induction false} InsertKeepsInv(l: Ledger, key: Key, r: PageRequest)
    requires Building(l, key) && Fits(l, key, r) && NameOk(key.0) && NameOk(key.1)
    ensures StagingInv(InsertPage(l, key, r))
  {
    var u := InsertPage(l, key, r);
    InsertedIsStaged(l, key, r);
    InsertedIsLinked(l, key, r);
    forall k | k in u.collections ensures ColOk(u, k) && u.collections[k].pageCount >= 1 {
      if k != key { InsertKeepsOthers(l, key, r, k); }
    }
  }

  lemma {:induction false} StageKeepsInv(l: Ledger, key: Key, r: PageRequest)
    requires Building(l, key) && ValidPage(r) && key == (r.host, r.observation)
    requires forall i :: 0 <= i < |r.tasks| ==> Clean(FromHost(r.tasks[i]))
    requires StagePage(l, key, r).1.Ok?
    ensures StagingInv(StagePage(l, key, r).0)
  {
    assert ColOk(l, key);
    if (key, r.page) in l.pages {
      assert l.collections[key].pageCount >= 1;
    } else {
      assert Fits(l, key, r);
      InsertKeepsInv(l, key, r);
    }
  }

  lemma {:induction false} OpenedIsOk(p: Ledger, key: Key, at: int, now: int)
    requires (forall n :: (key, n) !in p.pages) && at != 0 && NameOk(key.0) && NameOk(key.1)
    ensures ColOk(Opened(p, key, at, now), key)
  {
  }

  lemma {:induction false} OpenedIsBuilding(p: Ledger, key: Key, at: int, now: int)
    requires StagingInv(p) && key !in p.collections && at != 0 && NameOk(key.0) && NameOk(key.1)
    ensures Building(Opened(p, key, at, now), key)
  {
    var u := Opened(p, key, at, now);
    forall n ensures (key, n) !in p.pages {
      assert (key, n) in p.pages ==> (key, n).0 in p.collections;
    }
    OpenedIsOk(p, key, at, now);
    forall k | k in u.collections && k != key ensures ColOk(u, k) && u.collections[k].pageCount >= 1 {
      assert ColOk(p, k);
      ColSame(p, u, k);
    }
  }

  lemma {:induction false} NewIsBuilding(l: Ledger, key: Key, at: int, now: int)
    requires StagingInv(l) && key !in l.collections && at != 0 && NameOk(key.0) && NameOk(key.1)
    ensures Building(NewCollection(l, key, at, now), key)
  {
    WithoutKeepsInv(l, Stale(l, now));
    OpenedIsBuilding(TaskLedger.Without(l, Stale(l, now)), key, at, now);
  }

  lemma {:induction false} NormalPageIsClean(raw: PageRequest)
    requires ValidPage(NormalPage(raw))
    ensures var r := NormalPage(raw);
            && NameOk(r.host) && NameOk(r.observation) && forall i :: 0 <= i < |r.tasks| ==> Clean(FromHost(r.tasks[i]))
  {
    var r := NormalPage(raw);
    TrimTwice(raw.host);
    TrimTwice(raw.observation);
    forall i | 0 <= i < |r.tasks| ensures Clean(FromHost(r.tasks[i])) {
      NormalHostTwice(raw.tasks[i]);
      assert ValidObservation(FromHosts(r.tasks)[i]);
    }
  }

  lemma {:induction false} InvIsBuilding(l: Ledger, key: Key)
    requires StagingInv(l) && key in l.collections
    ensures Building(l, key)
  {
    forall k | k in l.collections ensures ColOk(l, k) && l.collections[k].pageCount >= 1 {
      assert ColOk(l, k);
    }
  }

  lemma {:induction false} AddPageIs(l: Ledger, raw: PageRequest, now: int)
    requires AddPage(l, raw, now).1.Ok?
    ensures var r, u := NormalPage(raw), AddPage(l, raw, now);
            var key := (r.host, r.observation);
            && ValidPage(r)
            && (if key in l.collections then u == StagePage(l, key, r)
                 else u == StagePage(NewCollection(l, key, r.at, now), key, r))
  {
  }

  lemma {:induction false} AddRefusedKeeps(l: Ledger, raw: PageRequest, now: int)
    ensures AddPage(l, raw, now).1.Err? ==> AddPage(l, raw, now).0 == l
  {
  }

  lemma {:induction false} AddPageKeepsInv(l: Ledger, raw: PageRequest, now: int)
    requires StagingInv(l)
    ensures StagingInv(AddPage(l, raw, now).0)
  {
    var r := NormalPage(raw);
    var key := (r.host, r.observation);
    if AddPage(l, raw, now).1.Ok? {
      AddPageIs(l, raw, now);
      NormalPageIsClean(raw);
      if key in l.collections {
        InvIsBuilding(l, key);
        StageKeepsInv(l, key, r);
      } else {
        NewIsBuilding(l, key, r.at, now);
        StageKeepsInv(NewCollection(l, key, r.at, now), key, r);
      }
    } else {
      AddRefusedKeeps(l, raw, now);
    }
  }
}
