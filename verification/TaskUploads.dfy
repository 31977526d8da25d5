/** From what a host uploads or a client ingests to what the index shows, and what each upload is answered. */
module TaskUploads {
  import opened Basics
  import opened TaskIndex
  import opened TaskConvergence
  import opened TaskLedger
  import opened TaskStaging
  import opened TaskCollections
  import opened TaskHistory

  // ---- one observation, from the outside ----

  /** The text given, without surrounding blanks; if that is empty, what the record had. */
  function Text(given: string, kept: string): string {
    if TrimSpace(given) != "" then TrimSpace(given) else kept
  }

  /** The record before, or a blank one first seen now. */
  function Before(before: Option<Task>, at: int): Task {
    if before.Some? then before.value
    else Task("", "", "", "", "", false, false, Summary("", "", "", "", ""), NEVER, 0, 0, at, NEVER, NEVER, "", "",
              None, None)
  }

  /** Texts: the given ones, or else the old ones. */
  ghost predicate ShowsTexts(b: Task, t: Task, o: Observation) {
    && t.title == Text(o.title, b.title) && t.description == Text(o.description, b.description)
    && t.cwd == Text(o.cwd, b.cwd) && t.project == Text(o.project, b.project) && t.status == Text(o.status, b.status)
  }

  /** Flags and times: the given ones, with the old ones or the snapshot's time where nothing is given. */
  ghost predicate ShowsTimes(b: Task, t: Task, at: int, o: Observation) {
    && t.unread == o.unread && t.firstSeen == b.firstSeen
    && t.created == (if o.created != 0 then o.created else if b.created != 0 then b.created else at)
    && t.updated == (if o.updated != 0 then o.updated else at)
    && t.waitCursor == (if o.waitCursor.Some? then o.waitCursor.value else b.waitCursor)
    && t.coordinator == (if o.coordinator.Some? then o.coordinator.value else b.coordinator)
    && t.tombstoned == (if o.tombstoned then Some(at) else None)
  }

  /** The snapshot's stamp and source. */
  ghost predicate ShowsStamp(t: Task, stamp: Stamp, source: string) {
    t.missing == None && t.source == source && t.seen == stamp && t.state == stamp
  }

  predicate IsUpper(upper: string, given: string) {
    |upper| == |given| && forall i :: 0 <= i < |given| ==> upper[i] == Upper(given[i])
  }

  /** The texts given, without surrounding blanks, the tier in upper case. */
  predicate IsSummary(s: Summary, given: Summary) {
    && IsUpper(s.tier, TrimSpace(given.tier)) && s.outcome == TrimSpace(given.outcome)
    && s.unresolved == TrimSpace(given.unresolved) && s.action == TrimSpace(given.action)
    && s.decision == TrimSpace(given.decision)
  }

  /** A classification counts from the time it gives, or else from the snapshot's, and replaces an older one only. */
  ghost predicate ShowsClass(b: Task, t: Task, stamp: Stamp, given: Option<Classification>) {
    if given.Some?
       && Older(b.classified, Stamp(if given.value.at != 0 then given.value.at else stamp.at, stamp.id))
    then IsSummary(t.summary, given.value.summary)
         && t.classified == Stamp(if given.value.at != 0 then given.value.at else stamp.at, stamp.id)
    else t.summary == b.summary && t.classified == b.classified
  }

  /** What the record shows once an observation, as it was given, was merged into it. */
  ghost predicate Shows(before: Option<Task>, t: Task, stamp: Stamp, source: string, o: Observation) {
    var b := Before(before, stamp.at);
    ShowsTexts(b, t, o) && ShowsTimes(b, t, stamp.at, o) && ShowsStamp(t, stamp, source)
      && ShowsClass(b, t, stamp, o.classification)
  }

  /** Of an observation that comes too late only the classification can count. */
  ghost predicate KeepsBut(b: Task, t: Task, stamp: Stamp, given: Option<Classification>) {
    t == b.(summary := t.summary, classified := t.classified) && ShowsClass(b, t, stamp, given)
  }

  lemma {:induction false} UpperIs(upper: string, given: string)
    ensures IsUpper(upper, given) <==> upper == seq(|given|, i requires 0 <= i < |given| => Upper(given[i]))
  {
  }

  lemma {:induction false} SummaryIs(c: Classification)
    ensures IsSummary(NormalClassification(c).summary, c.summary)
  {
    UpperIs(NormalClassification(c).summary.tier, TrimSpace(c.summary.tier));
  }

  lemma {:induction false} ClassifyShows(b: Task, t: Task, s: Snapshot, o: Observation)
    requires t.summary == b.summary && t.classified == b.classified
    ensures ShowsClass(b, Classify(t, s, NormalObservation(o).classification), Stamp(s.at, s.request), o.classification)
  {
    if o.classification.Some? { SummaryIs(o.classification.value); }
  }

  lemma {:induction false} MergeTexts(before: Option<Task>, s: Snapshot, o: Observation)
    ensures ShowsTexts(Before(before, s.at), MergeTask(before, s, NormalObservation(o)), o)
  {
  }

  lemma {:induction false} MergeTimes(before: Option<Task>, s: Snapshot, o: Observation)
    ensures ShowsTimes(Before(before, s.at), MergeTask(before, s, NormalObservation(o)), s.at, o)
  {
  }

  lemma {:induction false} MergeStamp(before: Option<Task>, s: Snapshot, o: Observation)
    ensures ShowsStamp(MergeTask(before, s, NormalObservation(o)), Stamp(s.at, s.request), s.source)
    ensures ShowsClass(Before(before, s.at), MergeTask(before, s, NormalObservation(o)), Stamp(s.at, s.request),
              o.classification)
  {
    var t := if before.Some? then before.value else BLANK.(firstSeen := s.at);
    ClassifyShows(Before(before, s.at), Described(t, s.at, NormalObservation(o)), s, o);
  }

  lemma {:induction false} MergeShows(before: Option<Task>, s: Snapshot, o: Observation)
    ensures Shows(before, MergeTask(before, s, NormalObservation(o)), Stamp(s.at, s.request), s.source, o)
  {
    MergeTexts(before, s, o);
    MergeTimes(before, s, o);
    MergeStamp(before, s, o);
  }

  lemma {:induction false} LateShows(b: Task, s: Snapshot, o: Observation)
    ensures KeepsBut(b, Classify(b, s, NormalObservation(o).classification), Stamp(s.at, s.request), o.classification)
  {
    ClassifyShows(b, b, s, o);
  }

  /** The snapshot beats the record, if there is one. */
  predicate Beats(x: Index, k: (string, string), stamp: Stamp) {
    k in x ==> Older(x[k].state, stamp)
  }

  lemma {:induction false} ObservedAt(s: Snapshot, i: nat)
    requires ValidSnapshot(s) && i < |s.tasks|
    ensures Observed(s.tasks, s.tasks[i].thread) == Some(s.tasks[i])
  {
    ObservedIs(s.tasks, s.tasks[i]);
  }

  /** After an ingest that publishes, a listed task that the snapshot beats shows what was given, texts without
      surrounding blanks; of one that it does not beat only the classification can have changed. */
  lemma {:induction false} IngestShows(l: Ledger, raw: Snapshot, i: nat)
    requires PublishedBy(l, raw) != [] && i < |raw.tasks|
    ensures var k := (TrimSpace(raw.host), TrimSpace(raw.tasks[i].thread));
            var stamp := Stamp(raw.at, TrimSpace(raw.request));
            var y := IngestLocked(l, raw).0.index;
            k in y
            && if Beats(l.index, k, stamp)
               then Shows(Lookup(l.index, k), y[k], stamp, TrimSpace(raw.source), raw.tasks[i])
               else KeepsBut(l.index[k], y[k], stamp, raw.tasks[i].classification)
  {
    var s := Normalize(raw);
    var k := (s.host, s.tasks[i].thread);
    ObservedAt(s, i);
    AppliedEverywhere(l.index, s, k);
    if Beats(l.index, k, StampOf(s)) {
      MergeShows(Lookup(l.index, k), s, raw.tasks[i]);
    } else {
      LateShows(l.index[k], s, raw.tasks[i]);
    }
  }

  // ---- one uploaded task ----

  /** What a host's task says, as an observation. */
  predicate SaysTask(o: Observation, t: HostTask) {
    && o.thread == t.thread && o.title == t.title && o.description == "" && o.cwd == t.cwd && o.project == t.project
    && o.status == t.status && o.unread == t.unread && o.created == t.created && o.updated == t.updated
    && o.waitCursor == t.waitCursor && o.tombstoned == t.tombstoned && o.coordinator == t.coordinator
    && o.classification == None
  }

  /** The staged task is the uploaded one, its texts without surrounding blanks. */
  predicate IsTrimmedTask(u: HostTask, t: HostTask) {
    && u.thread == TrimSpace(t.thread) && u.title == TrimSpace(t.title) && u.cwd == TrimSpace(t.cwd)
    && u.project == TrimSpace(t.project) && u.status == TrimSpace(t.status) && u.unread == t.unread
    && u.created == t.created && u.updated == t.updated && u.waitCursor == t.waitCursor
    && u.tombstoned == t.tombstoned && u.coordinator == t.coordinator
  }

  /** An accepted page that is no replay is stored with its cursors and its tasks, trimmed, in their order. */
  lemma {:induction false} UploadStores(l: Ledger, raw: PageRequest, now: int)
    requires AddPage(l, raw, now).1.Ok? && !AddPage(l, raw, now).1.value.replayed
    ensures var u, key := AddPage(l, raw, now).0, (TrimSpace(raw.host), TrimSpace(raw.observation));
            && key in u.collections && (key, raw.page) in u.pages && u.collections[key].finish.None?
            && var p := u.pages[(key, raw.page)];
               && p.cursor == raw.cursor && p.next == raw.next && |p.tasks| == |raw.tasks|
               && forall i :: 0 <= i < |p.tasks| ==> IsTrimmedTask(p.tasks[i], raw.tasks[i])
    ensures var r := AddPage(l, raw, now).1.value;
            var u, key := AddPage(l, raw, now).0, (TrimSpace(raw.host), TrimSpace(raw.observation));
            r.page == raw.page && r.tasks == |raw.tasks| && r.at == u.collections[key].at
              && (key !in l.collections ==> r.at == raw.at && u.collections[key].created == now)
  {
    AddPageIs(l, raw, now);
    var r := NormalPage(raw);
    var key := (r.host, r.observation);
    NewStages(if key in l.collections then l else NewCollection(l, key, r.at, now), key, r);
  }

  lemma {:induction false} NewStages(l: Ledger, key: Key, r: PageRequest)
    requires key in l.collections && StagePage(l, key, r).1.Ok? && !StagePage(l, key, r).1.value.replayed
    ensures StagePage(l, key, r).0 == InsertPage(l, key, r) && l.collections[key].finish.None?
  {
  }

  lemma {:induction false} UnionHolds(l: Ledger, key: Key, n: nat, p: int, i: nat)
    requires 1 <= p <= n && (key, p) in l.pages && i < |l.pages[(key, p)].tasks|
    ensures FromHost(l.pages[(key, p)].tasks[i]) in Union(l, key, n)
  {
    if p < n {
      UnionHolds(l, key, n - 1, p, i);
    } else {
      assert FromHosts(l.pages[(key, p)].tasks)[i] in Union(l, key, n);
    }
  }

  lemma {:induction false} SaysIsFromHost(t: HostTask)
    ensures SaysTask(FromHost(t), t)
  {
  }

  lemma {:induction false} PageIsInRange(l: Ledger, key: Key, p: int)
    requires StagingInv(l) && key in l.collections && (key, p) in l.pages
    ensures 1 <= p <= l.collections[key].pageCount && ColOk(l, key)
  {
    assert ColOk(l, key);
  }

  /** After a collection is finished, each of its staged tasks that the collection's time beats shows what the host said
      of it; any other stays as it was. */
  lemma {:induction false} FinishShows(sha: string -> string, ls: seq<Ledger>, ops: seq<Op>, n: nat, key: Key,
          coverage: string, now: int, p: int, i: nat, o: Observation)
    requires IsHistory(sha, ls, ops) && n < |ls| && IsDigest(sha) && coverage in {WINDOW, COMPLETE}
    requires key in ls[n].collections && ls[n].collections[key].finish.None? && IngestFresh(ls[n], sha, key)
    requires FinishCollection(ls[n], sha, key.0, key.1, coverage, now).1.Ok?
    requires (key, p) in ls[n].pages && i < |ls[n].pages[(key, p)].tasks|
    requires SaysTask(o, ls[n].pages[(key, p)].tasks[i])
    ensures var l, m := ls[n], ls[n].collections[key];
            var k, stamp := (key.0, o.thread), Stamp(m.at, IngestId(sha, key));
            var y := FinishCollection(l, sha, key.0, key.1, coverage, now).0.index;
            k in y
            && if Beats(l.index, k, stamp) then Shows(Lookup(l.index, k), y[k], stamp, "codex.list_threads", o)
               else y[k] == l.index[k]
  {
    var l := ls[n];
    HistoryKeepsInv(sha, ls, ops, n);
    PageIsInRange(l, key, p);
    UnionHolds(l, key, l.collections[key].pageCount, p, i);
    var s := Published(l, sha, key, coverage);
    CollectionRefinesIngest(sha, ls, ops, n, key, coverage, now);
    PublishedIsValid(l, sha, key, coverage);
    var j :| 0 <= j < |s.tasks| && s.tasks[j] == FromHost(l.pages[(key, p)].tasks[i]);
    PublishedShows(l.index, s, j);
  }

  lemma {:induction false} PublishedShows(x: Index, s: Snapshot, i: nat)
    requires Normalize(s) == s && ValidSnapshot(s) && i < |s.tasks| && s.tasks[i].classification == None
    ensures var k := (s.host, s.tasks[i].thread);
            k in Apply(x, s)
            && if Beats(x, k, StampOf(s)) then Shows(Lookup(x, k), Apply(x, s)[k], StampOf(s), s.source, s.tasks[i])
               else Apply(x, s)[k] == x[k]
  {
    var k := (s.host, s.tasks[i].thread);
    ObservedAt(s, i);
    AppliedEverywhere(x, s, k);
    assert NormalTasks(s.tasks)[i] == NormalObservation(s.tasks[i]);
    MergeShows(Lookup(x, k), s, s.tasks[i]);
  }

  // ---- the answers to a page ----

  /** A page that no collection could take. */
  ghost predicate IllFormed(raw: PageRequest) {
    || TrimSpace(raw.host) == "" || Utf8Len(TrimSpace(raw.host)) > 256
    || TrimSpace(raw.observation) == "" || Utf8Len(TrimSpace(raw.observation)) > 256
    || raw.page < 1 || raw.page > 1000 || raw.at == 0 || Utf8Len(raw.cursor) > 4096 || Utf8Len(raw.next) > 4096
    || |raw.tasks| > 1000
    || (exists i :: 0 <= i < |raw.tasks| && IllTask(raw.tasks[i]))
    || (exists i, j :: 0 <= i < j < |raw.tasks| && TrimSpace(raw.tasks[i].thread) == TrimSpace(raw.tasks[j].thread))
  }

  predicate IllTask(t: HostTask) {
    || TrimSpace(t.thread) == "" || Utf8Len(TrimSpace(t.thread)) > 512 || Utf8Len(TrimSpace(t.title)) > 1000
    || Utf8Len(TrimSpace(t.cwd)) > 4096 || Utf8Len(TrimSpace(t.project)) > 1000
    || Utf8Len(TrimSpace(t.status)) > 128 || (t.waitCursor.Some? && Utf8Len(t.waitCursor.value) > 4096)
  }

  lemma {:induction false} IllTaskIs(raw: PageRequest, i: nat)
    requires i < |raw.tasks|
    ensures IllTask(raw.tasks[i]) <==> !ValidObservation(FromHosts(NormalPage(raw).tasks)[i])
    ensures FromHosts(NormalPage(raw).tasks)[i].thread == TrimSpace(raw.tasks[i].thread)
  {
    Utf8Bound("");
  }

  lemma {:induction false} IllFormedIs(raw: PageRequest)
    ensures IllFormed(raw) <==> !ValidPage(NormalPage(raw))
  {
    forall i | 0 <= i < |raw.tasks|
      ensures IllTask(raw.tasks[i]) <==> !ValidObservation(FromHosts(NormalPage(raw).tasks)[i])
      ensures FromHosts(NormalPage(raw).tasks)[i].thread == TrimSpace(raw.tasks[i].thread)
    {
      IllTaskIs(raw, i);
    }
    AsciiLen(SOURCE);
  }

  /** The fingerprint is of a page with these cursors and, trimmed and in any order, these tasks. */
  ghost predicate SameContent(mark: PageMark, raw: PageRequest) {
    && mark.cursor == raw.cursor && mark.next == raw.next
    && (forall t :: t in mark.tasks <==> exists i :: 0 <= i < |raw.tasks| && IsTrimmedTask(t, raw.tasks[i]))
  }

  lemma {:induction false} TrimmedIs(t: HostTask, raw: HostTask)
    ensures IsTrimmedTask(t, raw) <==> t == NormalHost(raw)
  {
  }

  lemma {:induction false} SameContentIs(mark: PageMark, raw: PageRequest)
    ensures SameContent(mark, raw) <==> mark == MarkOfPage(NormalPage(raw))
  {
    var r := NormalPage(raw);
    forall t ensures t in MarkOfPage(r).tasks <==> exists i :: 0 <= i < |raw.tasks| && IsTrimmedTask(t, raw.tasks[i]) {
      if t in MarkOfPage(r).tasks {
        var i :| 0 <= i < |r.tasks| && r.tasks[i] == t;
        TrimmedIs(t, raw.tasks[i]);
      }
      if i :| 0 <= i < |raw.tasks| && IsTrimmedTask(t, raw.tasks[i]) {
        TrimmedIs(t, raw.tasks[i]);
        assert r.tasks[i] == t;
      }
    }
    if mark == MarkOfPage(r) {
      assert SameContent(mark, raw);
    }
    if SameContent(mark, raw) {
      assert mark.tasks == MarkOfPage(r).tasks;
    }
  }

  /** Some page of the collection starts or ends at this cursor. */
  ghost predicate CursorTaken(l: Ledger, key: Key, cursor: string) {
    exists p :: p in l.pages && p.0 == key && cursor in {l.pages[p].cursor, l.pages[p].next}
  }

  ghost predicate Holds(p: Page, thread: string) {
    exists x :: 0 <= x < |p.tasks| && p.tasks[x].thread == thread
  }

  /** Some page of the collection holds a task of this thread. */
  ghost predicate ThreadTaken(l: Ledger, key: Key, thread: string) {
    exists p :: p in l.pages && p.0 == key && Holds(l.pages[p], thread)
  }

  lemma {:induction false} TakenIs(l: Ledger, key: Key, cursor: string, thread: string)
    ensures CursorTaken(l, key, cursor) <==> CursorUsed(l, key, cursor)
    ensures ThreadTaken(l, key, thread) <==> Staged(l, key, thread)
  {
  }

  /** The answer to a page that is not stored yet, of a collection that has this page before it. */
  ghost function NextAnswer(l: Ledger, key: Key, raw: PageRequest): Outcome<PageResult>
    requires key in l.collections
  {
    var m := l.collections[key];
    if m.finish.Some? then Err(Finalized)
    else if raw.page != m.pageCount + 1 then Err(NotContiguous)
    else if (key, m.pageCount as int) !in l.pages then Err(BrokenStaging)
    else if l.pages[(key, m.pageCount as int)].next == "" then Err(AfterTerminal)
    else if l.pages[(key, m.pageCount as int)].next != raw.cursor then Err(WrongCursor)
    else if raw.next != "" && (raw.next == raw.cursor || CursorTaken(l, key, raw.next)) then Err(RepeatedCursor)
    else if m.taskCount + |raw.tasks| > 1000 then Err(TooManyTasks)
    else if exists i :: 0 <= i < |raw.tasks| && ThreadTaken(l, key, TrimSpace(raw.tasks[i].thread))
    then Err(DuplicateThread)
    else Ok(PageResult(raw.page, |raw.tasks|, m.at, false))
  }

  lemma {:induction false} KnownAnswers(l: Ledger, raw: PageRequest, now: int)
    requires !IllFormed(raw) && KeyOf(raw) in l.collections
    ensures AddPage(l, raw, now) == StagePage(l, KeyOf(raw), NormalPage(raw))
  {
    IllFormedIs(raw);
  }

  lemma {:induction false} DuplicatesAre(l: Ledger, key: Key, raw: PageRequest)
    ensures (exists i :: 0 <= i < |raw.tasks| && ThreadTaken(l, key, TrimSpace(raw.tasks[i].thread))) <==>
            exists i :: 0 <= i < |NormalPage(raw).tasks| && Staged(l, key, NormalPage(raw).tasks[i].thread)
  {
    var r := NormalPage(raw);
    forall i | 0 <= i < |raw.tasks|
      ensures ThreadTaken(l, key, TrimSpace(raw.tasks[i].thread)) <==> Staged(l, key, r.tasks[i].thread)
    {
      TakenIs(l, key, "", r.tasks[i].thread);
    }
    if i :| 0 <= i < |raw.tasks| && ThreadTaken(l, key, TrimSpace(raw.tasks[i].thread)) {
      assert Staged(l, key, r.tasks[i].thread);
    }
    if i :| 0 <= i < |r.tasks| && Staged(l, key, r.tasks[i].thread) {
      assert ThreadTaken(l, key, TrimSpace(raw.tasks[i].thread));
    }
  }

  lemma {:induction false} NextIs(l: Ledger, key: Key, raw: PageRequest)
    requires key in l.collections && (key, raw.page) !in l.pages && l.collections[key].pageCount >= 1
    ensures StagePage(l, key, NormalPage(raw)).1 == NextAnswer(l, key, raw)
  {
    TakenIs(l, key, raw.next, "");
    DuplicatesAre(l, key, raw);
  }

  lemma {:induction false} StoredAnswers(l: Ledger, key: Key, raw: PageRequest)
    requires key in l.collections && (key, raw.page) in l.pages
    ensures StagePage(l, key, NormalPage(raw)).1 ==
            if SameContent(l.pages[(key, raw.page)].mark, raw)
            then Ok(PageResult(raw.page, |raw.tasks|, l.collections[key].at, true)) else Err(PageMismatch)
  {
    SameContentIs(l.pages[(key, raw.page)].mark, raw);
  }

  /** What a page of a known collection is answered, at any time: the same page again is a replay, another page of that
      number a mismatch; else the errors in their order, or it is accepted. */
  lemma {:induction false} PageAnswers(sha: string -> string, ls: seq<Ledger>, ops: seq<Op>, n: nat, raw: PageRequest,
          now: int)
    requires IsHistory(sha, ls, ops) && n < |ls| && !IllFormed(raw) && KeyOf(raw) in ls[n].collections
    ensures var l, key := ls[n], KeyOf(raw);
            AddPage(l, raw, now).1 ==
            if (key, raw.page) in l.pages then
              if SameContent(l.pages[(key, raw.page)].mark, raw)
              then Ok(PageResult(raw.page, |raw.tasks|, l.collections[key].at, true)) else Err(PageMismatch)
            else NextAnswer(l, key, raw)
  {
    HistoryKeepsInv(sha, ls, ops, n);
    Sound(ls[n], KeyOf(raw));
    KnownAnswers(ls[n], raw, now);
    if (KeyOf(raw), raw.page) in ls[n].pages {
      StoredAnswers(ls[n], KeyOf(raw), raw);
    } else {
      NextIs(ls[n], KeyOf(raw), raw);
    }
  }

  lemma {:induction false} FirstStages(l: Ledger, key: Key, r: PageRequest)
    requires key in l.collections && l.collections[key].pageCount == 0 && l.collections[key].taskCount == 0
    requires l.collections[key].finish.None? && (forall p :: p in l.pages ==> p.0 != key) && r.page == 1
    requires |r.tasks| <= 1000
    ensures StagePage(l, key, r).1
            == if r.cursor != "" then Err(FirstCursor) else Ok(PageResult(1, |r.tasks|, l.collections[key].at, false))
  {
  }

  lemma {:induction false} NewIsEmpty(l: Ledger, key: Key, at: int, now: int)
    requires key !in l.collections && forall p :: p in l.pages ==> p.0 in l.collections
    ensures var u := NewCollection(l, key, at, now);
            && key in u.collections && u.collections[key].pageCount == 0 && u.collections[key].taskCount == 0
            && u.collections[key].finish.None? && u.collections[key].at == at && forall p :: p in u.pages ==> p.0 != key
  {
  }

  /** What a page of an unknown collection is answered: it must be the first, there must be room, and it must not carry
      a cursor; and then it is accepted, at the time it gives. */
  lemma {:induction false} FirstPageAnswers(sha: string -> string, ls: seq<Ledger>, ops: seq<Op>, n: nat,
          raw: PageRequest, now: int)
    requires IsHistory(sha, ls, ops) && n < |ls| && !IllFormed(raw) && KeyOf(raw) !in ls[n].collections
    ensures AddPage(ls[n], raw, now).1 ==
            if raw.page != 1 then Err(NotFound)
            else if |Open(Without(ls[n], Stale(ls[n], now)))| >= MAX_OPEN then Err(TooManyOpen)
            else if raw.cursor != "" then Err(FirstCursor)
            else Ok(PageResult(1, |raw.tasks|, raw.at, false))
  {
    HistoryKeepsInv(sha, ls, ops, n);
    IllFormedIs(raw);
    var r := NormalPage(raw);
    NewIsEmpty(ls[n], KeyOf(raw), r.at, now);
    if raw.page == 1 { FirstStages(NewCollection(ls[n], KeyOf(raw), r.at, now), KeyOf(raw), r); }
  }

  /** An ill-formed page is refused, and no other is refused as such. */
  lemma {:induction false} IllFormedIsInvalid(l: Ledger, raw: PageRequest, now: int)
    ensures AddPage(l, raw, now) == (l, Err(Invalid)) <==> IllFormed(raw)
  {
    IllFormedIs(raw);
    StagingIsNeverInvalid(l, KeyOf(raw), NormalPage(raw));
    StagingIsNeverInvalid(NewCollection(l, KeyOf(raw), raw.at, now), KeyOf(raw), NormalPage(raw));
  }

  lemma {:induction false} StagingIsNeverInvalid(l: Ledger, key: Key, r: PageRequest)
    ensures key in l.collections ==> StagePage(l, key, r).1 != Err(Invalid)
  {
  }

  // ---- the ingest ID of a collection ----

  ghost predicate Injective(sha: string -> string) {
    forall a, b :: sha(a) == sha(b) ==> a == b
  }

  /** Two collections whose host names hold no NUL are ingested under different request IDs. */
  lemma {:induction false} IngestIdsDiffer(sha: string -> string, a: Key, b: Key)
    requires Injective(sha) && '\0' !in a.0 && '\0' !in b.0 && IngestId(sha, a) == IngestId(sha, b)
    ensures a == b
  {
    var s, t := a.0 + ['\0'] + a.1, b.0 + ['\0'] + b.1;
    assert IngestId(sha, a)[|PREFIX|..] == sha(s) && IngestId(sha, b)[|PREFIX|..] == sha(t);
    assert s == t && s[|a.0|] == '\0' && s[|b.0|] == '\0';
    assert forall i :: 0 <= i < |a.0| ==> s[i] == a.0[i];
    assert forall i :: 0 <= i < |b.0| ==> s[i] == b.0[i];
    assert |a.0| == |b.0|;
    assert a.0 == s[..|a.0|] && b.0 == s[..|b.0|];
    assert a.1 == s[|a.0| + 1..] && b.1 == s[|b.0| + 1..];
  }

  // ---- fingerprints and the remaining answers ----

  /** Two snapshots have one fingerprint iff they agree on request, host, source, time, coverage and their set of
      observations. */
  lemma {:induction false} MarksAgreeIff(s: Snapshot, u: Snapshot)
    ensures MarkOf(s) == MarkOf(u) <==>
              && s.request == u.request && s.host == u.host && s.source == u.source && s.at == u.at
              && s.coverage == u.coverage && forall o :: o in s.tasks <==> o in u.tasks
  {
    if MarkOf(s) == MarkOf(u) {
      forall o ensures o in s.tasks <==> o in u.tasks {
        assert o in MarkOf(s).tasks <==> o in MarkOf(u).tasks;
      }
    } else if forall o :: o in s.tasks <==> o in u.tasks {
      assert MarkOf(s).tasks == MarkOf(u).tasks;
    }
  }

  /** An answer to a finish that publishes nothing: bad arguments, an unknown collection, a complete one that has not
      reached its last page, or an ingest ID used for something else; and every other open collection finishes. */
  lemma {:induction false} FinishAnswers(sha: string -> string, ls: seq<Ledger>, ops: seq<Op>, n: nat, host: string,
          observation: string, raw: string, now: int)
    requires IsHistory(sha, ls, ops) && n < |ls| && IsDigest(sha)
    ensures var l, key, coverage := ls[n], (TrimSpace(host), TrimSpace(observation)), NormalFinish(raw);
            var r := FinishCollection(l, sha, host, observation, raw, now).1;
            if key.0 == "" || Utf8Len(key.0) > 256 || key.1 == "" || Utf8Len(key.1) > 256
               || (coverage != "window" && coverage != "complete") then r == Err(Invalid)
            else if key !in l.collections then r == Err(NotFound)
            else if l.collections[key].finish.Some? then r == Err(FinishMismatch) || r.Ok?
            else if coverage == "complete" && LastCursor(l, key) != "" then r == Err(NotTerminal)
            else if !IngestAccepts(l, Published(l, sha, key, coverage)) then r == Err(IngestMismatch)
            else r.Ok?
  {
    var l, key, coverage := ls[n], (TrimSpace(host), TrimSpace(observation)), NormalFinish(raw);
    HistoryKeepsInv(sha, ls, ops, n);
    if ValidName(key.0) && ValidName(key.1) && coverage in {WINDOW, COMPLETE} && key in l.collections
       && l.collections[key].finish.None? {
      OpenFinishAnswers(l, sha, key, coverage, now);
    }
  }

  lemma {:induction false} OpenFinishAnswers(l: Ledger, sha: string -> string, key: Key, coverage: string, now: int)
    requires StagingInv(l) && IsDigest(sha) && key in l.collections && l.collections[key].finish.None?
    requires coverage in {WINDOW, COMPLETE}
    ensures var r := FinishKnown(l, sha, key, coverage, now).1;
            if coverage == COMPLETE && LastCursor(l, key) != "" then r == Err(NotTerminal)
            else if !IngestAccepts(l, Published(l, sha, key, coverage)) then r == Err(IngestMismatch)
            else r.Ok?
  {
    assert ColOk(l, key);
    StagingReadsBack(l, key);
    PublishedIsValid(l, sha, key, coverage);
    ConcludeIs(l, key, Published(l, sha, key, coverage), now);
    MismatchOnly(l, key, Published(l, sha, key, coverage), now);
  }

  lemma {:induction false} MismatchOnly(l: Ledger, key: Key, union: Snapshot, now: int)
    requires key in l.collections && Normalize(union) == union && ValidSnapshot(union)
    ensures Conclude(l, key, union, now).1.Err? ==> Conclude(l, key, union, now).1 == Err(IngestMismatch)
  {
  }

  /** The status of a collection counts its pages and, while it is open, their tasks. */
  lemma {:induction false} StatusCounts(sha: string -> string, ls: seq<Ledger>, ops: seq<Op>, n: nat, key: Key)
    requires IsHistory(sha, ls, ops) && n < |ls| && key in ls[n].collections
    ensures StatusOf(ls[n], key).Ok?
    ensures var l, s := ls[n], StatusOf(ls[n], key).value;
            && (forall p :: (key, p) in l.pages <==> 1 <= p <= s.pages)
            && (l.collections[key].finish.None? ==> s.tasks == |Union(l, key, s.pages)| && s.coverage == None)
            && (l.collections[key].finish.Some? ==> s.coverage == Some(l.collections[key].finish.value.coverage))
  {
    HistoryKeepsInv(sha, ls, ops, n);
    Sound(ls[n], key);
    assert ColOk(ls[n], key);
  }

  // ---- the answers to an ingest ----

  /** A classification with an unknown tier or too long a text. */
  ghost predicate IllClassification(c: Classification) {
    var s := c.summary;
    || !(IsUpper("", TrimSpace(s.tier)) || IsUpper("P0", TrimSpace(s.tier)) || IsUpper("P1", TrimSpace(s.tier))
         || IsUpper("P2", TrimSpace(s.tier)) || IsUpper("P3", TrimSpace(s.tier)))
    || Utf8Len(TrimSpace(s.outcome)) > 2000 || Utf8Len(TrimSpace(s.unresolved)) > 2000
    || Utf8Len(TrimSpace(s.action)) > 2000 || Utf8Len(TrimSpace(s.decision)) > 2000
  }

  predicate IsLower(lower: string, given: string) {
    |lower| == |given| && forall i :: 0 <= i < |given| ==> lower[i] == Lower(given[i])
  }

  ghost predicate IllObservation(o: Observation) {
    || TrimSpace(o.thread) == "" || Utf8Len(TrimSpace(o.thread)) > 512 || Utf8Len(TrimSpace(o.title)) > 1000
    || Utf8Len(TrimSpace(o.description)) > 2000 || Utf8Len(TrimSpace(o.cwd)) > 4096
    || Utf8Len(TrimSpace(o.project)) > 1000 || Utf8Len(TrimSpace(o.status)) > 128
    || (o.waitCursor.Some? && Utf8Len(o.waitCursor.value) > 4096)
    || (o.classification.Some? && IllClassification(o.classification.value))
  }

  predicate NamesCoverage(given: string) {
    given == "" || IsLower("window", given) || IsLower("complete", given)
  }

  predicate IllName(s: string) {
    TrimSpace(s) == "" || Utf8Len(TrimSpace(s)) > 256
  }

  /** A snapshot that no index could take. */
  ghost predicate IllSnapshot(raw: Snapshot) {
    || IllName(raw.request) || IllName(raw.host) || IllName(raw.source) || raw.at == 0
    || !NamesCoverage(TrimSpace(raw.coverage))
    || |raw.tasks| > 1000
    || (exists i :: 0 <= i < |raw.tasks| && IllObservation(raw.tasks[i]))
    || (exists i, j :: 0 <= i < j < |raw.tasks| && TrimSpace(raw.tasks[i].thread) == TrimSpace(raw.tasks[j].thread))
  }

  lemma {:induction false} IllClassificationIs(c: Classification)
    ensures IllClassification(c) <==> !ValidSummary(NormalClassification(c).summary)
  {
    var given := TrimSpace(c.summary.tier);
    forall tier: string ensures IsUpper(tier, given) <==> tier == NormalClassification(c).summary.tier {
      UpperIs(tier, given);
    }
  }

  lemma {:induction false} IllObservationIs(o: Observation)
    ensures IllObservation(o) <==> !ValidObservation(NormalObservation(o))
  {
    if o.classification.Some? { IllClassificationIs(o.classification.value); }
  }

  lemma {:induction false} CoverageIs(coverage: string)
    ensures NormalCoverage(coverage) in {WINDOW, COMPLETE} <==> NamesCoverage(TrimSpace(coverage))
    ensures NormalCoverage(coverage) == COMPLETE <==> IsLower("complete", TrimSpace(coverage))
  {
    var given := TrimSpace(coverage);
    var lowered := seq(|given|, i requires 0 <= i < |given| => Lower(given[i]));
    forall c: string ensures IsLower(c, given) <==> c == lowered {
    }
  }

  lemma {:induction false} IllSnapshotIs(raw: Snapshot)
    ensures IllSnapshot(raw) <==> !ValidSnapshot(Normalize(raw))
  {
    var s := Normalize(raw);
    CoverageIs(raw.coverage);
    forall i | 0 <= i < |raw.tasks|
      ensures IllObservation(raw.tasks[i]) <==> !ValidObservation(s.tasks[i])
      ensures s.tasks[i].thread == TrimSpace(raw.tasks[i].thread)
    {
      IllObservationIs(raw.tasks[i]);
    }
  }

  /** An ill-formed snapshot is refused; one whose request ID is on record is answered from there, or refused if its
      content differs; any other is applied, in the coverage it names, which is a window by default. */
  lemma {:induction false} IngestAnswers(l: Ledger, raw: Snapshot)
    ensures var (u, r) := IngestLocked(l, raw);
            var found := FindReplay(l.replays, TrimSpace(raw.request));
            if IllSnapshot(raw) then r == Err(Invalid) && u == l
            else if found.Some? then
              u == l && r == if MarkOf(Normalize(raw)) == found.value.mark
                             then Ok(found.value.report.(replayed := true))
                             else Err(IngestMismatch)
            else
              && r.Ok? && !r.value.replayed && u.index == Apply(l.index, Normalize(raw))
              && Normalize(raw).coverage
                 == if IsLower("complete", TrimSpace(raw.coverage)) then COMPLETE else WINDOW
  {
    IllSnapshotIs(raw);
    CoverageIs(raw.coverage);
  }
}
