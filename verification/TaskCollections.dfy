/** A finished collection is one ingest of the union of its pages, however it was split, retried or interrupted. */
module TaskCollections {
  import opened Basics
  import opened TaskIndex
  import opened TaskLedger
  import opened TaskStaging

  // ---- the published snapshot is already normal and valid ----

  /** A digest function: 64 lower-case hexadecimal characters. */
  ghost predicate IsDigest(sha: string -> string) {
    forall x :: |sha(x)| == 64 && forall i :: 0 <= i < 64 ==> IsHex(sha(x)[i])
  }

  const PREFIX := "codex-collection-"

  lemma {:induction false} IngestIdIsName(sha: string -> string, key: Key)
    requires IsDigest(sha)
    ensures NameOk(IngestId(sha, key))
  {
    var d := sha(key.0 + ['\0'] + key.1);
    var s := IngestId(sha, key);
    assert s == PREFIX + d && |PREFIX| == 17;
    assert IsAscii(PREFIX);
    AsciiLen(s);
    assert s[0] == 'c' && s[|s| - 1] == d[63];
    TrimmedStays(s);
  }

  lemma {:induction false} SourceIsName()
    ensures NameOk(SOURCE)
  {
    AsciiLen(SOURCE);
    TrimmedStays(SOURCE);
  }

  lemma {:induction false} CoverageStays(coverage: string)
    requires coverage in {WINDOW, COMPLETE}
    ensures NormalCoverage(coverage) == coverage
  {
    TrimmedStays(coverage);
    forall i | 0 <= i < |coverage| ensures Lower(coverage[i]) == coverage[i] {
    }
    assert seq(|coverage|, i requires 0 <= i < |coverage| => Lower(coverage[i])) == coverage;
  }

  lemma {:induction false} PublishedIsValid(l: Ledger, sha: string -> string, key: Key, coverage: string)
    requires IsDigest(sha) && key in l.collections && ColOk(l, key) && l.collections[key].finish.None?
    requires coverage in {WINDOW, COMPLETE}
    ensures Normalize(Published(l, sha, key, coverage)) == Published(l, sha, key, coverage)
    ensures ValidSnapshot(Published(l, sha, key, coverage))
  {
    IngestIdIsName(sha, key);
    SourceIsName();
    CoverageStays(coverage);
    var p := Published(l, sha, key, coverage);
    assert NormalTasks(p.tasks) == p.tasks by {
      forall i | 0 <= i < |p.tasks| ensures NormalObservation(p.tasks[i]) == p.tasks[i] { assert Clean(p.tasks[i]); }
    }
    forall i | 0 <= i < |p.tasks| ensures ValidObservation(p.tasks[i]) { assert Clean(p.tasks[i]); }
  }

  // ---- finishing ----

  lemma {:induction false} StagingReadsBack(l: Ledger, key: Key)
    requires key in l.collections && ColOk(l, key) && l.collections[key].finish.None?
    ensures ReadsBack(l, key)
  {
    forall p | p in l.pages && p.0 == key ensures 1 <= p.1 <= l.collections[key].pageCount {
      assert (key, p.1) in l.pages;
    }
  }

  predicate IngestFresh(l: Ledger, sha: string -> string, key: Key) {
    FindReplay(l.replays, IngestId(sha, key)).None?
  }

  /** The replay table has nothing against this snapshot. */
  predicate IngestAccepts(l: Ledger, s: Snapshot) {
    var r := FindReplay(l.replays, s.request);
    r.None? || r.value.mark == MarkOf(s)
  }

  lemma {:induction false} FinishArguments(key: Key, coverage: string)
    requires NameOk(key.0) && NameOk(key.1) && coverage in {WINDOW, COMPLETE}
    ensures (TrimSpace(key.0), TrimSpace(key.1)) == key && NormalFinish(coverage) == coverage
  {
    TrimmedStays(coverage);
    CoverageStays(coverage);
    assert TrimSpace(coverage) == coverage;
  }

  predicate Finishable(l: Ledger, key: Key, coverage: string)
    requires key in l.collections
  {
    && l.collections[key].finish.None? && l.collections[key].pageCount >= 1 && ReadsBack(l, key)
    && (coverage == COMPLETE ==> LastCursor(l, key) == "")
  }

  lemma {:induction false} FinishKnownConcludes(l: Ledger, sha: string -> string, key: Key, coverage: string, now: int)
    requires key in l.collections && Finishable(l, key, coverage)
    ensures FinishKnown(l, sha, key, coverage, now) == Conclude(l, key, Published(l, sha, key, coverage), now)
  {
  }

  lemma {:induction false} FinishKnownRefuses(l: Ledger, sha: string -> string, key: Key, coverage: string, now: int)
    requires key in l.collections && !Finishable(l, key, coverage)
    ensures FinishKnown(l, sha, key, coverage, now).0 == l
  {
  }

  /** With every re-check of the staged pages passing, what is left is the terminal cursor and the ingest itself. */
  lemma {:induction false} FinishIs(l: Ledger, sha: string -> string, key: Key, coverage: string, now: int)
    requires StagingInv(l) && key in l.collections && l.collections[key].finish.None? && coverage in {WINDOW, COMPLETE}
    ensures FinishCollection(l, sha, key.0, key.1, coverage, now) ==
            if coverage == COMPLETE && LastCursor(l, key) != "" then (l, Err(NotTerminal))
            else Conclude(l, key, Published(l, sha, key, coverage), now)
  {
    assert ColOk(l, key);
    FinishArguments(key, coverage);
    StagingReadsBack(l, key);
  }

  lemma {:induction false} ConcludeIs(l: Ledger, key: Key, union: Snapshot, now: int)
    requires key in l.collections && Normalize(union) == union && ValidSnapshot(union)
    ensures Conclude(l, key, union, now).1.Ok? <==> IngestAccepts(l, union)
    ensures FindReplay(l.replays, union.request).None? ==>
              var (after, result) := Conclude(l, key, union, now);
              && result == Ok(FinishResult(l.collections[key].pageCount, ReportOf(l.index, union), false))
              && after.index == Apply(l.index, union) && after.replays == IngestNormal(l, union).0.replays
  {
  }

  /** Finishing an open collection succeeds exactly when a complete one has reached its terminal page and its ingest
      ID was not used for anything else: every re-check of the staged pages passes. */
  lemma {:induction false} FinishSucceedsIff(l: Ledger, sha: string -> string, key: Key, coverage: string, now: int)
    requires StagingInv(l) && IsDigest(sha) && key in l.collections && l.collections[key].finish.None?
    requires coverage in {WINDOW, COMPLETE}
    ensures FinishCollection(l, sha, key.0, key.1, coverage, now).1.Ok? <==>
              (coverage == COMPLETE ==> LastCursor(l, key) == "") && IngestAccepts(l, Published(l, sha, key, coverage))
  {
    assert ColOk(l, key);
    FinishIs(l, sha, key, coverage, now);
    PublishedIsValid(l, sha, key, coverage);
    ConcludeIs(l, key, Published(l, sha, key, coverage), now);
  }

  /** ... and then the index is what one direct ingest of the union makes of it. */
  lemma {:induction false} FinishIsOneIngest(l: Ledger, sha: string -> string, key: Key, coverage: string, now: int)
    requires StagingInv(l) && IsDigest(sha) && key in l.collections && l.collections[key].finish.None?
    requires coverage in {WINDOW, COMPLETE}
    requires IngestFresh(l, sha, key) && (coverage == COMPLETE ==> LastCursor(l, key) == "")
    ensures var (after, result) := FinishCollection(l, sha, key.0, key.1, coverage, now);
            var union := Published(l, sha, key, coverage);
            && result == Ok(FinishResult(l.collections[key].pageCount, ReportOf(l.index, union), false))
            && after.index == Apply(l.index, union)
    ensures DirectlyIngested(l, Published(l, sha, key, coverage),
            FinishCollection(l, sha, key.0, key.1, coverage, now).0)
  {
    assert ColOk(l, key);
    FinishIs(l, sha, key, coverage, now);
    PublishedIsValid(l, sha, key, coverage);
    ConcludeIs(l, key, Published(l, sha, key, coverage), now);
    IngestIs(l, Published(l, sha, key, coverage));
  }

  /** Ingesting the snapshot directly leads to the same index and the same replay records. */
  predicate DirectlyIngested(l: Ledger, s: Snapshot, after: Ledger) {
    IngestLocked(l, s).1 == Ok(ReportOf(l.index, s)) && IngestLocked(l, s).0.index == after.index
      && IngestLocked(l, s).0.replays == after.replays
  }

  lemma {:induction false} IngestIs(l: Ledger, s: Snapshot)
    requires Normalize(s) == s && ValidSnapshot(s) && FindReplay(l.replays, s.request).None?
    ensures IngestLocked(l, s) == IngestNormal(l, s) && IngestNormal(l, s).1 == Ok(ReportOf(l.index, s))
    ensures IngestNormal(l, s).0.index == Apply(l.index, s)
  {
  }

  /** Two ledgers with the same index stage the same observations in any two ways: they publish the same index. */
  lemma {:induction false} SplitIsIrrelevant(l: Ledger, u: Ledger, sha: string -> string, key: Key, coverage: string,
          now1: int, now2: int)
    requires StagingInv(l) && StagingInv(u) && IsDigest(sha) && key in l.collections && key in u.collections
    requires l.index == u.index
    requires l.collections[key].finish.None? && u.collections[key].finish.None?
    requires l.collections[key].at == u.collections[key].at
    requires coverage in {WINDOW, COMPLETE} && IngestFresh(l, sha, key) && IngestFresh(u, sha, key)
    requires coverage == COMPLETE ==> LastCursor(l, key) == LastCursor(u, key) == ""
    requires forall o :: o in Published(l, sha, key, coverage).tasks <==> o in Published(u, sha, key, coverage).tasks
    ensures FinishCollection(l, sha, key.0, key.1, coverage, now1).0.index
            == FinishCollection(u, sha, key.0, key.1, coverage, now2).0.index
  {
    FinishIsOneIngest(l, sha, key, coverage, now1);
    FinishIsOneIngest(u, sha, key, coverage, now2);
    assert ColOk(l, key) && ColOk(u, key);
    OrderIsIrrelevant(l.index, Published(l, sha, key, coverage), Published(u, sha, key, coverage));
  }

  // ---- finishing keeps the invariant ----

  lemma {:induction false} SameStaging(l: Ledger, u: Ledger)
    requires StagingInv(l) && u.collections == l.collections && u.pages == l.pages
    ensures StagingInv(u)
  {
    forall k | k in u.collections ensures ColOk(u, k) && u.collections[k].pageCount >= 1 { ColSame(l, u, k); }
  }

  lemma {:induction false} IngestLeavesStaging(l: Ledger, s: Snapshot)
    ensures IngestLocked(l, s).0.collections == l.collections && IngestLocked(l, s).0.pages == l.pages
  {
  }

  lemma {:induction false} IngestKeepsInv(l: Ledger, s: Snapshot)
    requires StagingInv(l)
    ensures StagingInv(IngestLocked(l, s).0)
  {
    IngestLeavesStaging(l, s);
    SameStaging(l, IngestLocked(l, s).0);
  }

  lemma {:induction false} ClosedKeepsLinks(l: Ledger, key: Key, f: Finish)
    requires key in l.collections && ColOk(l, key)
    ensures ColOk(Closed(l, key, f), key)
  {
    var u := Closed(l, key, f);
    forall n | 1 <= n <= u.collections[key].pageCount ensures Chained(u, key, n) {
      assert Chained(l, key, n);
    }
    assert forall n :: (key, n) in l.pages <==> (key, n) in u.pages;
  }

  lemma {:induction false} CloseKeepsInv(l: Ledger, key: Key, f: Finish)
    requires StagingInv(l) && key in l.collections
    ensures StagingInv(Close(l, key, f))
  {
    var u := Closed(l, key, f);
    ClosedKeepsLinks(l, key, f);
    forall k | k in u.collections ensures ColOk(u, k) && u.collections[k].pageCount >= 1 {
      if k != key { ColSame(l, u, k); }
    }
    WithoutKeepsInv(u, Forgotten(u, MAX_COLLECTION_REPLAYS));
  }

  lemma {:induction false} ConcludeKeepsInv(l: Ledger, key: Key, union: Snapshot, now: int)
    requires StagingInv(l) && key in l.collections
    ensures StagingInv(Conclude(l, key, union, now).0)
  {
    var ingested := IngestLocked(l, union);
    IngestLeavesStaging(l, union);
    if ingested.1.Ok? {
      SameStaging(l, ingested.0);
      CloseKeepsInv(ingested.0, key,
        Finish(union.coverage, FinishResult(l.collections[key].pageCount, ingested.1.value, false), now));
    }
  }

  lemma {:induction false} FinishKnownKeepsInv(l: Ledger, sha: string -> string, key: Key, coverage: string, now: int)
    requires StagingInv(l) && key in l.collections
    ensures StagingInv(FinishKnown(l, sha, key, coverage, now).0)
  {
    if Finishable(l, key, coverage) {
      FinishKnownConcludes(l, sha, key, coverage, now);
      ConcludeKeepsInv(l, key, Published(l, sha, key, coverage), now);
    } else {
      FinishKnownRefuses(l, sha, key, coverage, now);
    }
  }

  lemma {:induction false} FinishKeepsInv(l: Ledger, sha: string -> string, host: string, observation: string,
          coverage: string, now: int)
    requires StagingInv(l)
    ensures StagingInv(FinishCollection(l, sha, host, observation, coverage, now).0)
  {
    var key := (TrimSpace(host), TrimSpace(observation));
    if key in l.collections { FinishKnownKeepsInv(l, sha, key, NormalFinish(coverage), now); }
  }

  // ---- every history ----

  datatype Op =
    | Add(page: PageRequest, now: int)
    | FinishOp(host: string, observation: string, coverage: string, now: int)
    | Ingest(snapshot: Snapshot)

  function Do(l: Ledger, sha: string -> string, op: Op): Ledger {
    match op
    case Add(page, now) => AddPage(l, page, now).0
    case FinishOp(h, o, c, now) => FinishCollection(l, sha, h, o, c, now).0
    case Ingest(s) => IngestLocked(l, s).0
  }

  /** Any uploads, retries, rejected pages, finishes and direct ingests, one after the other, from an empty store. */
  ghost predicate IsHistory(sha: string -> string, ls: seq<Ledger>, ops: seq<Op>) {
    && |ls| == |ops| + 1 && ls[0] == EMPTY_LEDGER
    && forall i {:trigger ops[i]} :: 0 <= i < |ops| ==> ls[i + 1] == Do(ls[i], sha, ops[i])
  }

  lemma {:induction false} DoKeepsInv(l: Ledger, sha: string -> string, op: Op)
    requires StagingInv(l)
    ensures StagingInv(Do(l, sha, op))
  {
    match op
    case Add(page, now) => AddPageKeepsInv(l, page, now);
    case FinishOp(h, o, c, now) => FinishKeepsInv(l, sha, h, o, c, now);
    case Ingest(s) => IngestKeepsInv(l, s);
  }

  lemma {:induction false} HistoryKeepsInv(sha: string -> string, ls: seq<Ledger>, ops: seq<Op>, n: nat)
    requires IsHistory(sha, ls, ops) && n < |ls|
    ensures StagingInv(ls[n])
  {
    if n > 0 {
      HistoryKeepsInv(sha, ls, ops, n - 1);
      DoKeepsInv(ls[n - 1], sha, ops[n - 1]);
    }
  }

  /** At any time, an open collection whose ingest ID is not taken publishes, in one transaction, exactly what one
      ingest of its union would - or is refused for want of a terminal page, without effect. */
  lemma {:induction false} CollectionRefinesIngest(sha: string -> string, ls: seq<Ledger>, ops: seq<Op>, n: nat,
          key: Key, coverage: string, now: int)
    requires IsDigest(sha) && IsHistory(sha, ls, ops) && n < |ls| && coverage in {WINDOW, COMPLETE}
    requires key in ls[n].collections && ls[n].collections[key].finish.None? && IngestFresh(ls[n], sha, key)
    ensures var l := ls[n];
            var (after, result) := FinishCollection(l, sha, key.0, key.1, coverage, now);
            if coverage == COMPLETE && LastCursor(l, key) != "" then after == l && result == Err(NotTerminal)
            else result.Ok? && after.index == Apply(l.index, Published(l, sha, key, coverage))
                 && result.value.report == ReportOf(l.index, Published(l, sha, key, coverage))
  {
    HistoryKeepsInv(sha, ls, ops, n);
    if coverage == COMPLETE && LastCursor(ls[n], key) != "" {
      FinishIs(ls[n], sha, key, coverage, now);
    } else {
      FinishIsOneIngest(ls[n], sha, key, coverage, now);
    }
  }

  // ---- retries ----

  /** This page, with this content, is part of its collection. */
  predicate Stored(l: Ledger, raw: PageRequest) {
    var r := NormalPage(raw);
    var key := (r.host, r.observation);
    key in l.collections && (key, r.page) in l.pages && l.pages[(key, r.page)].mark == MarkOfPage(r)
  }

  function KeyOf(raw: PageRequest): Key {
    (TrimSpace(raw.host), TrimSpace(raw.observation))
  }

  /** A well-formed page is accepted exactly when it is then part of its collection; any other is refused. */
  lemma {:induction false} AcceptedIffStored(l: Ledger, raw: PageRequest, now: int)
    ensures AddPage(l, raw, now).1.Ok? <==> ValidPage(NormalPage(raw)) && Stored(AddPage(l, raw, now).0, raw)
  {
    AddRefusedKeeps(l, raw, now);
    if AddPage(l, raw, now).1.Ok? { AddPageIs(l, raw, now); }
  }

  lemma {:induction false} StoredReplays(l: Ledger, raw: PageRequest, now: int)
    requires Stored(l, raw) && ValidPage(NormalPage(raw))
    ensures AddPage(l, raw, now) == (l, Ok(PageResult(raw.page, |raw.tasks|, l.collections[KeyOf(raw)].at, true)))
  {
  }

  /** What a later step may do to a stored page: nothing, unless its collection is forgotten; a collection begun anew
      under the same name is a different row. */
  ghost predicate Carries(l: Ledger, u: Ledger, key: Key, page: int)
    requires key in l.collections && (key, page) in l.pages
  {
    key in u.collections && u.collections[key].row == l.collections[key].row ==>
      && u.collections[key].at == l.collections[key].at
      && (key, page) in u.pages && u.pages[(key, page)].mark == l.pages[(key, page)].mark
  }

  ghost predicate RowsOk(l: Ledger) {
    forall k :: k in l.collections ==> l.collections[k].row < l.nextRow
  }

  /** Rows are never handed out twice, and a row that is gone stays gone. */
  ghost predicate RowsMoveOn(l: Ledger, u: Ledger) {
    && l.nextRow <= u.nextRow
    && forall k :: k in u.collections ==>
         u.collections[k].row < u.nextRow
         && (u.collections[k].row >= l.nextRow || (k in l.collections && l.collections[k].row == u.collections[k].row))
  }

  lemma {:induction false} StageMovesOn(l: Ledger, key: Key, r: PageRequest, other: Key, page: int)
    requires RowsOk(l) && key in l.collections
    ensures RowsMoveOn(l, StagePage(l, key, r).0)
    ensures other in l.collections && (other, page) in l.pages ==> Carries(l, StagePage(l, key, r).0, other, page)
  {
  }

  lemma {:induction false} NewMovesOn(l: Ledger, key: Key, at: int, now: int, other: Key, page: int)
    requires RowsOk(l) && key !in l.collections
    ensures RowsMoveOn(l, NewCollection(l, key, at, now)) && RowsOk(NewCollection(l, key, at, now))
    ensures other in l.collections && (other, page) in l.pages ==>
            Carries(l, NewCollection(l, key, at, now), other, page)
  {
  }

  lemma {:induction false} AddMovesOn(l: Ledger, raw: PageRequest, now: int, other: Key, page: int)
    requires RowsOk(l)
    ensures RowsMoveOn(l, AddPage(l, raw, now).0)
    ensures other in l.collections && (other, page) in l.pages ==> Carries(l, AddPage(l, raw, now).0, other, page)
  {
    AddRefusedKeeps(l, raw, now);
    if AddPage(l, raw, now).1.Ok? {
      AddPageIs(l, raw, now);
      var r := NormalPage(raw);
      var key := (r.host, r.observation);
      if key in l.collections {
        StageMovesOn(l, key, r, other, page);
      } else {
        NewMovesOn(l, key, r.at, now, other, page);
        StageMovesOn(NewCollection(l, key, r.at, now), key, r, other, page);
      }
    }
  }

  lemma {:induction false} CloseMovesOn(l: Ledger, key: Key, f: Finish, other: Key, page: int)
    requires RowsOk(l) && key in l.collections
    ensures RowsMoveOn(l, Close(l, key, f))
    ensures other in l.collections && (other, page) in l.pages ==> Carries(l, Close(l, key, f), other, page)
  {
  }

  lemma {:induction false} ConcludeMovesOn(l: Ledger, key: Key, union: Snapshot, now: int, other: Key, page: int)
    requires RowsOk(l) && key in l.collections
    ensures RowsMoveOn(l, Conclude(l, key, union, now).0)
    ensures other in l.collections && (other, page) in l.pages ==>
            Carries(l, Conclude(l, key, union, now).0, other, page)
  {
    var ingested := IngestLocked(l, union);
    IngestLeavesStaging(l, union);
    if ingested.1.Ok? {
      CloseMovesOn(ingested.0, key,
        Finish(union.coverage, FinishResult(l.collections[key].pageCount, ingested.1.value, false), now), other, page);
    }
  }

  lemma {:induction false} FinishMovesOn(l: Ledger, sha: string -> string, host: string, observation: string,
          coverage: string, now: int, other: Key, page: int)
    requires RowsOk(l)
    ensures RowsMoveOn(l, FinishCollection(l, sha, host, observation, coverage, now).0)
    ensures other in l.collections && (other, page) in l.pages ==>
            Carries(l, FinishCollection(l, sha, host, observation, coverage, now).0, other, page)
  {
    var key, c := (TrimSpace(host), TrimSpace(observation)), NormalFinish(coverage);
    if key in l.collections {
      if Finishable(l, key, c) {
        FinishKnownConcludes(l, sha, key, c, now);
        ConcludeMovesOn(l, key, Published(l, sha, key, c), now, other, page);
      } else {
        FinishKnownRefuses(l, sha, key, c, now);
      }
    }
  }

  lemma {:induction false} DoMovesOn(l: Ledger, sha: string -> string, op: Op, other: Key, page: int)
    requires RowsOk(l)
    ensures RowsMoveOn(l, Do(l, sha, op))
    ensures other in l.collections && (other, page) in l.pages ==> Carries(l, Do(l, sha, op), other, page)
  {
    match op
    case Add(p, now) => AddMovesOn(l, p, now, other, page);
    case FinishOp(h, o, c, now) => FinishMovesOn(l, sha, h, o, c, now, other, page);
    case Ingest(s) => IngestLeavesStaging(l, s);
  }

  lemma {:induction false} DoKeepsRows(l: Ledger, sha: string -> string, op: Op)
    requires RowsOk(l)
    ensures RowsOk(Do(l, sha, op))
  {
    DoMovesOn(l, sha, op, ("", ""), 0);
  }

  lemma {:induction false} HistoryKeepsRows(sha: string -> string, ls: seq<Ledger>, ops: seq<Op>, n: nat)
    requires IsHistory(sha, ls, ops) && n < |ls|
    ensures RowsOk(ls[n])
  {
    if n > 0 {
      HistoryKeepsRows(sha, ls, ops, n - 1);
      DoKeepsRows(ls[n - 1], sha, ops[n - 1]);
    }
  }

  /** One step of a history, without saying which. */
  lemma {:induction false} HistoryMovesOn(sha: string -> string, ls: seq<Ledger>, ops: seq<Op>, n: nat, key: Key,
          page: int)
    requires IsHistory(sha, ls, ops) && n + 1 < |ls|
    ensures RowsMoveOn(ls[n], ls[n + 1])
    ensures key in ls[n].collections && (key, page) in ls[n].pages ==> Carries(ls[n], ls[n + 1], key, page)
  {
    HistoryKeepsRows(sha, ls, ops, n);
    DoMovesOn(ls[n], sha, ops[n], key, page);
  }

  lemma {:induction false} CarriesOn(l: Ledger, m: Ledger, u: Ledger, key: Key, page: int)
    requires key in l.collections && (key, page) in l.pages && l.collections[key].row < m.nextRow
    requires Carries(l, m, key, page)
    requires RowsMoveOn(m, u) && (key in m.collections && (key, page) in m.pages ==> Carries(m, u, key, page))
    ensures Carries(l, u, key, page)
  {
  }

  lemma {:induction false} HistoryCarries(sha: string -> string, ls: seq<Ledger>, ops: seq<Op>, i: nat, j: nat,
          key: Key, page: int)
    requires IsHistory(sha, ls, ops) && i <= j < |ls| && key in ls[i].collections && (key, page) in ls[i].pages
    ensures ls[i].collections[key].row < ls[j].nextRow && Carries(ls[i], ls[j], key, page)
  {
    if i < j {
      HistoryCarries(sha, ls, ops, i, j - 1, key, page);
      HistoryMovesOn(sha, ls, ops, j - 1, key, page);
      CarriesOn(ls[i], ls[j - 1], ls[j], key, page);
    } else {
      HistoryKeepsRows(sha, ls, ops, i);
    }
  }

  /** A page that was once accepted is accepted again at any later time, as a replay without any change, finished or
      not, for as long as its collection is kept. */
  lemma {:induction false} AcceptedPageReplays(sha: string -> string, ls: seq<Ledger>, ops: seq<Op>, i: nat, j: nat,
          raw: PageRequest, now: int)
    requires IsHistory(sha, ls, ops) && i <= j < |ls| && Stored(ls[i], raw)
    requires KeyOf(raw) in ls[j].collections && ls[j].collections[KeyOf(raw)].row == ls[i].collections[KeyOf(raw)].row
    ensures ValidPage(NormalPage(raw)) ==>
              AddPage(ls[j], raw, now)
                == (ls[j], Ok(PageResult(raw.page, |raw.tasks|, ls[i].collections[KeyOf(raw)].at, true)))
  {
    HistoryCarries(sha, ls, ops, i, j, KeyOf(raw), raw.page);
    if ValidPage(NormalPage(raw)) { StoredReplays(ls[j], raw, now); }
  }

  // ---- resumption ----

  datatype Status = Status(pages: nat, tasks: nat, nextPage: Option<int>, nextCursor: string, coverage: Option<string>)

  function StatusOf(l: Ledger, key: Key): Outcome<Status> {
    if !ValidName(key.0) || !ValidName(key.1) then Err(Invalid)
    else if key !in l.collections then Err(NotFound)
    else
      var m := l.collections[key];
      Ok(Status(m.pageCount, m.taskCount, if m.finish.None? then Some(m.pageCount + 1) else None, LastCursor(l, key),
                if m.finish.Some? then Some(m.finish.value.coverage) else None))
  }

  lemma {:induction false} StatusIs(l: Ledger, key: Key)
    requires key in l.collections && ValidName(key.0) && ValidName(key.1)
    ensures StatusOf(l, key).Ok? && StatusOf(l, key).value.nextCursor == LastCursor(l, key)
    ensures StatusOf(l, key).value.nextPage == if l.collections[key].finish.None?
                                               then Some(l.collections[key].pageCount + 1) else None
  {
  }

  lemma {:induction false} NextPageIs(l: Ledger, key: Key, r: PageRequest)
    requires key in l.collections && PagesOk(l, key) && l.collections[key].pageCount >= 1
    ensures SequenceError(l, key, r).None? <==>
              (l.collections[key].finish.None? && r.page == l.collections[key].pageCount + 1
                && r.cursor == LastCursor(l, key) != "")
  {
    assert (key, l.collections[key].pageCount as int) in l.pages;
  }

  lemma {:induction false} Sound(l: Ledger, key: Key)
    requires StagingInv(l) && key in l.collections
    ensures PagesOk(l, key) && l.collections[key].pageCount >= 1 && ValidName(key.0) && ValidName(key.1)
  {
    assert ColOk(l, key);
  }

  /** Whenever a collection is interrupted, a page is in sequence iff it carries the page number and cursor that the
      status names and the last page was not terminal. Only its content can then be refused. */
  lemma {:induction false} StatusResumes(sha: string -> string, ls: seq<Ledger>, ops: seq<Op>, n: nat, key: Key,
          r: PageRequest)
    requires IsHistory(sha, ls, ops) && n < |ls| && key in ls[n].collections
    ensures StatusOf(ls[n], key).Ok?
    ensures var s := StatusOf(ls[n], key).value;
            SequenceError(ls[n], key, r).None? <==> (s.nextPage == Some(r.page) && r.cursor == s.nextCursor != "")
  {
    HistoryKeepsInv(sha, ls, ops, n);
    Sound(ls[n], key);
    NextPageIs(ls[n], key, r);
    StatusIs(ls[n], key);
  }
}
