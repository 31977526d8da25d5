/** Ingestion with replay records, and the staging tables of multi-page host collections. Every operation is one
    all-or-nothing transaction: an error leaves the ledger as it was. */
module TaskLedger {
  import opened Basics
  import opened TaskIndex

  const MAX_INGEST_REPLAYS: nat := 5000
  const MAX_OPEN: nat := 1000
  const MAX_PAGES: nat := 1000
  const MAX_COLLECTION_REPLAYS: nat := 1000
  const STALE_AGE: int := 7 * 24 * 3600 * 1_000_000_000
  const SOURCE := "codex.list_threads"

  datatype Failure =
    | Invalid | IngestMismatch | NotFound | TooManyOpen | PageMismatch | Finalized | NotContiguous | FirstCursor
    | AfterTerminal | WrongCursor | RepeatedCursor | TooManyTasks | DuplicateThread | FinishMismatch | BrokenStaging
      | NotTerminal

  datatype Outcome<T> = Ok(value: T) | Err(error: Failure)

  // ---- ingest reports ----

  datatype Counts = Counts(inserted: nat, updated: nat, stale: nat)

  datatype Report = Report(request: string, host: string, source: string, at: int, coverage: string, observed: nat,
                           counts: Counts, missing: nat, replayed: bool)

  /** What the ingest fingerprint covers; the digest of the sorted list is taken to be injective. */
  datatype Mark = Mark(request: string, host: string, source: string, at: int, coverage: string,
                       tasks: set<Observation>)

  datatype Replay = Replay(request: string, mark: Mark, report: Report)

  function MarkOf(s: Snapshot): Mark {
    Mark(s.request, s.host, s.source, s.at, s.coverage, set o | o in s.tasks)
  }

  function CountOne(existing: Option<Task>, s: Snapshot, o: Observation): Counts {
    if existing.None? then Counts(1, 0, 0)
    else if Older(existing.value.state, StampOf(s)) then Counts(0, 1, 0)
    else Counts(0, if Classify(existing.value, s, o.classification) != existing.value then 1 else 0, 1)
  }

  function Tally(x: Index, s: Snapshot, n: nat): Counts
    requires n <= |s.tasks|
  {
    if n == 0 then Counts(0, 0, 0)
    else
      var a, b := Tally(x, s, n - 1), CountOne(Lookup(x, (s.host, s.tasks[n - 1].thread)), s, s.tasks[n - 1]);
      Counts(a.inserted + b.inserted, a.updated + b.updated, a.stale + b.stale)
  }

  /** Live tasks of the source that a complete snapshot newly finds missing. */
  function NewlyMissing(x: Index, s: Snapshot): set<(string, string)> {
    set k | k in x && s.coverage == COMPLETE && k.0 == s.host && Observed(s.tasks, k.1).None? && Absents(x[k], s)
      && x[k].missing.None?
  }

  function ReportOf(x: Index, s: Snapshot): Report {
    Report(s.request, s.host, s.source, s.at, s.coverage, |s.tasks|, Tally(x, s, |s.tasks|), |NewlyMissing(x, s)|,
      false)
  }

  // ---- collections ----

  type Key = (string, string)

  datatype HostTask = HostTask(thread: string, title: string, cwd: string, project: string, status: string,
                               unread: bool,
                               created: int, updated: int, waitCursor: Option<string>, tombstoned: bool,
                               coordinator: Option<bool>)

  datatype PageRequest = PageRequest(host: string, observation: string, page: int, cursor: string, next: string,
                                     at: int, tasks: seq<HostTask>)

  datatype PageMark = PageMark(cursor: string, next: string, tasks: set<HostTask>)

  datatype Page = Page(cursor: string, next: string, mark: PageMark, tasks: seq<HostTask>)

  datatype PageResult = PageResult(page: int, tasks: nat, at: int, replayed: bool)

  datatype FinishResult = FinishResult(pages: nat, report: Report, replayed: bool)

  datatype Finish = Finish(coverage: string, result: FinishResult, at: int)

  datatype Manifest = Manifest(at: int, pageCount: nat, taskCount: nat, created: int, row: nat, finish: Option<Finish>)

  datatype Ledger = Ledger(index: Index, replays: seq<Replay>, collections: map<Key, Manifest>,
                           pages: map<(Key, int), Page>, nextRow: nat)

  const EMPTY_LEDGER := Ledger(map[], [], map[], map[], 0)

  function FromHost(t: HostTask): Observation {
    Observation(t.thread, t.title, "", t.cwd, t.project, t.status, t.unread, t.created, t.updated, t.waitCursor,
      t.tombstoned, t.coordinator, None)
  }

  function FromHosts(ts: seq<HostTask>): (os: seq<Observation>)
    ensures |os| == |ts| && forall i :: 0 <= i < |ts| ==> os[i] == FromHost(ts[i])
  {
    seq(|ts|, i requires 0 <= i < |ts| => FromHost(ts[i]))
  }

  function NormalHost(t: HostTask): HostTask {
    t.(thread := TrimSpace(t.thread), title := TrimSpace(t.title), cwd := TrimSpace(t.cwd),
      project := TrimSpace(t.project), status := TrimSpace(t.status))
  }

  function NormalPage(r: PageRequest): PageRequest {
    r.(host := TrimSpace(r.host), observation := TrimSpace(r.observation),
       tasks := seq(|r.tasks|, i requires 0 <= i < |r.tasks| => NormalHost(r.tasks[i])))
  }

  predicate ValidName(s: string) {
    s != "" && Utf8Len(s) <= 256
  }

  predicate ValidPage(r: PageRequest) {
    && ValidName(r.host) && ValidName(r.observation) && 1 <= r.page <= MAX_PAGES && r.at != 0
    && Utf8Len(r.cursor) <= 4096 && Utf8Len(r.next) <= 4096
    && ValidSnapshot(Snapshot(r.observation, r.host, SOURCE, r.at, WINDOW, FromHosts(r.tasks)))
  }

  function MarkOfPage(r: PageRequest): PageMark {
    PageMark(r.cursor, r.next, set t | t in r.tasks)
  }

  // ---- ingest ----

  function FindReplay(rs: seq<Replay>, request: string): Option<Replay> {
    if rs == [] then None else if rs[0].request == request then Some(rs[0]) else FindReplay(rs[1..], request)
  }

  /** Keep the newest records. */
  function PruneReplays(rs: seq<Replay>, retain: nat): seq<Replay> {
    if |rs| <= retain then rs else rs[|rs| - retain..]
  }

  function IngestLocked(l: Ledger, raw: Snapshot): (Ledger, Outcome<Report>) {
    IngestNormal(l, Normalize(raw))
  }

  function IngestNormal(l: Ledger, s: Snapshot): (Ledger, Outcome<Report>) {
    if !ValidSnapshot(s) then (l, Err(Invalid))
    else match FindReplay(l.replays, s.request)
         case Some(r) => (l, if r.mark != MarkOf(s) then Err(IngestMismatch) else Ok(r.report.(replayed := true)))
         case None =>
           var report := ReportOf(l.index, s);
           (l.(index := Apply(l.index, s),
             replays := PruneReplays(l.replays + [Replay(s.request, MarkOf(s), report)], MAX_INGEST_REPLAYS)),
               Ok(report))
  }

  // ---- staging a page ----

  /** Deleting collections takes their pages along. */
  function Without(l: Ledger, gone: set<Key>): Ledger {
    l.(collections := map k | k in l.collections && k !in gone :: l.collections[k],
       pages := map p | p in l.pages && p.0 !in gone :: l.pages[p])
  }

  function Stale(l: Ledger, now: int): set<Key> {
    set k | k in l.collections && l.collections[k].finish.None? && l.collections[k].created < now - STALE_AGE
  }

  function Open(l: Ledger): set<Key> {
    set k | k in l.collections && l.collections[k].finish.None?
  }

  predicate CursorUsed(l: Ledger, key: Key, cursor: string) {
    exists p :: p in l.pages && p.0 == key && (l.pages[p].cursor == cursor || l.pages[p].next == cursor)
  }

  predicate Staged(l: Ledger, key: Key, thread: string) {
    exists p :: p in l.pages && p.0 == key
      && exists i :: 0 <= i < |l.pages[p].tasks| && l.pages[p].tasks[i].thread == thread
  }

  /** Checks on the place of a page that is not stored yet, in order. */
  function SequenceError(l: Ledger, key: Key, r: PageRequest): Option<Failure>
    requires key in l.collections
  {
    var m := l.collections[key];
    if m.finish.Some? then Some(Finalized)
    else if r.page != m.pageCount + 1 then Some(NotContiguous)
    else if r.page == 1 then if r.cursor != "" then Some(FirstCursor) else None
    else if (key, r.page - 1) !in l.pages then Some(BrokenStaging)
    else if l.pages[(key, r.page - 1)].next == "" then Some(AfterTerminal)
    else if l.pages[(key, r.page - 1)].next != r.cursor then Some(WrongCursor)
    else None
  }

  /** ... and then on its content. */
  function ContentError(l: Ledger, key: Key, r: PageRequest): Option<Failure>
    requires key in l.collections
  {
    if r.next != "" && (CursorUsed(l, key, r.next) || r.next == r.cursor) then Some(RepeatedCursor)
    else if l.collections[key].taskCount + |r.tasks| > MAX_TASKS then Some(TooManyTasks)
    else if exists i :: 0 <= i < |r.tasks| && Staged(l, key, r.tasks[i].thread) then Some(DuplicateThread)
    else None
  }

  function PageError(l: Ledger, key: Key, r: PageRequest): Option<Failure>
    requires key in l.collections
  {
    if SequenceError(l, key, r).Some? then SequenceError(l, key, r) else ContentError(l, key, r)
  }

  function InsertPage(l: Ledger, key: Key, r: PageRequest): Ledger
    requires key in l.collections
  {
    var m := l.collections[key];
    l.(pages := l.pages[(key, r.page) := Page(r.cursor, r.next, MarkOfPage(r), r.tasks)],
       collections := l.collections[key := m.(pageCount := m.pageCount + 1, taskCount := m.taskCount + |r.tasks|)])
  }

  function StagePage(l: Ledger, key: Key, r: PageRequest): (Ledger, Outcome<PageResult>)
    requires key in l.collections
  {
    var result := PageResult(r.page, |r.tasks|, l.collections[key].at, false);
    if (key, r.page) in l.pages then
      (l, if l.pages[(key, r.page)].mark != MarkOfPage(r) then Err(PageMismatch) else Ok(result.(replayed := true)))
    else match PageError(l, key, r)
         case Some(e) => (l, Err(e))
         case None => (InsertPage(l, key, r), Ok(result))
  }

  /** A collection without pages. */
  function Opened(l: Ledger, key: Key, at: int, now: int): Ledger {
    l.(collections := l.collections[key := Manifest(at, 0, 0, now, l.nextRow, None)], nextRow := l.nextRow + 1)
  }

  function NewCollection(l: Ledger, key: Key, at: int, now: int): Ledger {
    Opened(Without(l, Stale(l, now)), key, at, now)
  }

  function AddPage(l: Ledger, raw: PageRequest, now: int): (Ledger, Outcome<PageResult>) {
    var r := NormalPage(raw);
    var key := (r.host, r.observation);
    if !ValidPage(r) then (l, Err(Invalid))
    else if key in l.collections then StagePage(l, key, r)
    else if r.page != 1 then (l, Err(NotFound))
    else if |Open(Without(l, Stale(l, now)))| >= MAX_OPEN then (l, Err(TooManyOpen))
    else
      var staged := StagePage(NewCollection(l, key, r.at, now), key, r);
      if staged.1.Ok? then staged else (l, staged.1)
  }

  // ---- finishing ----

  /** The staged observations of the first n pages, in page order. */
  function Union(l: Ledger, key: Key, n: nat): seq<Observation> {
    if n == 0 then []
    else Union(l, key, n - 1) + (if (key, n) in l.pages then FromHosts(l.pages[(key, n)].tasks) else [])
  }

  predicate Chained(l: Ledger, key: Key, n: int) {
    (key, n) in l.pages && (if n == 1 then l.pages[(key, n)].cursor == ""
                            else (key, n - 1) in l.pages && l.pages[(key, n)].cursor == l.pages[(key, n - 1)].next)
  }

  /** Reading the pages back in order finds them numbered without a gap, linked, and as many as the manifest says. */
  predicate ReadsBack(l: Ledger, key: Key)
    requires key in l.collections
  {
    var m := l.collections[key];
    && (forall p :: p in l.pages && p.0 == key ==> 1 <= p.1 <= m.pageCount)
    && (forall n :: 1 <= n <= m.pageCount ==> Chained(l, key, n))
    && |Union(l, key, m.pageCount)| == m.taskCount
  }

  function IngestId(sha: string -> string, key: Key): string {
    "codex-collection-" + sha(key.0 + ['\0'] + key.1)
  }

  function Published(l: Ledger, sha: string -> string, key: Key, coverage: string): Snapshot
    requires key in l.collections
  {
    var m := l.collections[key];
    Snapshot(IngestId(sha, key), key.0, SOURCE, m.at, coverage, Union(l, key, m.pageCount))
  }

  /** Finalised collections finished after this one (ties broken by row). */
  function FinishedAfter(l: Ledger, key: Key): set<Key>
    requires key in l.collections && l.collections[key].finish.Some?
  {
    var m := l.collections[key];
    set k | k in l.collections && l.collections[k].finish.Some?
            && (l.collections[k].finish.value.at > m.finish.value.at
                || (l.collections[k].finish.value.at == m.finish.value.at && l.collections[k].row > m.row))
  }

  function Forgotten(l: Ledger, retain: nat): set<Key> {
    set k | k in l.collections && l.collections[k].finish.Some? && |FinishedAfter(l, k)| >= retain
  }

  /** Record the finish and drop the page payloads; page fingerprints stay for replays. */
  function Closed(l: Ledger, key: Key, f: Finish): Ledger
    requires key in l.collections
  {
    l.(collections := l.collections[key := l.collections[key].(finish := Some(f))],
       pages := map p | p in l.pages :: if p.0 == key then l.pages[p].(tasks := []) else l.pages[p])
  }

  /** ... and forget the oldest finished collections. */
  function Close(l: Ledger, key: Key, f: Finish): Ledger
    requires key in l.collections
  {
    Without(Closed(l, key, f), Forgotten(Closed(l, key, f), MAX_COLLECTION_REPLAYS))
  }

  function LastCursor(l: Ledger, key: Key): string
    requires key in l.collections
  {
    var n := l.collections[key].pageCount;
    if (key, n) in l.pages then l.pages[(key, n)].next else ""
  }

  function NormalFinish(coverage: string): string {
    var c := TrimSpace(coverage);
    seq(|c|, i requires 0 <= i < |c| => Lower(c[i]))
  }

  function FinishCollection(l: Ledger, sha: string -> string, host: string, observation: string, rawCoverage: string,
          now: int)
    : (Ledger, Outcome<FinishResult>)
  {
    var key, coverage := (TrimSpace(host), TrimSpace(observation)), NormalFinish(rawCoverage);
    if !ValidName(key.0) || !ValidName(key.1) || coverage !in {WINDOW, COMPLETE} then (l, Err(Invalid))
    else if key !in l.collections then (l, Err(NotFound))
    else FinishKnown(l, sha, key, coverage, now)
  }

  function FinishKnown(l: Ledger, sha: string -> string, key: Key, coverage: string, now: int)
    : (Ledger, Outcome<FinishResult>)
    requires key in l.collections
  {
    var m := l.collections[key];
    if m.finish.Some? then
      (l, if m.finish.value.coverage != coverage then Err(FinishMismatch)
          else Ok(m.finish.value.result.(replayed := true)))
    else if m.pageCount < 1 || !ReadsBack(l, key) then (l, Err(BrokenStaging))
    else if coverage == COMPLETE && LastCursor(l, key) != "" then (l, Err(NotTerminal))
    else Conclude(l, key, Published(l, sha, key, coverage), now)
  }

  /** Publish the union and close the collection, or change nothing. */
  function Conclude(l: Ledger, key: Key, union: Snapshot, now: int): (Ledger, Outcome<FinishResult>)
    requires key in l.collections
  {
    var ingested := IngestLocked(l, union);
    match ingested.1
    case Err(e) => (l, Err(e))
    case Ok(report) =>
      var result := FinishResult(l.collections[key].pageCount, report, false);
      (Close(ingested.0, key, Finish(union.coverage, result, now)), Ok(result))
  }
}
