/** The index of Codex tasks: one record per host and thread, merged from host snapshots by last writer wins. */
module TaskIndex {
  import opened Basics

  const MAX_TASKS: nat := 1000
  const WINDOW := "window"
  const COMPLETE := "complete"

  /** Time zero is Go's zero time. */
  datatype Summary = Summary(tier: string, outcome: string, unresolved: string, action: string, decision: string)

  datatype Classification = Classification(summary: Summary, at: int)

  datatype Observation = Observation(thread: string, title: string, description: string, cwd: string, project: string,
                                     status: string, unread: bool, created: int, updated: int,
                                     waitCursor: Option<string>,
                                     tombstoned: bool, coordinator: Option<bool>,
                                     classification: Option<Classification>)

  datatype Snapshot = Snapshot(request: string, host: string, source: string, at: int, coverage: string,
                               tasks: seq<Observation>)

  /** Who wrote a field, and when it was observed. */
  datatype Stamp = Stamp(at: int, id: string)

  /** `state` and `seen` are the stamps of the newest snapshot that judged the task and of the newest that listed it;
      an unclassified task carries the stamp NEVER. */
  datatype Task = Task(title: string, description: string, cwd: string, project: string, status: string, unread: bool,
                       coordinator: bool, summary: Summary, classified: Stamp, created: int, updated: int,
                       firstSeen: int,
                       seen: Stamp, state: Stamp, source: string, waitCursor: string, missing: Option<int>,
                       tombstoned: Option<int>)

  type Index = map<(string, string), Task>

  const NEVER := Stamp(0, "")
  const NO_SUMMARY := Summary("", "", "", "", "")

  // ---- the order of stamps ----

  predicate Older(a: Stamp, b: Stamp) {
    a.at < b.at || (a.at == b.at && Less(a.id, b.id))
  }

  predicate AtMost(a: Stamp, b: Stamp) {
    a == b || Older(a, b)
  }

  lemma {:induction false} OlderIsStrict(a: Stamp, b: Stamp, c: Stamp)
    ensures !Older(a, a) && !(Older(a, b) && Older(b, a))
    ensures Older(a, b) || a == b || Older(b, a)
    ensures Older(a, b) && Older(b, c) ==> Older(a, c)
  {
    LessIrreflexive(a.id);
    LessTotal(a.id, b.id);
    if a.at == b.at && Less(a.id, b.id) { LessAsymmetric(a.id, b.id); }
    if Older(a, b) && Older(b, c) && a.at == b.at == c.at { LessTransitive(a.id, b.id, c.id); }
  }

  // ---- normalisation and validation ----

  /** Lower case as far as the two coverage words can see it. */
  function Lower(c: char): char {
    if 'A' <= c <= 'Z' then c - 'A' + 'a' else if c == 0x130 as char then 'i' else c
  }

  function Upper(c: char): char {
    if 'a' <= c <= 'z' then c - 'a' + 'A' else c
  }

  function NormalClassification(c: Classification): Classification {
    var s := c.summary;
    var tier := TrimSpace(s.tier);
    Classification(Summary(seq(|tier|, i requires 0 <= i < |tier| => Upper(tier[i])), TrimSpace(s.outcome),
      TrimSpace(s.unresolved),
                           TrimSpace(s.action), TrimSpace(s.decision)), c.at)
  }

  function NormalObservation(o: Observation): Observation {
    o.(thread := TrimSpace(o.thread), title := TrimSpace(o.title), description := TrimSpace(o.description),
       cwd := TrimSpace(o.cwd), project := TrimSpace(o.project), status := TrimSpace(o.status),
       classification := if o.classification.Some? then Some(NormalClassification(o.classification.value)) else None)
  }

  function NormalCoverage(coverage: string): string {
    var c := TrimSpace(coverage);
    var lowered := seq(|c|, i requires 0 <= i < |c| => Lower(c[i]));
    if lowered == "" then WINDOW else lowered
  }

  function NormalTasks(tasks: seq<Observation>): seq<Observation> {
    seq(|tasks|, i requires 0 <= i < |tasks| => NormalObservation(tasks[i]))
  }

  /** Trimmed; the source also sorts by thread, which distinct threads make irrelevant below. */
  function Normalize(s: Snapshot): Snapshot {
    Snapshot(TrimSpace(s.request), TrimSpace(s.host), TrimSpace(s.source), s.at, NormalCoverage(s.coverage),
      NormalTasks(s.tasks))
  }

  predicate ValidSummary(s: Summary) {
    && s.tier in {"", "P0", "P1", "P2", "P3"}
    && Utf8Len(s.outcome) <= 2000 && Utf8Len(s.unresolved) <= 2000 && Utf8Len(s.action) <= 2000
    && Utf8Len(s.decision) <= 2000
  }

  predicate ValidObservation(o: Observation) {
    && o.thread != "" && Utf8Len(o.thread) <= 512 && Utf8Len(o.title) <= 1000 && Utf8Len(o.description) <= 2000
    && Utf8Len(o.cwd) <= 4096 && Utf8Len(o.project) <= 1000 && Utf8Len(o.status) <= 128
    && (o.waitCursor.Some? ==> Utf8Len(o.waitCursor.value) <= 4096)
    && (o.classification.Some? ==> ValidSummary(o.classification.value.summary))
  }

  predicate DistinctThreads(tasks: seq<Observation>) {
    forall i, j :: 0 <= i < j < |tasks| ==> tasks[i].thread != tasks[j].thread
  }

  predicate ValidSnapshot(s: Snapshot) {
    && s.request != "" && s.host != "" && s.source != "" && s.at != 0 && s.coverage in {WINDOW, COMPLETE}
    && |s.tasks| <= MAX_TASKS && Utf8Len(s.request) <= 256 && Utf8Len(s.host) <= 256 && Utf8Len(s.source) <= 256
    && (forall i :: 0 <= i < |s.tasks| ==> ValidObservation(s.tasks[i]))
    && DistinctThreads(s.tasks)
  }

  // ---- merging one observation ----

  function StampOf(s: Snapshot): Stamp {
    Stamp(s.at, s.request)
  }

  function ClassStamp(s: Snapshot, c: Classification): Stamp {
    Stamp(if c.at == 0 then s.at else c.at, s.request)
  }

  function IfPresent(kept: string, given: string): string {
    if given != "" then given else kept
  }

  function Classify(t: Task, s: Snapshot, c: Option<Classification>): Task {
    if c.Some? && Older(t.classified, ClassStamp(s, c.value))
    then t.(summary := c.value.summary, classified := ClassStamp(s, c.value))
    else t
  }

  const BLANK := Task("", "", "", "", "", false, false, NO_SUMMARY, NEVER, 0, 0, 0, NEVER, NEVER, "", "", None, None)

  /** The descriptive fields, where an empty value keeps the older one. */
  function Described(t: Task, at: int, o: Observation): Task {
    var created := if o.created != 0 then o.created else t.created;
    t.(title := IfPresent(t.title, o.title), description := IfPresent(t.description, o.description),
       cwd := IfPresent(t.cwd, o.cwd), project := IfPresent(t.project, o.project),
       status := IfPresent(t.status, o.status),
       created := if created == 0 then at else created, updated := if o.updated != 0 then o.updated else at,
       unread := o.unread, coordinator := if o.coordinator.Some? then o.coordinator.value else t.coordinator,
       waitCursor := if o.waitCursor.Some? then o.waitCursor.value else t.waitCursor,
       tombstoned := if o.tombstoned then Some(at) else None)
  }

  function Stamped(t: Task, stamp: Stamp, source: string): Task {
    t.(seen := stamp, state := stamp, source := source, missing := None)
  }

  function MergeTask(existing: Option<Task>, s: Snapshot, o: Observation): Task {
    var t := if existing.Some? then existing.value else BLANK.(firstSeen := s.at);
    Stamped(Classify(Described(t, s.at, o), s, o.classification), StampOf(s), s.source)
  }

  function Merge(existing: Option<Task>, s: Snapshot, o: Observation): Task {
    if existing.Some? && !Older(existing.value.state, StampOf(s)) then Classify(existing.value, s, o.classification)
    else MergeTask(existing, s, o)
  }

  /** A complete snapshot that does not list a live task of its source. */
  predicate Absents(t: Task, s: Snapshot) {
    t.source == s.source && t.tombstoned.None? && Older(t.state, StampOf(s))
  }

  function MarkAbsent(t: Task, s: Snapshot): Task {
    if Absents(t, s) then t.(missing := if t.missing.Some? then t.missing else Some(s.at), state := StampOf(s)) else t
  }

  // ---- one snapshot ----

  function Lookup(x: Index, k: (string, string)): Option<Task> {
    if k in x then Some(x[k]) else None
  }

  function Observed(tasks: seq<Observation>, thread: string): Option<Observation> {
    if tasks == [] then None
    else if tasks[|tasks| - 1].thread == thread then Some(tasks[|tasks| - 1])
    else Observed(tasks[..|tasks| - 1], thread)
  }

  lemma {:induction false} ObservedMeans(tasks: seq<Observation>, thread: string)
    ensures Observed(tasks, thread).Some? ==>
            Observed(tasks, thread).value in tasks && Observed(tasks, thread).value.thread == thread
    ensures Observed(tasks, thread).None? ==> forall o :: o in tasks ==> o.thread != thread
  {
    if tasks != [] {
      ObservedMeans(tasks[..|tasks| - 1], thread);
      assert tasks == tasks[..|tasks| - 1] + [tasks[|tasks| - 1]];
    }
  }

  lemma {:induction false} ObservedIs(tasks: seq<Observation>, o: Observation)
    requires DistinctThreads(tasks) && o in tasks
    ensures Observed(tasks, o.thread) == Some(o)
  {
    ObservedMeans(tasks, o.thread);
    var i :| 0 <= i < |tasks| && tasks[i] == o;
    var j :| 0 <= j < |tasks| && tasks[j] == Observed(tasks, o.thread).value;
    assert i == j;
  }

  /** What a snapshot makes of one record. */
  function AppliedAt(x: Index, s: Snapshot, k: (string, string)): Option<Task> {
    if k.0 != s.host then Lookup(x, k)
    else match Observed(s.tasks, k.1)
         case Some(o) => Some(Merge(Lookup(x, k), s, o))
         case None => if s.coverage == COMPLETE && k in x then Some(MarkAbsent(x[k], s)) else Lookup(x, k)
  }

  function Touched(x: Index, s: Snapshot): set<(string, string)> {
    x.Keys + set o | o in s.tasks :: (s.host, o.thread)
  }

  function Apply(x: Index, s: Snapshot): Index {
    map k | k in Touched(x, s) && AppliedAt(x, s, k).Some? :: AppliedAt(x, s, k).value
  }

  lemma {:induction false} AppliedEverywhere(x: Index, s: Snapshot, k: (string, string))
    ensures Lookup(Apply(x, s), k) == AppliedAt(x, s, k)
  {
    ObservedMeans(s.tasks, k.1);
    if k.0 == s.host && Observed(s.tasks, k.1).Some? {
      var o := Observed(s.tasks, k.1).value;
      assert k == (s.host, o.thread);
    }
  }

  /** Only the set of observations matters, so neither their order nor any split into pages does. */
  lemma {:induction false} OrderIsIrrelevant(x: Index, s: Snapshot, u: Snapshot)
    requires DistinctThreads(s.tasks) && DistinctThreads(u.tasks)
    requires u == s.(tasks := u.tasks) && forall o :: o in s.tasks <==> o in u.tasks
    ensures Apply(x, s) == Apply(x, u)
  {
    forall k: (string, string) ensures Lookup(Apply(x, s), k) == Lookup(Apply(x, u), k) {
      SameObservation(s.tasks, u.tasks, k.1);
      SameAt(x, s, u, k);
    }
    SameEverywhere(Apply(x, s), Apply(x, u));
  }

  lemma {:induction false} SameAt(x: Index, s: Snapshot, u: Snapshot, k: (string, string))
    requires u == s.(tasks := u.tasks) && Observed(s.tasks, k.1) == Observed(u.tasks, k.1)
    ensures Lookup(Apply(x, s), k) == Lookup(Apply(x, u), k)
  {
    AppliedEverywhere(x, s, k);
    AppliedEverywhere(x, u, k);
    SameApplied(x, s, u, k);
  }

  lemma {:induction false} SameClassify(t: Task, s: Snapshot, u: Snapshot, c: Option<Classification>)
    requires u == s.(tasks := u.tasks, coverage := u.coverage)
    ensures Classify(t, s, c) == Classify(t, u, c)
  {
  }

  lemma {:induction false} SameMergeTask(e: Option<Task>, s: Snapshot, u: Snapshot, o: Observation)
    requires u == s.(tasks := u.tasks, coverage := u.coverage)
    ensures MergeTask(e, s, o) == MergeTask(e, u, o)
  {
    var t := if e.Some? then e.value else BLANK.(firstSeen := s.at);
    SameClassify(Described(t, s.at, o), s, u, o.classification);
  }

  /** A merge reads the snapshot's header, not its coverage or its other tasks. */
  lemma {:induction false} SameMerge(e: Option<Task>, s: Snapshot, u: Snapshot, o: Observation)
    requires u == s.(tasks := u.tasks, coverage := u.coverage)
    ensures Merge(e, s, o) == Merge(e, u, o)
  {
    SameMergeTask(e, s, u, o);
    if e.Some? { SameClassify(e.value, s, u, o.classification); }
  }

  lemma {:induction false} SameApplied(x: Index, s: Snapshot, u: Snapshot, k: (string, string))
    requires u == s.(tasks := u.tasks) && Observed(s.tasks, k.1) == Observed(u.tasks, k.1)
    ensures AppliedAt(x, s, k) == AppliedAt(x, u, k)
  {
    if Observed(s.tasks, k.1).Some? { SameMerge(Lookup(x, k), s, u, Observed(s.tasks, k.1).value); }
  }

  lemma {:induction false} SameObservation(a: seq<Observation>, b: seq<Observation>, thread: string)
    requires DistinctThreads(b) && forall o :: o in a <==> o in b
    ensures Observed(a, thread) == Observed(b, thread)
  {
    ObservedMeans(a, thread);
    ObservedMeans(b, thread);
    if Observed(a, thread).Some? { ObservedIs(b, Observed(a, thread).value); }
  }

  lemma {:induction false} SameEverywhere(x: Index, y: Index)
    requires forall k :: Lookup(x, k) == Lookup(y, k)
    ensures x == y
  {
    forall k ensures k in x <==> k in y { assert Lookup(x, k) == Lookup(y, k); }
    forall k | k in x ensures x[k] == y[k] { assert Lookup(x, k) == Lookup(y, k); }
  }
}
