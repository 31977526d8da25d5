/** Keyset pagination over the task index: newest first, then host and thread. */
module TaskPaging {
  import opened Basics
  import opened Listing
  import opened TaskIndex
  import opened TaskLedger
  import opened TaskCollections
  import opened TimeText

  const DEFAULT_LIMIT: nat := 50
  const MAX_LIMIT: nat := 500

  datatype Filter = Filter(host: string, project: string, status: string, source: string, tier: string,
                           unread: Option<bool>, includeTombstoned: bool, staleBefore: Option<int>)

  /** A task's position in the listing, and the content of a cursor. */
  datatype Place = Place(at: int, host: string, thread: string)

  function PlaceOf(x: Index, k: (string, string)): Place
    requires k in x
  {
    Place(x[k].seen.at, k.0, k.1)
  }

  /** ORDER BY last_seen_at DESC, host_id, thread_id - and the cursor's WHERE clause. */
  predicate Precedes(a: Place, b: Place) {
    b.at < a.at || (b.at == a.at && (Less(a.host, b.host) || (a.host == b.host && Less(a.thread, b.thread))))
  }

  lemma {:induction false} PrecedesIsStrict()
    ensures StrictOrder(Precedes)
  {
    forall a: Place ensures !Precedes(a, a) {
      LessIrreflexive(a.host);
      LessIrreflexive(a.thread);
    }
    forall a: Place, b: Place ensures Precedes(a, b) || a == b || Precedes(b, a) {
      LessTotal(a.host, b.host);
      LessTotal(a.thread, b.thread);
    }
    forall a: Place, b: Place, c: Place | Precedes(a, b) && Precedes(b, c) ensures Precedes(a, c) {
      PrecedesTransitive(a, b, c);
    }
  }

  lemma {:induction false} PrecedesTransitive(a: Place, b: Place, c: Place)
    requires Precedes(a, b) && Precedes(b, c)
    ensures Precedes(a, c)
  {
    if Less(a.host, b.host) && Less(b.host, c.host) { LessTransitive(a.host, b.host, c.host); }
    if Less(a.thread, b.thread) && Less(b.thread, c.thread) { LessTransitive(a.thread, b.thread, c.thread); }
  }

  predicate Matches(f: Filter, k: (string, string), t: Task) {
    && (f.host != "" ==> k.0 == f.host) && (f.project != "" ==> t.project == f.project)
    && (f.status != "" ==> t.status == f.status)
    && (f.source != "" ==> t.source == f.source) && (f.tier != "" ==> t.summary.tier == f.tier)
    && (f.unread.Some? ==> t.unread == f.unread.value) && (f.includeTombstoned || t.tombstoned.None?)
    && (f.staleBefore.Some? ==> t.seen.at < f.staleBefore.value)
  }

  function NormalFilter(f: Filter): Filter {
    var tier := TrimSpace(f.tier);
    f.(tier := seq(|tier|, i requires 0 <= i < |tier| => Upper(tier[i])))
  }

  function Matching(x: Index, f: Filter): set<Place> {
    set k | k in x && Matches(f, k, x[k]) :: PlaceOf(x, k)
  }

  function Beyond(s: set<Place>, after: Option<Place>): set<Place> {
    set p | p in s && (after.Some? ==> Precedes(after.value, p))
  }

  predicate CursorOk(after: Option<Place>) {
    after.Some? ==> after.value.at != 0 && after.value.host != "" && after.value.thread != ""
  }

  /** A query the listing accepts; a limit of zero asks for the default. */
  predicate QueryOk(raw: Filter, limit: int, after: Option<Place>) {
    NormalFilter(raw).tier in {"", "P0", "P1", "P2", "P3"} && 0 <= limit <= MAX_LIMIT && CursorOk(after)
  }

  datatype TaskPage = TaskPage(places: seq<Place>, total: nat, next: Option<Place>)

  ghost function FirstPlaces(s: set<Place>, n: nat): (rows: seq<Place>)
    ensures |rows| <= n
  {
    PrecedesIsStrict();
    First(Precedes, s, n)
  }

  /** One page: the first `limit` matching places beyond the cursor; the cursor of the next page is the last of them. */
  ghost function ListTasks(x: Index, raw: Filter, limit: int, after: Option<Place>): Outcome<TaskPage> {
    var f := NormalFilter(raw);
    var n := if limit == 0 then DEFAULT_LIMIT else limit;
    if !QueryOk(raw, limit, after) then Err(Invalid)
    else
      var rows := FirstPlaces(Beyond(Matching(x, f), after), n + 1);
      Ok(TaskPage(if |rows| > n then rows[..n] else rows, |Matching(x, f)|, if |rows| > n then Some(rows[n - 1])
                  else None))
  }

  /** What every ingest guarantees of the index: positions that cursors can carry. */
  ghost predicate Listable(x: Index) {
    forall k :: k in x ==> x[k].seen.at != 0 && k.0 != "" && k.1 != ""
  }

  lemma {:induction false} ValidThread(s: Snapshot, thread: string)
    requires ValidSnapshot(s) && Observed(s.tasks, thread).Some?
    ensures thread != ""
  {
    ObservedMeans(s.tasks, thread);
    var i :| 0 <= i < |s.tasks| && s.tasks[i] == Observed(s.tasks, thread).value;
    assert ValidObservation(s.tasks[i]);
  }

  lemma {:induction false} AppliedIsListable(x: Index, s: Snapshot, k: (string, string))
    requires Listable(x) && ValidSnapshot(s) && k in Apply(x, s)
    ensures Apply(x, s)[k].seen.at != 0 && k.0 != "" && k.1 != ""
  {
    AppliedEverywhere(x, s, k);
    if k.0 == s.host && Observed(s.tasks, k.1).Some? {
      ValidThread(s, k.1);
    }
  }

  lemma {:induction false} IngestKeepsListable(x: Index, s: Snapshot)
    requires Listable(x) && ValidSnapshot(s)
    ensures Listable(Apply(x, s))
  {
    forall k | k in Apply(x, s) ensures Apply(x, s)[k].seen.at != 0 && k.0 != "" && k.1 != "" {
      AppliedIsListable(x, s, k);
    }
  }

  // ---- following the cursors ----

  /** All pages from a cursor on, as a client collects them. */
  ghost function Walk(x: Index, f: Filter, limit: int, after: Option<Place>): seq<Place>
    requires Listable(x) && ListTasks(x, f, limit, after).Ok?
    decreases |Beyond(Matching(x, NormalFilter(f)), after)|
  {
    var page := ListTasks(x, f, limit, after).value;
    if page.next.None? then page.places
    else
      NextIsFurther(x, f, limit, after);
      page.places + Walk(x, f, limit, page.next)
  }

  lemma {:induction false} NextIsFurther(x: Index, f: Filter, limit: int, after: Option<Place>)
    requires Listable(x) && ListTasks(x, f, limit, after).Ok? && ListTasks(x, f, limit, after).value.next.Some?
    ensures var next := ListTasks(x, f, limit, after).value.next;
            var m := Matching(x, NormalFilter(f));
            && ListTasks(x, f, limit, next).Ok? && Beyond(m, next) < Beyond(m, after)
            && |Beyond(m, next)| < |Beyond(m, after)|
  {
    var m := Matching(x, NormalFilter(f));
    var next := ListTasks(x, f, limit, after).value.next;
    var p := next.value;
    PrecedesIsStrict();
    assert p in First(Precedes, Beyond(m, after), (if limit == 0 then DEFAULT_LIMIT else limit) + 1);
    assert p in Beyond(m, after);
    FurtherBeyond(m, after, p);
  }

  lemma {:induction false} FurtherBeyond(m: set<Place>, after: Option<Place>, p: Place)
    requires p in Beyond(m, after)
    ensures Beyond(m, Some(p)) < Beyond(m, after) && |Beyond(m, Some(p))| < |Beyond(m, after)|
  {
    LessIrreflexive(p.host);
    LessIrreflexive(p.thread);
    assert p !in Beyond(m, Some(p));
    forall q | q in Beyond(m, Some(p)) ensures q in Beyond(m, after) {
      if after.Some? { PrecedesTransitive(after.value, p, q); }
    }
    SubsetSize(Beyond(m, Some(p)), Beyond(m, after) - {p});
  }

  ghost function Ordered(m: set<Place>, after: Option<Place>): seq<Place> {
    PrecedesIsStrict();
    Sorted(Precedes, Beyond(m, after))
  }

  ghost function InOrder(x: Index, f: Filter, after: Option<Place>): seq<Place> {
    Ordered(Matching(x, NormalFilter(f)), after)
  }

  lemma {:induction false} FullPageThenRest(m: set<Place>, after: Option<Place>, n: nat, rows: seq<Place>)
    requires n >= 1 && rows == FirstPlaces(Beyond(m, after), n + 1) && |rows| == n + 1
    ensures Ordered(m, after) == rows[..n] + Ordered(m, Some(rows[n - 1]))
  {
    var p := rows[n - 1];
    PrecedesIsStrict();
    assert p in rows;
    forall q ensures q in Beyond(m, Some(p)) <==> q in Beyond(m, after) && Precedes(p, q) {
      if after.Some? && Precedes(p, q) { PrecedesTransitive(after.value, p, q); }
    }
    PageThenRest(Precedes, Beyond(m, after), n, rows, Beyond(m, Some(p)));
  }

  lemma {:induction false} LastPage(m: set<Place>, after: Option<Place>, n: nat)
    requires |FirstPlaces(Beyond(m, after), n + 1)| <= n
    ensures Ordered(m, after) == FirstPlaces(Beyond(m, after), n + 1)
  {
    PrecedesIsStrict();
  }

  lemma {:induction false} PlacesFromPage(m: set<Place>, after: Option<Place>, n: nat, rows: seq<Place>)
    requires n >= 1 && rows == FirstPlaces(Beyond(m, after), n + 1)
    ensures Ordered(m, after) == if |rows| > n then rows[..n] + Ordered(m, Some(rows[n - 1])) else rows
  {
    if |rows| > n {
      FullPageThenRest(m, after, n, rows);
    } else {
      LastPage(m, after, n);
    }
  }

  lemma {:induction false} PageIs(x: Index, f: Filter, limit: int, after: Option<Place>)
    returns (m: set<Place>, n: nat, rows: seq<Place>)
    requires ListTasks(x, f, limit, after).Ok?
    ensures m == Matching(x, NormalFilter(f)) && n >= 1 && rows == FirstPlaces(Beyond(m, after), n + 1)
    ensures var page := ListTasks(x, f, limit, after).value;
            if |rows| > n then page.places == rows[..n] && page.next == Some(rows[n - 1])
            else page.places == rows && page.next == None
  {
    m, n := Matching(x, NormalFilter(f)), if limit == 0 then DEFAULT_LIMIT else limit;
    rows := FirstPlaces(Beyond(m, after), n + 1);
  }

  lemma {:induction false} ListingFromPage(x: Index, f: Filter, limit: int, after: Option<Place>)
    requires ListTasks(x, f, limit, after).Ok?
    ensures var page := ListTasks(x, f, limit, after).value;
            InOrder(x, f, after) == page.places + if page.next.Some? then InOrder(x, f, page.next) else []
  {
    var m, n, rows := PageIs(x, f, limit, after);
    PlacesFromPage(m, after, n, rows);
  }

  /** Following next-cursors on an unchanged index yields the rest of the listing, for any limit. */
  lemma {:induction false} WalkIsListing(x: Index, f: Filter, limit: int, after: Option<Place>)
    requires Listable(x) && ListTasks(x, f, limit, after).Ok?
    ensures Walk(x, f, limit, after) == InOrder(x, f, after)
    decreases |Beyond(Matching(x, NormalFilter(f)), after)|
  {
    ListingFromPage(x, f, limit, after);
    var page := ListTasks(x, f, limit, after).value;
    if page.next.Some? {
      NextIsFurther(x, f, limit, after);
      WalkIsListing(x, f, limit, page.next);
    }
  }

  lemma {:induction false} WalkListsAll(x: Index, f: Filter, limit: int) returns (all: seq<Place>)
    requires Listable(x) && ListTasks(x, f, limit, None).Ok?
    ensures all == Walk(x, f, limit, None)
    ensures ListsExactly(x, NormalFilter(f), all)
    ensures forall i, j :: 0 <= i < j < |all| ==> Precedes(all[i], all[j]) && all[i] != all[j]
    ensures |all| == ListTasks(x, f, limit, None).value.total
  {
    all := Walk(x, f, limit, None);
    WalkIsListing(x, f, limit, None);
    PrecedesIsStrict();
    var m := Matching(x, NormalFilter(f));
    assert Beyond(m, None) == m;
    forall k | k in x && Matches(NormalFilter(f), k, x[k]) ensures PlaceOf(x, k) in all {
      assert PlaceOf(x, k) in m;
    }
  }

  /** The places of exactly the tasks that match. */
  ghost predicate ListsExactly(x: Index, f: Filter, all: seq<Place>) {
    && (forall k :: k in x && Matches(f, k, x[k]) ==> PlaceOf(x, k) in all)
    && (forall p :: p in all ==>
          var k := (p.host, p.thread);
          k in x && Matches(f, k, x[k]) && x[k].seen.at == p.at)
  }

  // ---- the index of every history ----

  lemma {:induction false} IngestStaysListable(l: Ledger, s: Snapshot)
    requires Listable(l.index)
    ensures Listable(IngestLocked(l, s).0.index)
  {
    if ValidSnapshot(Normalize(s)) { IngestKeepsListable(l.index, Normalize(s)); }
  }

  lemma {:induction false} FinishStaysListable(l: Ledger, sha: string -> string, key: Key, coverage: string, now: int)
    requires Listable(l.index) && key in l.collections
    ensures Listable(FinishKnown(l, sha, key, coverage, now).0.index)
  {
    if Finishable(l, key, coverage) {
      FinishKnownConcludes(l, sha, key, coverage, now);
      IngestStaysListable(l, Published(l, sha, key, coverage));
    } else {
      FinishKnownRefuses(l, sha, key, coverage, now);
    }
  }

  lemma {:induction false} DoStaysListable(l: Ledger, sha: string -> string, op: Op)
    requires Listable(l.index)
    ensures Listable(Do(l, sha, op).index)
  {
    match op
    case Add(page, now) =>
    case FinishOp(h, o, c, now) =>
      var key := (TrimSpace(h), TrimSpace(o));
      if key in l.collections { FinishStaysListable(l, sha, key, NormalFinish(c), now); }
    case Ingest(s) => IngestStaysListable(l, s);
  }

  /** Whatever was ingested or collected, every position in the index can be carried by a cursor. */
  lemma {:induction false} HistoryIsListable(sha: string -> string, ls: seq<Ledger>, ops: seq<Op>, n: nat)
    requires IsHistory(sha, ls, ops) && n < |ls|
    ensures Listable(ls[n].index)
  {
    if n > 0 {
      HistoryIsListable(sha, ls, ops, n - 1);
      DoStaysListable(ls[n - 1], sha, ops[n - 1]);
    }
  }

  /** At any time, following the cursors from the start lists every matching task exactly once, newest first, whatever
      the limit. */
  lemma {:induction false} WalkListsEveryTaskOnce(
          sha: string -> string, ls: seq<Ledger>, ops: seq<Op>, n: nat, f: Filter, limit: int) returns (all: seq<Place>)
    requires IsHistory(sha, ls, ops) && n < |ls| && QueryOk(f, limit, None)
    ensures Listable(ls[n].index) && ListTasks(ls[n].index, f, limit, None).Ok?
    ensures all == Walk(ls[n].index, f, limit, None)
    ensures ListsExactly(ls[n].index, NormalFilter(f), all)
    ensures forall i, j :: 0 <= i < j < |all| ==> Precedes(all[i], all[j]) && all[i] != all[j]
    ensures |all| == ListTasks(ls[n].index, f, limit, None).value.total
  {
    HistoryIsListable(sha, ls, ops, n);
    all := WalkListsAll(ls[n].index, f, limit);
  }

  // ---- what a page and a filter say ----

  /** Upper case, without surrounding blanks. */
  ghost predicate IsTier(tier: string, given: string) {
    |tier| == |TrimSpace(given)| && forall i :: 0 <= i < |tier| ==> tier[i] == Upper(TrimSpace(given)[i])
  }

  /** A query is refused iff its tier is none of the four, its limit is negative or above 500, or its cursor lacks a
      time, a host or a thread. */
  lemma {:induction false} QueryRefusedIff(x: Index, f: Filter, limit: int, after: Option<Place>, tier: string)
    requires IsTier(tier, f.tier)
    ensures ListTasks(x, f, limit, after) == Err(Invalid) <==>
              (tier != "" && tier != "P0" && tier != "P1" && tier != "P2" && tier != "P3") || limit < 0 || limit > 500
                || (after.Some? && (after.value.at == 0 || after.value.host == "" || after.value.thread == ""))
  {
    assert NormalFilter(f).tier == tier;
  }

  /** A page holds as many places as asked for, 50 by default, or all that are left, and names its last place as the
      next cursor iff more are left. */
  lemma {:induction false} PageSize(x: Index, f: Filter, limit: int, after: Option<Place>)
    requires ListTasks(x, f, limit, after).Ok?
    ensures var page := ListTasks(x, f, limit, after).value;
            var left := |Beyond(Matching(x, NormalFilter(f)), after)|;
            var n := if limit == 0 then 50 else limit;
            && |page.places| == (if left <= n then left else n)
            && (page.next.Some? <==> left > n)
            && (page.next.Some? ==> page.next.value == page.places[n - 1])
  {
    PrecedesIsStrict();
  }

  /** Each field of the filter that is set, and no other, narrows the walk. */
  ghost predicate Passes(f: Filter, tier: string, k: (string, string), t: Task) {
    && (f.host == "" || f.host == k.0)
    && (f.project == "" || f.project == t.project)
    && (f.status == "" || f.status == t.status)
    && (f.source == "" || f.source == t.source)
    && (tier == "" || tier == t.summary.tier)
    && (f.unread == None || f.unread == Some(t.unread))
    && (f.includeTombstoned || t.tombstoned == None)
    && (f.staleBefore == None || t.seen.at < f.staleBefore.value)
  }

  lemma {:induction false} PassesIsMatch(f: Filter, tier: string, k: (string, string), t: Task)
    requires IsTier(tier, f.tier)
    ensures Matches(NormalFilter(f), k, t) <==> Passes(f, tier, k, t)
  {
    assert NormalFilter(f).tier == tier;
  }

  lemma {:induction false} WalkHolds(x: Index, f: Filter, limit: int, k: (string, string))
    requires Listable(x) && ListTasks(x, f, limit, None).Ok? && k in x
    ensures PlaceOf(x, k) in Walk(x, f, limit, None) <==> Matches(NormalFilter(f), k, x[k])
  {
    var all := WalkListsAll(x, f, limit);
  }

  lemma {:induction false} ListsIfOk(x: Index, f: Filter, limit: int)
    requires QueryOk(f, limit, None)
    ensures ListTasks(x, f, limit, None).Ok?
  {
  }

  /** At any time the walk lists exactly the tasks that pass every field of the filter. */
  lemma {:induction false} WalkPasses(sha: string -> string, ls: seq<Ledger>, ops: seq<Op>, n: nat, f: Filter,
          limit: int, tier: string, k: (string, string))
    requires IsHistory(sha, ls, ops) && n < |ls| && QueryOk(f, limit, None) && IsTier(tier, f.tier)
    requires k in ls[n].index
    ensures Listable(ls[n].index) && ListTasks(ls[n].index, f, limit, None).Ok?
    ensures PlaceOf(ls[n].index, k) in Walk(ls[n].index, f, limit, None) <==> Passes(f, tier, k, ls[n].index[k])
  {
    HistoryIsListable(sha, ls, ops, n);
    ListsIfOk(ls[n].index, f, limit);
    WalkHolds(ls[n].index, f, limit, k);
    PassesIsMatch(f, tier, k, ls[n].index[k]);
  }

  // ---- the order of the stored text ----

  /** How the clock's instants are written as civil times. */
  ghost predicate ClockShows(clock: int -> Civil, times: set<int>) {
    && (forall t :: t in times ==> Printable(clock(t)))
    && (forall t, u :: t in times && u in times && t < u ==> Earlier(clock(t), clock(u)))
  }

  /** ORDER BY and the cursor's WHERE clause as SQL evaluates them, on the stored text. */
  predicate TextPrecedes(clock: int -> Civil, a: Place, b: Place) {
    var s, t := Fixed(clock(a.at)), Fixed(clock(b.at));
    Less(t, s) || (s == t && (Less(a.host, b.host) || (a.host == b.host && Less(a.thread, b.thread))))
  }

  lemma {:induction false} TextTellsTimes(clock: int -> Civil, times: set<int>, t: int, u: int)
    requires ClockShows(clock, times) && t in times && u in times
    ensures Less(Fixed(clock(t)), Fixed(clock(u))) <==> t < u
    ensures Fixed(clock(t)) == Fixed(clock(u)) <==> t == u
  {
    LessIrreflexive(Fixed(clock(t)));
    if t < u {
      FixedOrdersAsTime(clock(t), clock(u));
    } else if u < t {
      FixedOrdersAsTime(clock(u), clock(t));
      LessAsymmetric(Fixed(clock(u)), Fixed(clock(t)));
    }
  }

  /** The fixed-width text puts two tasks in the order of their times, so the query pages by time. */
  lemma {:induction false} PagesOrderAsText(clock: int -> Civil, times: set<int>, a: Place, b: Place)
    requires ClockShows(clock, times) && a.at in times && b.at in times
    ensures Precedes(a, b) <==> TextPrecedes(clock, a, b)
  {
    TextTellsTimes(clock, times, a.at, b.at);
    TextTellsTimes(clock, times, b.at, a.at);
  }

  // ---- the query ----

  method ListCodexTasks(x: Index, raw: Filter, limit: int, after: Option<Place>) returns (r: Outcome<TaskPage>)
    ensures r == ListTasks(x, raw, limit, after)
  {
    var f := NormalFilter(raw);
    var n := if limit == 0 then DEFAULT_LIMIT else limit;
    if !QueryOk(raw, limit, after) {
      return Err(Invalid);
    }
    var matching := Matching(x, f);
    var rows := SelectPlaces(Beyond(matching, after), n + 1);
    if |rows| > n {
      return Ok(TaskPage(rows[..n], |matching|, Some(rows[n - 1])));
    }
    return Ok(TaskPage(rows, |matching|, None));
  }

  method SelectPlaces(s: set<Place>, n: nat) returns (rows: seq<Place>)
    ensures rows == FirstPlaces(s, n)
  {
    PrecedesIsStrict();
    rows := SelectFirst(Precedes, s, n);
  }
}
