/** Replay records and reports of the task index: the newest 5000 ingests are on record, one that is repeated while it
    is gets its first report again, and a report counts what the ingest changed. */
module TaskReplays {
  import opened Basics
  import opened TaskIndex
  import opened TaskConvergence
  import opened TaskLedger
  import opened TaskStaging
  import opened TaskCollections
  import opened TaskHistory
  import opened TaskRetention

  // ---- which records are kept ----

  /** The newest 5000. */
  function Newest<T>(rs: seq<T>): seq<T> {
    if |rs| <= 5000 then rs else rs[|rs| - 5000..]
  }

  /** The record of what a step publishes. */
  function RecordsOf(x: Index, published: seq<Snapshot>): (rs: seq<Replay>)
    ensures |rs| == |published|
  {
    seq(|published|, i requires 0 <= i < |published| =>
      Replay(published[i].request, MarkOf(published[i]), ReportOf(x, published[i])))
  }

  /** At most one new record, under a request ID that was not on record. */
  ghost predicate Records(rs: seq<Replay>, more: seq<Replay>, us: seq<Replay>) {
    && us == Newest(rs + more) && |more| <= 1
    && forall i :: 0 <= i < |more| ==> FindReplay(rs, more[i].request).None?
  }

  lemma {:induction false} IngestRecords(l: Ledger, raw: Snapshot)
    ensures Records(l.replays, RecordsOf(l.index, PublishedBy(l, raw)), IngestLocked(l, raw).0.replays)
      || |l.replays| > 5000
  {
    var more := PublishedBy(l, raw);
    if more != [] {
      assert RecordsOf(l.index, more) == [Replay(more[0].request, MarkOf(more[0]), ReportOf(l.index, more[0]))];
    } else {
      assert l.replays + RecordsOf(l.index, more) == l.replays;
    }
  }

  lemma {:induction false} FinishRecords(l: Ledger, sha: string -> string, key: Key, coverage: string, now: int)
    requires key in l.collections && |l.replays| <= 5000
    ensures Records(l.replays,
              RecordsOf(l.index,
                if Finishable(l, key, coverage) then PublishedBy(l, Published(l, sha, key, coverage)) else []),
              FinishKnown(l, sha, key, coverage, now).0.replays)
  {
    if Finishable(l, key, coverage) {
      FinishKnownConcludes(l, sha, key, coverage, now);
      var union := Published(l, sha, key, coverage);
      IngestRecords(l, union);
      ConcludeRecords(l, key, union, now);
    } else {
      FinishKnownRefuses(l, sha, key, coverage, now);
      assert l.replays + RecordsOf(l.index, []) == l.replays;
    }
  }

  lemma {:induction false} ConcludeRecords(l: Ledger, key: Key, union: Snapshot, now: int)
    requires key in l.collections
    ensures Conclude(l, key, union, now).0.replays == IngestLocked(l, union).0.replays
  {
  }

  lemma {:induction false} AddRecords(l: Ledger, page: PageRequest, now: int)
    ensures AddPage(l, page, now).0.replays == l.replays
  {
  }

  lemma {:induction false} DoRecords(l: Ledger, sha: string -> string, op: Op)
    requires |l.replays| <= 5000
    ensures Records(l.replays, RecordsOf(l.index, Publishes(l, sha, op)), Do(l, sha, op).replays)
  {
    match op
    case Add(page, now) =>
      AddRecords(l, page, now);
      assert l.replays + RecordsOf(l.index, []) == l.replays;
    case Ingest(s) => IngestRecords(l, s);
    case FinishOp(h, o, c, now) =>
      var key := (TrimSpace(h), TrimSpace(o));
      if key in l.collections { FinishRecords(l, sha, key, NormalFinish(c), now); }
      assert l.replays + RecordsOf(l.index, []) == l.replays;
  }

  // ---- in any history ----

  lemma {:induction false} NewestOfMore<T>(rs: seq<T>, more: seq<T>)
    requires |more| <= 1
    ensures Newest(Newest(rs) + more) == Newest(rs + more)
  {
    if |rs| > 5000 {
      assert Newest(rs) + more == (rs + more)[|rs| - 5000..];
    }
  }

  lemma {:induction false} FlatRecords(xs: seq<seq<Replay>>, recs: seq<seq<Replay>>, n: nat)
    requires |xs| == |recs| + 1 && xs[0] == [] && n < |xs|
    requires forall i {:trigger recs[i]} :: 0 <= i < |recs| && |xs[i]| <= 5000 ==> Records(xs[i], recs[i], xs[i + 1])
    ensures xs[n] == Newest(Flat(recs, n))
  {
    if n > 0 {
      FlatRecords(xs, recs, n - 1);
      assert Records(xs[n - 1], recs[n - 1], xs[n]);
      NewestOfMore(Flat(recs, n - 1), recs[n - 1]);
    }
  }

  ghost predicate DistinctRequests(rs: seq<Replay>) {
    forall i, j :: 0 <= i < j < |rs| ==> rs[i].request != rs[j].request
  }

  lemma {:induction false} NotFoundMeans(rs: seq<Replay>, request: string)
    ensures FindReplay(rs, request).None? <==> forall i :: 0 <= i < |rs| ==> rs[i].request != request
  {
    if rs != [] {
      NotFoundMeans(rs[1..], request);
      assert forall i :: 0 < i < |rs| ==> rs[i] == rs[1..][i - 1];
    }
  }

  lemma {:induction false} FoundIs(rs: seq<Replay>, i: nat)
    requires DistinctRequests(rs) && i < |rs|
    ensures FindReplay(rs, rs[i].request) == Some(rs[i])
  {
    if i > 0 {
      assert rs[1..][i - 1] == rs[i];
      FoundIs(rs[1..], i - 1);
    }
  }

  lemma {:induction false} RecordsStayDistinct(rs: seq<Replay>, more: seq<Replay>, us: seq<Replay>)
    requires DistinctRequests(rs) && Records(rs, more, us)
    ensures DistinctRequests(us)
  {
    if more != [] { NotFoundMeans(rs, more[0].request); }
  }

  lemma {:induction false} AllDistinct(xs: seq<seq<Replay>>, recs: seq<seq<Replay>>, n: nat)
    requires |xs| == |recs| + 1 && xs[0] == [] && n < |xs|
    requires forall i {:trigger recs[i]} :: 0 <= i < |recs| && |xs[i]| <= 5000 ==> Records(xs[i], recs[i], xs[i + 1])
    ensures DistinctRequests(xs[n])
  {
    if n > 0 {
      AllDistinct(xs, recs, n - 1);
      FlatRecords(xs, recs, n - 1);
      assert Records(xs[n - 1], recs[n - 1], xs[n]);
      RecordsStayDistinct(xs[n - 1], recs[n - 1], xs[n]);
    }
  }

  /** What each step puts on record. */
  function Recordings(sha: string -> string, ls: seq<Ledger>, ops: seq<Op>): seq<seq<Replay>>
    requires |ls| == |ops| + 1
  {
    seq(|ops|, i requires 0 <= i < |ops| => RecordsOf(ls[i].index, Publishes(ls[i], sha, ops[i])))
  }

  function ReplayTables(ls: seq<Ledger>): (xs: seq<seq<Replay>>)
    ensures |xs| == |ls|
  {
    seq(|ls|, i requires 0 <= i < |ls| => ls[i].replays)
  }

  lemma {:induction false} RecordStep(sha: string -> string, ls: seq<Ledger>, ops: seq<Op>, i: nat,
          recs: seq<seq<Replay>>, xs: seq<seq<Replay>>)
    requires IsHistory(sha, ls, ops) && i < |ops| && recs == Recordings(sha, ls, ops) && xs == ReplayTables(ls)
    ensures |recs| == |ops| && (|xs[i]| <= 5000 ==> Records(xs[i], recs[i], xs[i + 1]))
  {
    if |ls[i].replays| <= 5000 { DoRecords(ls[i], sha, ops[i]); }
  }

  lemma {:induction false} RecordSteps(sha: string -> string, ls: seq<Ledger>, ops: seq<Op>, recs: seq<seq<Replay>>,
          xs: seq<seq<Replay>>)
    requires IsHistory(sha, ls, ops) && recs == Recordings(sha, ls, ops) && xs == ReplayTables(ls)
    ensures |xs| == |recs| + 1 && xs[0] == []
    ensures forall i {:trigger recs[i]} :: 0 <= i < |recs| && |xs[i]| <= 5000 ==> Records(xs[i], recs[i], xs[i + 1])
  {
    forall i {:trigger recs[i]} | 0 <= i < |recs| && |xs[i]| <= 5000 ensures Records(xs[i], recs[i], xs[i + 1]) {
      RecordStep(sha, ls, ops, i, recs, xs);
    }
  }

  /** At any time the newest 5000 of everything published are on record, under distinct request IDs, each with the
      fingerprint of what was ingested and the report it was answered with. */
  lemma {:induction false} NewestAreOnRecord(sha: string -> string, ls: seq<Ledger>, ops: seq<Op>, n: nat)
    requires IsHistory(sha, ls, ops) && n < |ls|
    ensures ls[n].replays == Newest(Flat(Recordings(sha, ls, ops), n)) && DistinctRequests(ls[n].replays)
  {
    var recs, xs := Recordings(sha, ls, ops), ReplayTables(ls);
    RecordSteps(sha, ls, ops, recs, xs);
    FlatRecords(xs, recs, n);
    AllDistinct(xs, recs, n);
  }

  // ---- repeating an ingest ----

  lemma {:induction false} FlatExtends<T>(xs: seq<seq<T>>, i: nat, j: nat)
    requires i <= j <= |xs|
    ensures Flat(xs, i) <= Flat(xs, j)
  {
    if i < j { FlatExtends(xs, i, j - 1); }
  }

  lemma {:induction false} FlatHolds<T>(xs: seq<seq<T>>, i: nat, j: nat)
    requires i < j <= |xs| && |xs[i]| == 1
    ensures |Flat(xs, i)| < |Flat(xs, j)| && Flat(xs, j)[|Flat(xs, i)|] == xs[i][0]
  {
    FlatExtends(xs, i + 1, j);
  }

  /** A record is kept until 5000 more have followed it. */
  lemma {:induction false} StillOnRecord(recs: seq<seq<Replay>>, i: nat, j: nat, rs: seq<Replay>)
    requires i < j <= |recs| && |recs[i]| == 1 && rs == Newest(Flat(recs, j)) && DistinctRequests(rs)
    requires |Flat(recs, j)| <= |Flat(recs, i)| + 5000
    ensures FindReplay(rs, recs[i][0].request) == Some(recs[i][0])
  {
    FlatHolds(recs, i, j);
    var all, at := Flat(recs, j), |Flat(recs, i)|;
    var place := if |all| <= 5000 then at else at - (|all| - 5000);
    assert rs[place] == recs[i][0];
    FoundIs(rs, place);
  }

  lemma {:induction false} AnsweredFromRecord(l: Ledger, raw: Snapshot, r: Replay)
    requires ValidSnapshot(Normalize(raw)) && FindReplay(l.replays, Normalize(raw).request) == Some(r)
    ensures IngestLocked(l, raw) ==
            (l, if MarkOf(Normalize(raw)) == r.mark then Ok(r.report.(replayed := true)) else Err(IngestMismatch))
  {
  }

  lemma {:induction false} FirstAnswer(l: Ledger, raw: Snapshot)
    requires PublishedBy(l, raw) != []
    ensures PublishedBy(l, raw) == [Normalize(raw)] && ValidSnapshot(Normalize(raw))
    ensures IngestLocked(l, raw).1 == Ok(ReportOf(l.index, Normalize(raw)))
    ensures RecordsOf(l.index, PublishedBy(l, raw))
            == [Replay(Normalize(raw).request, MarkOf(Normalize(raw)), ReportOf(l.index, Normalize(raw)))]
  {
  }

  lemma {:induction false} RecordOfIngest(sha: string -> string, ls: seq<Ledger>, ops: seq<Op>, i: nat, raw: Snapshot)
    requires |ls| == |ops| + 1 && i < |ops| && ops[i] == Ingest(raw) && PublishedBy(ls[i], raw) != []
    ensures Recordings(sha, ls, ops)[i]
            == [Replay(Normalize(raw).request, MarkOf(Normalize(raw)), ReportOf(ls[i].index, Normalize(raw)))]
  {
    FirstAnswer(ls[i], raw);
  }

  /** An ingest that published is answered, whenever its request ID comes again before 5000 more were published, from
      the record: the same content gets the first report again, other content is refused, and neither changes
      anything. */
  lemma {:induction false} IngestReplays(sha: string -> string, ls: seq<Ledger>, ops: seq<Op>, i: nat, j: nat,
          raw: Snapshot, again: Snapshot)
    requires IsHistory(sha, ls, ops) && i < j < |ls| && ops[i] == Ingest(raw) && PublishedBy(ls[i], raw) != []
    requires |Flat(Recordings(sha, ls, ops), j)| <= |Flat(Recordings(sha, ls, ops), i)| + 5000
    requires ValidSnapshot(Normalize(again)) && Normalize(again).request == Normalize(raw).request
    ensures IngestLocked(ls[i], raw).1.Ok? && !IngestLocked(ls[i], raw).1.value.replayed
    ensures IngestLocked(ls[j], again) ==
            (ls[j], if MarkOf(Normalize(again)) == MarkOf(Normalize(raw))
                    then Ok(IngestLocked(ls[i], raw).1.value.(replayed := true)) else Err(IngestMismatch))
  {
    var recs := Recordings(sha, ls, ops);
    FirstAnswer(ls[i], raw);
    RecordOfIngest(sha, ls, ops, i, raw);
    NewestAreOnRecord(sha, ls, ops, j);
    StillOnRecord(recs, i, j, ls[j].replays);
    AnsweredFromRecord(ls[j], again, recs[i][0]);
  }
}
