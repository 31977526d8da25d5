/** How long staged collections are kept: exactly which steps of a history delete which collection, and so for how long
    an upload can be retried. */
module TaskRetention {
  import opened Basics
  import opened TaskIndex
  import opened TaskLedger
  import opened TaskStaging
  import opened TaskCollections

  // ---- what deletes a collection ----

  /** The step is an accepted first page of another collection, more than seven days after this open one began. */
  ghost predicate Outdates(l: Ledger, op: Op, key: Key)
    requires key in l.collections
  {
    && op.Add? && KeyOf(op.page) !in l.collections && AddPage(l, op.page, op.now).1.Ok?
    && l.collections[key].finish.None? && op.now - l.collections[key].created > 7 * 24 * 3600 * 1_000_000_000
  }

  function KeyOfFinish(op: Op): Key
    requires op.FinishOp?
  {
    (TrimSpace(op.host), TrimSpace(op.observation))
  }

  /** When the collection is finished, after this step has finished `done`. */
  function FinishTime(l: Ledger, done: Key, now: int, k: Key): Option<int>
    requires k in l.collections
  {
    if k == done then Some(now)
    else if l.collections[k].finish.Some? then Some(l.collections[k].finish.value.at)
    else None
  }

  /** The collections finished later than this one, or at the same time and begun later. */
  function Later(l: Ledger, done: Key, now: int, key: Key): set<Key>
    requires key in l.collections && FinishTime(l, done, now, key).Some?
  {
    var at := FinishTime(l, done, now, key).value;
    set k | k in l.collections && FinishTime(l, done, now, k).Some?
            && (FinishTime(l, done, now, k).value > at
                || (FinishTime(l, done, now, k).value == at && l.collections[k].row > l.collections[key].row))
  }

  /** The step finishes an open collection, and 1000 collections are then finished later than this one. */
  ghost predicate Outnumbers(l: Ledger, sha: string -> string, op: Op, key: Key)
    requires key in l.collections
  {
    && op.FinishOp? && KeyOfFinish(op) in l.collections && l.collections[KeyOfFinish(op)].finish.None?
    && FinishCollection(l, sha, op.host, op.observation, op.coverage, op.now).1.Ok?
    && FinishTime(l, KeyOfFinish(op), op.now, key).Some? && |Later(l, KeyOfFinish(op), op.now, key)| >= 1000
  }

  // ---- uploads ----

  lemma {:induction false} StagingDeletesNothing(l: Ledger, key: Key, r: PageRequest, other: Key)
    requires key in l.collections
    ensures other in l.collections <==> other in StagePage(l, key, r).0.collections
    ensures other in l.collections ==>
              var m, n := l.collections[other], StagePage(l, key, r).0.collections[other];
              m.created == n.created && m.row == n.row && m.finish == n.finish && m.at == n.at
  {
  }

  lemma {:induction false} NewDeletesStale(l: Ledger, key: Key, at: int, now: int, other: Key)
    requires key !in l.collections && other in l.collections
    ensures other !in NewCollection(l, key, at, now).collections <==>
            l.collections[other].finish.None? && now - l.collections[other].created > STALE_AGE
    ensures other in NewCollection(l, key, at, now).collections ==>
              NewCollection(l, key, at, now).collections[other] == l.collections[other]
  {
  }

  /** What stays is the same collection. */
  ghost predicate SameCollection(l: Ledger, u: Ledger, key: Key) {
    && key in l.collections && key in u.collections
    && u.collections[key].created == l.collections[key].created && u.collections[key].row == l.collections[key].row
    && (l.collections[key].finish.Some? ==> u.collections[key].finish == l.collections[key].finish)
  }

  lemma {:induction false} AddDeletes(l: Ledger, raw: PageRequest, now: int, key: Key)
    requires key in l.collections
    ensures key !in AddPage(l, raw, now).0.collections <==> Outdates(l, Add(raw, now), key)
    ensures key in AddPage(l, raw, now).0.collections ==> SameCollection(l, AddPage(l, raw, now).0, key)
    ensures key in AddPage(l, raw, now).0.collections ==>
              AddPage(l, raw, now).0.collections[key].finish == l.collections[key].finish
  {
    AddRefusedKeeps(l, raw, now);
    if AddPage(l, raw, now).1.Ok? {
      AddPageIs(l, raw, now);
      var r := NormalPage(raw);
      var k := (r.host, r.observation);
      if k in l.collections {
        StagingDeletesNothing(l, k, r, key);
      } else {
        NewDeletesStale(l, k, r.at, now, key);
        StagingDeletesNothing(NewCollection(l, k, r.at, now), k, r, key);
      }
    }
  }

  // ---- finishes ----

  lemma {:induction false} FinishedLater(l: Ledger, done: Key, f: Finish, key: Key)
    requires done in l.collections && key in l.collections
    ensures key in Closed(l, done, f).collections
    ensures Closed(l, done, f).collections[key].finish.Some? <==> FinishTime(l, done, f.at, key).Some?
    ensures FinishTime(l, done, f.at, key).Some? ==>
              FinishedAfter(Closed(l, done, f), key) == Later(l, done, f.at, key)
  {
  }

  lemma {:induction false} CloseDeletes(l: Ledger, done: Key, f: Finish, key: Key)
    requires done in l.collections && key in l.collections
    ensures key !in Close(l, done, f).collections <==>
            FinishTime(l, done, f.at, key).Some? && |Later(l, done, f.at, key)| >= MAX_COLLECTION_REPLAYS
    ensures key in Close(l, done, f).collections ==>
              Close(l, done, f).collections[key]
              == if key == done then l.collections[key].(finish := Some(f)) else l.collections[key]
  {
    FinishedLater(l, done, f, key);
  }

  lemma {:induction false} SameLater(l: Ledger, u: Ledger, done: Key, now: int, key: Key)
    requires u.collections == l.collections && key in l.collections && FinishTime(l, done, now, key).Some?
    ensures FinishTime(u, done, now, key) == FinishTime(l, done, now, key)
    ensures Later(u, done, now, key) == Later(l, done, now, key)
  {
  }

  lemma {:induction false} ConcludeDeletes(l: Ledger, done: Key, union: Snapshot, now: int, key: Key)
    requires done in l.collections && key in l.collections
    ensures var (after, r) := Conclude(l, done, union, now);
            && (key !in after.collections <==>
                 r.Ok? && FinishTime(l, done, now, key).Some? && |Later(l, done, now, key)| >= MAX_COLLECTION_REPLAYS)
            && (r.Err? ==> after == l)
            && (key in after.collections && key != done ==> after.collections[key] == l.collections[key])
            && (key in after.collections ==>
                 after.collections[key].created == l.collections[key].created
                   && after.collections[key].row == l.collections[key].row)
  {
    var ingested := IngestLocked(l, union);
    IngestLeavesStaging(l, union);
    if ingested.1.Ok? {
      var result := FinishResult(l.collections[done].pageCount, ingested.1.value, false);
      CloseDeletes(ingested.0, done, Finish(union.coverage, result, now), key);
      if FinishTime(l, done, now, key).Some? { SameLater(l, ingested.0, done, now, key); }
    }
  }

  lemma {:induction false} FinishDeletes(l: Ledger, sha: string -> string, op: Op, key: Key)
    requires key in l.collections && op.FinishOp?
    ensures key !in Do(l, sha, op).collections <==> Outnumbers(l, sha, op, key)
    ensures key in Do(l, sha, op).collections ==> SameCollection(l, Do(l, sha, op), key)
    ensures key in Do(l, sha, op).collections && key != KeyOfFinish(op) ==>
              Do(l, sha, op).collections[key] == l.collections[key]
  {
    var done, coverage := KeyOfFinish(op), NormalFinish(op.coverage);
    if done in l.collections && Finishable(l, done, coverage) {
      FinishKnownConcludes(l, sha, done, coverage, op.now);
      ConcludeDeletes(l, done, Published(l, sha, done, coverage), op.now, key);
    } else if done in l.collections {
      FinishKnownRefuses(l, sha, done, coverage, op.now);
    }
  }

  // ---- every step of every history ----

  ghost predicate Drops(l: Ledger, sha: string -> string, op: Op, key: Key)
    requires key in l.collections
  {
    Outdates(l, op, key) || Outnumbers(l, sha, op, key)
  }

  lemma {:induction false} DoDeletes(l: Ledger, sha: string -> string, op: Op, key: Key)
    requires key in l.collections
    ensures key !in Do(l, sha, op).collections <==> Drops(l, sha, op, key)
    ensures key in Do(l, sha, op).collections ==> SameCollection(l, Do(l, sha, op), key)
    ensures key in Do(l, sha, op).collections && !(op.FinishOp? && KeyOfFinish(op) == key) ==>
              Do(l, sha, op).collections[key].finish == l.collections[key].finish
  {
    match op
    case Add(page, now) => AddDeletes(l, page, now, key);
    case FinishOp(_, _, _, _) => FinishDeletes(l, sha, op, key);
    case Ingest(s) => IngestLeavesStaging(l, s);
  }

  /** In every history a collection disappears in exactly two ways: it is open, and the first page of another collection
      is accepted more than seven days after it began; or a finish leaves 1000 collections finished later than it. */
  lemma {:induction false} DeletedIff(sha: string -> string, ls: seq<Ledger>, ops: seq<Op>, i: nat, key: Key)
    requires IsHistory(sha, ls, ops) && i < |ops| && key in ls[i].collections
    ensures key !in ls[i + 1].collections <==> Drops(ls[i], sha, ops[i], key)
    ensures key in ls[i + 1].collections ==> SameCollection(ls[i], ls[i + 1], key)
    ensures key in ls[i + 1].collections && !(ops[i].FinishOp? && KeyOfFinish(ops[i]) == key) ==>
              ls[i + 1].collections[key].finish == ls[i].collections[key].finish
  {
    DoDeletes(ls[i], sha, ops[i], key);
  }

  lemma {:induction false} KeptUnlessDropped(sha: string -> string, ls: seq<Ledger>, ops: seq<Op>, i: nat, j: nat,
          key: Key)
    requires IsHistory(sha, ls, ops) && i <= j < |ls| && key in ls[i].collections
    requires forall m {:trigger ops[m]} :: i <= m < j && key in ls[m].collections ==> !Drops(ls[m], sha, ops[m], key)
    ensures SameCollection(ls[i], ls[j], key)
  {
    if i < j {
      KeptUnlessDropped(sha, ls, ops, i, j - 1, key);
      DeletedIff(sha, ls, ops, j - 1, key);
    }
  }

  /** Nobody finishes the collection, and no upload comes in more than seven days after it began. */
  ghost predicate WithinAWeek(ls: seq<Ledger>, ops: seq<Op>, i: nat, j: nat, key: Key)
    requires |ls| == |ops| + 1 && i <= j < |ls| && key in ls[i].collections
  {
    forall m {:trigger ops[m]} :: i <= m < j ==>
      && (ops[m].Add? ==> ops[m].now - ls[i].collections[key].created <= 7 * 24 * 3600 * 1_000_000_000)
      && (ops[m].FinishOp? ==> KeyOfFinish(ops[m]) != key)
  }

  lemma {:induction false} OpenIsKept(sha: string -> string, ls: seq<Ledger>, ops: seq<Op>, i: nat, j: nat, key: Key)
    requires IsHistory(sha, ls, ops) && i <= j < |ls| && key in ls[i].collections
    requires ls[i].collections[key].finish.None? && WithinAWeek(ls, ops, i, j, key)
    ensures SameCollection(ls[i], ls[j], key) && ls[j].collections[key].finish.None?
  {
    if i < j {
      OpenIsKept(sha, ls, ops, i, j - 1, key);
      var op := ops[j - 1];
      NotDropped(ls[j - 1], sha, op, key, ls[i].collections[key].created);
      DeletedIff(sha, ls, ops, j - 1, key);
    }
  }

  lemma {:induction false} NotDropped(l: Ledger, sha: string -> string, op: Op, key: Key, created: int)
    requires key in l.collections && l.collections[key].finish.None? && l.collections[key].created == created
    requires op.Add? ==> op.now - created <= 7 * 24 * 3600 * 1_000_000_000
    requires op.FinishOp? ==> KeyOfFinish(op) != key
    ensures !Drops(l, sha, op, key)
  {
  }

  /** A page accepted into an open collection can be repeated for at least seven days, whatever else is uploaded,
      retried, refused, finished or ingested: it is answered as a replay and changes nothing. */
  lemma {:induction false} UploadReplaysForAWeek(sha: string -> string, ls: seq<Ledger>, ops: seq<Op>, i: nat, j: nat,
          raw: PageRequest, now: int)
    requires IsHistory(sha, ls, ops) && i <= j < |ls| && Stored(ls[i], raw) && ValidPage(NormalPage(raw))
    requires ls[i].collections[KeyOf(raw)].finish.None? && WithinAWeek(ls, ops, i, j, KeyOf(raw))
    ensures AddPage(ls[j], raw, now)
            == (ls[j], Ok(PageResult(raw.page, |raw.tasks|, ls[i].collections[KeyOf(raw)].at, true)))
  {
    OpenIsKept(sha, ls, ops, i, j, KeyOf(raw));
    AcceptedPageReplays(sha, ls, ops, i, j, raw, now);
  }

  // ---- room for another ----

  /** A valid first page of a new collection is refused for want of room iff 1000 open collections are no more than
      seven days old. */
  lemma {:induction false} NoRoomIff(l: Ledger, raw: PageRequest, now: int)
    requires ValidPage(NormalPage(raw)) && KeyOf(raw) !in l.collections && raw.page == 1
    ensures AddPage(l, raw, now).1 == Err(TooManyOpen) <==>
              |set k | k in l.collections && l.collections[k].finish.None?
                       && now - l.collections[k].created <= 7 * 24 * 3600 * 1_000_000_000| >= 1000
  {
    var open := set k | k in l.collections && l.collections[k].finish.None?
                        && now - l.collections[k].created <= 7 * 24 * 3600 * 1_000_000_000;
    assert Open(Without(l, Stale(l, now))) == open;
    var r := NormalPage(raw);
    NewStages(NewCollection(l, KeyOf(raw), r.at, now), KeyOf(raw), r);
  }

  lemma {:induction false} NewStages(l: Ledger, key: Key, r: PageRequest)
    requires key in l.collections
    ensures StagePage(l, key, r).1 != Err(TooManyOpen)
  {
  }

  // ---- finishing again ----

  lemma {:induction false} FinishedIsKept(sha: string -> string, ls: seq<Ledger>, ops: seq<Op>, i: nat, j: nat,
          key: Key)
    requires IsHistory(sha, ls, ops) && i <= j < |ls| && key in ls[i].collections
    requires ls[i].collections[key].finish.Some?
    requires forall m {:trigger ops[m]} :: i <= m < j && key in ls[m].collections ==> !Drops(ls[m], sha, ops[m], key)
    ensures key in ls[j].collections && ls[j].collections[key].finish == ls[i].collections[key].finish
  {
    KeptUnlessDropped(sha, ls, ops, i, j, key);
  }

  /** A finish that closed its collection, and was not outnumbered at once, recorded its own answer. */
  lemma {:induction false} FinishIsRecorded(l: Ledger, sha: string -> string, op: Op)
    requires op.FinishOp? && KeyOfFinish(op) in l.collections && l.collections[KeyOfFinish(op)].finish.None?
    ensures var (after, r) := FinishCollection(l, sha, op.host, op.observation, op.coverage, op.now);
            r.Ok? && KeyOfFinish(op) in after.collections ==>
              after.collections[KeyOfFinish(op)].finish == Some(Finish(NormalFinish(op.coverage), r.value, op.now))
              && !r.value.replayed
  {
    var done, coverage := KeyOfFinish(op), NormalFinish(op.coverage);
    if Finishable(l, done, coverage) {
      FinishKnownConcludes(l, sha, done, coverage, op.now);
      ConcludeRecordsFinish(l, done, Published(l, sha, done, coverage), op.now);
    } else {
      assert FinishKnown(l, sha, done, coverage, op.now).1.Err?;
    }
  }

  lemma {:induction false} ConcludeRecordsFinish(l: Ledger, done: Key, union: Snapshot, now: int)
    requires done in l.collections
    ensures var (after, r) := Conclude(l, done, union, now);
            r.Ok? ==>
              && !r.value.replayed && r.value.pages == l.collections[done].pageCount
              && (done in after.collections ==>
                   after.collections[done].finish == Some(Finish(union.coverage, r.value, now)))
  {
    IngestLeavesStaging(l, union);
  }

  lemma {:induction false} FinishedAnswers(l: Ledger, sha: string -> string, op: Op)
    requires op.FinishOp? && KeyOfFinish(op) in l.collections && l.collections[KeyOfFinish(op)].finish.Some?
    requires ValidName(KeyOfFinish(op).0) && ValidName(KeyOfFinish(op).1)
    requires NormalFinish(op.coverage) in {WINDOW, COMPLETE}
    ensures var f := l.collections[KeyOfFinish(op)].finish.value;
            FinishCollection(l, sha, op.host, op.observation, op.coverage, op.now)
            == (l, if NormalFinish(op.coverage) == f.coverage then Ok(f.result.(replayed := true))
                   else Err(FinishMismatch))
  {
  }

  lemma {:induction false} FinishArgumentsOk(l: Ledger, sha: string -> string, op: Op)
    requires op.FinishOp? && FinishCollection(l, sha, op.host, op.observation, op.coverage, op.now).1.Ok?
    ensures ValidName(KeyOfFinish(op).0) && ValidName(KeyOfFinish(op).1)
    ensures NormalFinish(op.coverage) in {WINDOW, COMPLETE} && KeyOfFinish(op) in l.collections
  {
  }

  /** The collection that step `i` finished, kept ever since. */
  ghost predicate FinishedAt(sha: string -> string, ls: seq<Ledger>, ops: seq<Op>, i: nat, j: nat)
    requires |ls| == |ops| + 1 && i < j < |ls|
  {
    && ops[i].FinishOp?
    && FinishCollection(ls[i], sha, ops[i].host, ops[i].observation, ops[i].coverage, ops[i].now).1.Ok?
    && KeyOfFinish(ops[i]) in ls[i].collections && ls[i].collections[KeyOfFinish(ops[i])].finish.None?
    && forall m {:trigger ops[m]} :: i <= m < j && KeyOfFinish(ops[i]) in ls[m].collections ==>
         !Drops(ls[m], sha, ops[m], KeyOfFinish(ops[i]))
  }

  lemma {:induction false} FinishStep(sha: string -> string, ls: seq<Ledger>, ops: seq<Op>, i: nat)
    requires IsHistory(sha, ls, ops) && i < |ops| && ops[i].FinishOp?
    ensures ls[i + 1] == FinishCollection(ls[i], sha, ops[i].host, ops[i].observation, ops[i].coverage, ops[i].now).0
  {
  }

  /** Finishing a finished collection again, at any later time while it is kept, returns the first result as a replay if
      it asks for the same coverage, and is refused if it asks for the other; it changes nothing. */
  lemma {:induction false} FinishReplays(sha: string -> string, ls: seq<Ledger>, ops: seq<Op>, i: nat, j: nat, op: Op)
    requires IsHistory(sha, ls, ops) && i < j < |ls| && FinishedAt(sha, ls, ops, i, j)
    requires op.FinishOp? && KeyOfFinish(op) == KeyOfFinish(ops[i]) && NormalFinish(op.coverage) in {WINDOW, COMPLETE}
    ensures var first := FinishCollection(ls[i], sha, ops[i].host, ops[i].observation, ops[i].coverage, ops[i].now).1;
            FinishCollection(ls[j], sha, op.host, op.observation, op.coverage, op.now)
            == (ls[j], if NormalFinish(op.coverage) == NormalFinish(ops[i].coverage)
                       then Ok(first.value.(replayed := true)) else Err(FinishMismatch))
  {
    var key := KeyOfFinish(ops[i]);
    DeletedIff(sha, ls, ops, i, key);
    FinishStep(sha, ls, ops, i);
    FinishIsRecorded(ls[i], sha, ops[i]);
    FinishArgumentsOk(ls[i], sha, ops[i]);
    FinishedIsKept(sha, ls, ops, i + 1, j, key);
    FinishedAnswers(ls[j], sha, op);
  }
}
