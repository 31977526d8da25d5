/** The index of every history of the store is a fold of the snapshots it published, so what holds of such folds holds
    of it. */
module TaskHistory {
  import opened Basics
  import opened TaskIndex
  import opened TaskConvergence
  import opened TaskLedger
  import opened TaskCollections

  /** What an ingest publishes: the normalised snapshot, unless it is invalid or its request ID is on record. */
  function PublishedBy(l: Ledger, raw: Snapshot): seq<Snapshot> {
    var s := Normalize(raw);
    if ValidSnapshot(s) && FindReplay(l.replays, s.request).None? then [s] else []
  }

  /** ... and what an operation publishes. */
  function Publishes(l: Ledger, sha: string -> string, op: Op): seq<Snapshot> {
    match op
    case Add(_, _) => []
    case Ingest(s) => PublishedBy(l, s)
    case FinishOp(h, o, c, _) =>
      var key, coverage := (TrimSpace(h), TrimSpace(o)), NormalFinish(c);
      if ValidName(key.0) && ValidName(key.1) && coverage in {WINDOW, COMPLETE} && key in l.collections
         && Finishable(l, key, coverage)
      then PublishedBy(l, Published(l, sha, key, coverage))
      else []
  }

  function ApplyAll(x: Index, ss: seq<Snapshot>): Index {
    if ss == [] then x else Apply(x, ss[0])
  }

  lemma {:induction false} IngestPublishes(l: Ledger, s: Snapshot)
    ensures IngestLocked(l, s).0.index == ApplyAll(l.index, PublishedBy(l, s))
  {
  }

  lemma {:induction false} FinishPublishes(l: Ledger, sha: string -> string, key: Key, coverage: string, now: int)
    requires key in l.collections
    ensures FinishKnown(l, sha, key, coverage, now).0.index
            == if Finishable(l, key, coverage) then ApplyAll(l.index, PublishedBy(l, Published(l, sha, key, coverage)))
               else l.index
  {
    if Finishable(l, key, coverage) {
      FinishKnownConcludes(l, sha, key, coverage, now);
      ConcludePublishes(l, key, Published(l, sha, key, coverage), now);
    } else {
      FinishKnownRefuses(l, sha, key, coverage, now);
    }
  }

  lemma {:induction false} ConcludePublishes(l: Ledger, key: Key, union: Snapshot, now: int)
    requires key in l.collections
    ensures Conclude(l, key, union, now).0.index == ApplyAll(l.index, PublishedBy(l, union))
  {
    IngestPublishes(l, union);
  }

  /** At most one valid snapshot takes the index from x to y. */
  ghost predicate Advances(x: Index, more: seq<Snapshot>, y: Index) {
    && y == ApplyAll(x, more) && |more| <= 1
    && forall i :: 0 <= i < |more| ==> ValidSnapshot(more[i])
  }

  lemma {:induction false} PublishedByIsOne(l: Ledger, raw: Snapshot, y: Index)
    requires y == ApplyAll(l.index, PublishedBy(l, raw))
    ensures Advances(l.index, PublishedBy(l, raw), y)
  {
  }

  lemma {:induction false} FinishOpPublishes(l: Ledger, sha: string -> string, h: string, o: string, c: string,
          now: int)
    ensures Advances(l.index, Publishes(l, sha, FinishOp(h, o, c, now)), FinishCollection(l, sha, h, o, c, now).0.index)
  {
    var key, coverage := (TrimSpace(h), TrimSpace(o)), NormalFinish(c);
    if key in l.collections {
      FinishPublishes(l, sha, key, coverage, now);
      if Finishable(l, key, coverage) {
        PublishedByIsOne(l, Published(l, sha, key, coverage), FinishKnown(l, sha, key, coverage, now).0.index);
      }
    }
  }

  lemma {:induction false} AddPageKeepsIndex(l: Ledger, page: PageRequest, now: int)
    ensures AddPage(l, page, now).0.index == l.index
  {
  }

  lemma {:induction false} DoPublishes(l: Ledger, sha: string -> string, op: Op)
    ensures Advances(l.index, Publishes(l, sha, op), Do(l, sha, op).index)
  {
    match op
    case Add(page, now) => AddPageKeepsIndex(l, page, now);
    case Ingest(s) =>
      IngestPublishes(l, s);
      PublishedByIsOne(l, s, IngestLocked(l, s).0.index);
    case FinishOp(h, o, c, now) => FinishOpPublishes(l, sha, h, o, c, now);
  }

  function Flat<T>(pubs: seq<seq<T>>, n: nat): seq<T>
    requires n <= |pubs|
  {
    if n == 0 then [] else Flat(pubs, n - 1) + pubs[n - 1]
  }

  /** What each step publishes. */
  function Publications(sha: string -> string, ls: seq<Ledger>, ops: seq<Op>): seq<seq<Snapshot>>
    requires |ls| == |ops| + 1
  {
    seq(|ops|, i requires 0 <= i < |ops| => Publishes(ls[i], sha, ops[i]))
  }

  /** Every snapshot published in the first n steps, in order. */
  function Snapshots(sha: string -> string, ls: seq<Ledger>, ops: seq<Op>, n: nat): seq<Snapshot>
    requires n < |ls| && |ls| == |ops| + 1
  {
    Flat(Publications(sha, ls, ops), n)
  }

  ghost predicate FoldsTo(ss: seq<Snapshot>, x: Index) {
    && x == Fold(ss)
    && forall s :: s in ss ==> ValidSnapshot(s)
  }

  lemma {:induction false} FoldOne(ss: seq<Snapshot>, x: Index, more: seq<Snapshot>, y: Index)
    requires FoldsTo(ss, x) && Advances(x, more, y)
    ensures FoldsTo(ss + more, y)
  {
    if more == [] {
      assert ss + more == ss;
    } else {
      var all := ss + more;
      assert all[..|all| - 1] == ss && all[|all| - 1] == more[0];
    }
  }

  lemma {:induction false} FlatFolds(pubs: seq<seq<Snapshot>>, xs: seq<Index>, n: nat)
    requires n <= |pubs| && |xs| == |pubs| + 1 && xs[0] == map[]
    requires forall i {:trigger pubs[i]} :: 0 <= i < |pubs| ==> Advances(xs[i], pubs[i], xs[i + 1])
    ensures FoldsTo(Flat(pubs, n), xs[n])
  {
    if n > 0 {
      FlatFolds(pubs, xs, n - 1);
      FoldOne(Flat(pubs, n - 1), xs[n - 1], pubs[n - 1], xs[n]);
    }
  }

  function Indexes(ls: seq<Ledger>): (xs: seq<Index>)
    ensures |xs| == |ls|
  {
    seq(|ls|, i requires 0 <= i < |ls| => ls[i].index)
  }

  lemma {:induction false} HistoryStep(sha: string -> string, ls: seq<Ledger>, ops: seq<Op>, i: nat,
          pubs: seq<seq<Snapshot>>, xs: seq<Index>)
    requires IsHistory(sha, ls, ops) && i < |ops| && pubs == Publications(sha, ls, ops) && xs == Indexes(ls)
    ensures |pubs| == |ops| && Advances(xs[i], pubs[i], xs[i + 1])
  {
    DoPublishes(ls[i], sha, ops[i]);
  }

  lemma {:induction false} HistorySteps(sha: string -> string, ls: seq<Ledger>, ops: seq<Op>, pubs: seq<seq<Snapshot>>,
          xs: seq<Index>)
    requires IsHistory(sha, ls, ops) && pubs == Publications(sha, ls, ops) && xs == Indexes(ls)
    ensures |xs| == |pubs| + 1
    ensures forall i {:trigger pubs[i]} :: 0 <= i < |pubs| ==> Advances(xs[i], pubs[i], xs[i + 1])
  {
    forall i {:trigger pubs[i]} | 0 <= i < |pubs| ensures Advances(xs[i], pubs[i], xs[i + 1]) {
      HistoryStep(sha, ls, ops, i, pubs, xs);
    }
  }

  /** At any time the index is the fold of what was published, and only valid snapshots were. */
  lemma {:induction false} HistoryIsFold(sha: string -> string, ls: seq<Ledger>, ops: seq<Op>, n: nat)
    requires IsHistory(sha, ls, ops) && n < |ls|
    ensures FoldsTo(Snapshots(sha, ls, ops, n), ls[n].index)
  {
    HistorySteps(sha, ls, ops, Publications(sha, ls, ops), Indexes(ls));
    FlatFolds(Publications(sha, ls, ops), Indexes(ls), n);
  }

  /** After any history of ingests and collections, window and complete, the stamp invariant holds of every record. */
  lemma {:induction false} HistoryStampsHold(sha: string -> string, ls: seq<Ledger>, ops: seq<Op>, n: nat)
    requires IsHistory(sha, ls, ops) && n < |ls|
    ensures AllStampsOk(ls[n].index)
  {
    HistoryIsFold(sha, ls, ops, n);
    StampsHold(Snapshots(sha, ls, ops, n));
  }

  /** After any history in which a host published window snapshots, each of its tasks shows the newest snapshot that
      observed it and the newest classification. */
  lemma {:induction false} HistoryConverges(sha: string -> string, ls: seq<Ledger>, ops: seq<Op>, n: nat,
          k: (string, string))
    requires IsHistory(sha, ls, ops) && n < |ls| && Windows(Snapshots(sha, ls, ops, n), k.0)
    ensures Settled(Snapshots(sha, ls, ops, n), k, Lookup(ls[n].index, k))
  {
    HistoryIsFold(sha, ls, ops, n);
    Converges(Snapshots(sha, ls, ops, n), k);
  }

  /** Two histories in which a host published the same window snapshots, in any order, agree on its tasks. */
  lemma {:induction false} HistoriesAgree(sha: string -> string, ls: seq<Ledger>, ops: seq<Op>, n: nat,
          us: seq<Ledger>, qs: seq<Op>, m: nat, k: (string, string))
    requires IsHistory(sha, ls, ops) && n < |ls| && IsHistory(sha, us, qs) && m < |us|
    requires Windows(Snapshots(sha, ls, ops, n), k.0) && Windows(Snapshots(sha, us, qs, m), k.0)
    requires SameOf(Snapshots(sha, ls, ops, n), Snapshots(sha, us, qs, m), k.0)
    ensures k in ls[n].index <==> k in us[m].index
    ensures k in ls[n].index ==> SameView(ls[n].index[k], us[m].index[k])
  {
    HistoryIsFold(sha, ls, ops, n);
    HistoryIsFold(sha, us, qs, m);
    AnyOrderAgrees(Snapshots(sha, ls, ops, n), Snapshots(sha, us, qs, m), k);
  }
}
