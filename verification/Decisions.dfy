/** Recorded decisions and what supersedes what. */
module Decisions {
  import opened Basics
  import opened Listing

  const MAX_EVIDENCE: nat := 100
  const MAX_GAPS: nat := 100

  datatype Evidence = Evidence(ref: string, state: string, detail: string)

  /** `mark` is the caller's request fingerprint, if any. */
  datatype Decision = Decision(id: string, request: string, operation: string, repo: string, issue: string,
                               summary: string,
                               rationale: string, evidence: seq<Evidence>, dissent: string, author: string,
                               gaps: seq<string>,
                               supersedes: string, at: int, mark: string)

  /** A stored decision; SQL NULL is the empty string. `row` is its place in the table. */
  datatype Row = Row(decision: Decision, mark: string, supersededBy: string, supersededAt: Option<int>, row: nat)

  type Table = map<string, Row>

  datatype Failure = Invalid | ReplayMismatch | NotFound | Superseded | Conflict

  datatype Result = Saved(row: Row, replayed: bool) | Failed(error: Failure)

  // ---- normalisation ----

  function TrimEvidence(e: Evidence): Evidence {
    Evidence(TrimSpace(e.ref), TrimSpace(e.state), TrimSpace(e.detail))
  }

  /** Blank references are dropped, and later items with a reference already seen. */
  function UniqueEvidence(es: seq<Evidence>, seen: set<string>): seq<Evidence> {
    if es == [] then []
    else
      var e := TrimEvidence(es[0]);
      if e.ref == "" || e.ref in seen then UniqueEvidence(es[1..], seen)
      else [e] + UniqueEvidence(es[1..], seen + {e.ref})
  }

  lemma {:induction false} EvidenceStep(es: seq<Evidence>, i: nat, seen: set<string>)
    requires i < |es|
    ensures var e := TrimEvidence(es[i]);
            UniqueEvidence(es[i..], seen) ==
            if e.ref == "" || e.ref in seen then UniqueEvidence(es[i + 1..], seen)
            else [e] + UniqueEvidence(es[i + 1..], seen + {e.ref})
  {
    assert es[i..][1..] == es[i + 1..];
  }

  lemma {:induction false} Regroup(kept: seq<Evidence>, e: Evidence, rest: seq<Evidence>)
    ensures kept + ([e] + rest) == (kept + [e]) + rest
  {
  }

  method NormalEvidence(es: seq<Evidence>) returns (kept: seq<Evidence>)
    ensures kept == UniqueEvidence(es, {})
  {
    var seen: set<string> := {};
    kept := [];
    assert es[0..] == es;
    for i := 0 to |es|
      invariant kept + UniqueEvidence(es[i..], seen) == UniqueEvidence(es, {})
    {
      var e := TrimEvidence(es[i]);
      EvidenceStep(es, i, seen);
      if e.ref != "" && e.ref !in seen {
        Regroup(kept, e, UniqueEvidence(es[i + 1..], seen + {e.ref}));
        seen := seen + {e.ref};
        kept := kept + [e];
      }
    }
    assert es[|es|..] == [];
  }

  predicate NewRef(e: Evidence, seen: set<string>) {
    e.ref != "" && e.ref !in seen
  }

  predicate DistinctRefs(kept: seq<Evidence>) {
    forall i, j :: 0 <= i < j < |kept| ==> kept[i].ref != kept[j].ref
  }

  /** No reference survives twice. */
  lemma {:induction false} EvidenceIsUnique(es: seq<Evidence>, seen: set<string>)
    ensures forall k :: k in UniqueEvidence(es, seen) ==> NewRef(k, seen)
    ensures DistinctRefs(UniqueEvidence(es, seen))
  {
    if es != [] {
      var e := TrimEvidence(es[0]);
      if e.ref == "" || e.ref in seen {
        EvidenceIsUnique(es[1..], seen);
      } else {
        EvidenceIsUnique(es[1..], seen + {e.ref});
        ConsDistinct(e, UniqueEvidence(es[1..], seen + {e.ref}), seen);
      }
    }
  }

  lemma {:induction false} ConsDistinct(e: Evidence, rest: seq<Evidence>, seen: set<string>)
    requires NewRef(e, seen) && DistinctRefs(rest) && forall k :: k in rest ==> NewRef(k, seen + {e.ref})
    ensures DistinctRefs([e] + rest) && forall k :: k in [e] + rest ==> NewRef(k, seen)
  {
    var all := [e] + rest;
    forall i, j | 0 <= i < j < |all| ensures all[i].ref != all[j].ref {
      if i == 0 { assert all[j] in rest; }
    }
    forall k | k in all ensures NewRef(k, seen) {
      assert k == e || k in rest;
    }
  }

  /** Every reference that is not blank survives once. */
  lemma {:induction false} EvidenceIsKept(es: seq<Evidence>, seen: set<string>, i: nat)
    requires i < |es| && TrimEvidence(es[i]).ref != "" && TrimEvidence(es[i]).ref !in seen
    ensures exists j ::
              0 <= j < |UniqueEvidence(es, seen)| && UniqueEvidence(es, seen)[j].ref == TrimEvidence(es[i]).ref
  {
    var e, kept := TrimEvidence(es[0]), UniqueEvidence(es, seen);
    if e.ref == "" || e.ref in seen {
      EvidenceIsKept(es[1..], seen, i - 1);
    } else if TrimEvidence(es[i]).ref == e.ref {
      assert kept[0].ref == e.ref;
    } else {
      var rest := UniqueEvidence(es[1..], seen + {e.ref});
      EvidenceIsKept(es[1..], seen + {e.ref}, i - 1);
      var j :| 0 <= j < |rest| && rest[j].ref == TrimEvidence(es[i]).ref;
      assert kept[j + 1] == rest[j];
    }
  }

  /** The gaps that count: trimmed, not blank, once each. */
  function Gaps(gaps: seq<string>): set<string> {
    set g | g in gaps && TrimSpace(g) != "" :: TrimSpace(g)
  }

  /** ... in alphabetical order. */
  ghost function SortedGaps(gaps: seq<string>): seq<string> {
    LessIsStrict();
    Sorted(Less, Gaps(gaps))
  }

  ghost function Normalize(d: Decision): Decision {
    Decision(TrimSpace(d.id), TrimSpace(d.request), TrimSpace(d.operation), TrimSpace(d.repo), TrimSpace(d.issue),
      TrimSpace(d.summary),
             TrimSpace(d.rationale), UniqueEvidence(d.evidence, {}), TrimSpace(d.dissent), TrimSpace(d.author),
             SortedGaps(d.gaps),
             TrimSpace(d.supersedes), d.at, d.mark)
  }

  predicate Valid(d: Decision) {
    && d.id != "" && d.request != "" && d.summary != "" && d.rationale != "" && d.author != "" && d.at != 0
    && |d.evidence| <= MAX_EVIDENCE && |d.gaps| <= MAX_GAPS
    && Utf8Len(d.id) <= 256 && Utf8Len(d.request) <= 256 && Utf8Len(d.operation) <= 1024 && Utf8Len(d.repo) <= 4096
    && Utf8Len(d.issue) <= 512 && Utf8Len(d.summary) <= 2000 && Utf8Len(d.rationale) <= 8000
    && Utf8Len(d.dissent) <= 4000
    && Utf8Len(d.author) <= 256 && Utf8Len(d.supersedes) <= 256 && Utf8Len(d.mark) <= 256
    && (forall i :: 0 <= i < |d.evidence| ==>
          Utf8Len(d.evidence[i].ref) <= 4096 && Utf8Len(d.evidence[i].detail) <= 2000
            && d.evidence[i].state in {"available", "missing", "external"})
    && forall i :: 0 <= i < |d.gaps| ==> Utf8Len(d.gaps[i]) <= 2000
  }

  // ---- recording ----

  /** What the fingerprint covers, before anything is inherited. */
  datatype Payload = Payload(operation: string, repo: string, issue: string, summary: string, rationale: string,
                             dissent: string,
                             author: string, supersedes: string, refs: seq<string>)

  function PayloadOf(d: Decision): Payload {
    Payload(d.operation, d.repo, d.issue, d.summary, d.rationale, d.dissent, d.author, d.supersedes,
            seq(|d.evidence|, i requires 0 <= i < |d.evidence| => d.evidence[i].ref))
  }

  function MarkOf(d: Decision, digest: Payload -> string): string {
    if d.mark != "" then d.mark else digest(PayloadOf(d))
  }

  function ByRequest(t: Table, request: string): set<string> {
    set id | id in t && t[id].decision.request == request
  }

  predicate Current(r: Row) {
    r.supersededBy == ""
  }

  /** Operation, repository and issue default to those of the decision being replaced. */
  function Inherit(d: Decision, prior: Decision): Decision {
    d.(operation := if d.operation == "" then prior.operation else d.operation,
       repo := if d.repo == "" then prior.repo else d.repo,
       issue := if d.issue == "" then prior.issue else d.issue)
  }

  /** Nothing in the table already supersedes it, by the unique column. */
  predicate TargetFree(t: Table, supersedes: string) {
    supersedes == "" || forall id :: id in t ==> t[id].decision.supersedes != supersedes
  }

  /** The insert and, if another decision is replaced, the update of that one. */
  function Insert(t: Table, d: Decision, mark: string): (Table, Result) {
    if d.id in t || !TargetFree(t, d.supersedes) then (t, Failed(Conflict))
    else
      var u := t[d.id := Row(d, mark, "", None, |t|)];
      if d.supersedes == "" then (u, Saved(u[d.id], false))
      else if d.supersedes !in u || !Current(u[d.supersedes]) then (t, Failed(Superseded))
      else (u[d.supersedes := u[d.supersedes].(supersededBy := d.id, supersededAt := Some(d.at))],
        Saved(u[d.id], false))
  }

  /** One transaction on a normalised, valid decision. */
  ghost function Store(t: Table, d: Decision, mark: string): (Table, Result) {
    if ByRequest(t, d.request) != {} then
      var id :| id in ByRequest(t, d.request);
      (t, if t[id].mark != mark then Failed(ReplayMismatch) else Saved(t[id], true))
    else if d.supersedes == "" then Insert(t, d, mark)
    else if d.supersedes !in t then (t, Failed(NotFound))
    else if !Current(t[d.supersedes]) then (t, Failed(Superseded))
    else Insert(t, Inherit(d, t[d.supersedes].decision), mark)
  }

  ghost function Record(t: Table, digest: Payload -> string, raw: Decision): (Table, Result) {
    var d := Normalize(raw);
    if !Valid(d) then (t, Failed(Invalid)) else Store(t, d, MarkOf(d, digest))
  }

  // ---- what every record keeps ----

  /** Supersession is mutual and always points from the newer row to the older. */
  ghost predicate Linked(t: Table, id: string)
    requires id in t
  {
    var r := t[id];
    && id != "" && r.decision.id == id && r.row < |t|
    && (r.decision.supersedes != "" ==>
          r.decision.supersedes in t && t[r.decision.supersedes].supersededBy == id
            && t[r.decision.supersedes].row < r.row)
    && (r.supersededBy != "" ==> r.supersededBy in t && t[r.supersededBy].decision.supersedes == id)
  }

  function Heads(t: Table): set<string> {
    set id | id in t && Current(t[id])
  }

  function Roots(t: Table): set<string> {
    set id | id in t && t[id].decision.supersedes == ""
  }

  ghost predicate ChainInv(t: Table) {
    && (forall id :: id in t ==> Linked(t, id))
    && DistinctRequests(t)
    && |Heads(t)| == |Roots(t)|
  }

  /** A decision that can be appended: a new row that replaces nothing, or something current. */
  ghost predicate Fits(t: Table, d: Decision) {
    && d.id !in t && d.id != "" && ByRequest(t, d.request) == {}
    && (d.supersedes != "" ==> d.supersedes in t && Current(t[d.supersedes]))
  }

  function Added(t: Table, d: Decision, mark: string): Table {
    var u := t[d.id := Row(d, mark, "", None, |t|)];
    if d.supersedes != "" && d.supersedes in t
    then u[d.supersedes := t[d.supersedes].(supersededBy := d.id, supersededAt := Some(d.at))]
    else u
  }

  /** The transaction either changes nothing or appends one row and marks the row it replaces, which was current. */
  lemma {:induction false} StoreShape(t: Table, d: Decision, mark: string)
    requires d.id != ""
    ensures var (u, r) := Store(t, d, mark);
            if r.Saved? && !r.replayed
            then Fits(t, r.row.decision) && r.row == Row(r.row.decision, mark, "", None, |t|)
              && r.row.decision.request == d.request
                 && u == Added(t, r.row.decision, mark)
            else u == t
  {
    if ByRequest(t, d.request) == {} {
      var e := if d.supersedes != "" && d.supersedes in t then Inherit(d, t[d.supersedes].decision) else d;
      if e.supersedes == "" || e.supersedes in t { InsertShape(t, e, mark); }
    }
  }

  lemma {:induction false} InsertShape(t: Table, d: Decision, mark: string)
    requires d.id != "" && ByRequest(t, d.request) == {} && (d.supersedes == "" || d.supersedes in t)
    ensures var (u, r) := Insert(t, d, mark);
            if r.Saved? then !r.replayed && Fits(t, d) && r.row == Row(d, mark, "", None, |t|) && u == Added(t, d, mark)
            else u == t
  {
  }

  lemma {:induction false} AddedSize(t: Table, d: Decision, mark: string)
    requires Fits(t, d)
    ensures |Added(t, d, mark)| == |t| + 1
  {
    var u := Added(t, d, mark);
    assert u.Keys == t.Keys + {d.id};
    assert |u| == |u.Keys| && |t| == |t.Keys|;
  }

  lemma {:induction false} NewIsLinked(t: Table, d: Decision, mark: string)
    requires Fits(t, d) && forall id :: id in t ==> Linked(t, id)
    ensures Linked(Added(t, d, mark), d.id)
    ensures d.supersedes != "" ==> Linked(Added(t, d, mark), d.supersedes)
  {
    AddedSize(t, d, mark);
    if d.supersedes != "" { assert Linked(t, d.supersedes); }
  }

  lemma {:induction false} OldIsLinked(t: Table, d: Decision, mark: string, id: string)
    requires Fits(t, d) && id in t && id != d.supersedes && (forall x :: x in t ==> Linked(t, x))
    ensures Linked(Added(t, d, mark), id)
  {
    AddedSize(t, d, mark);
    assert Linked(t, id);
  }

  lemma {:induction false} HeadsAdded(t: Table, d: Decision, mark: string)
    requires Fits(t, d) && "" !in t
    ensures Heads(Added(t, d, mark)) == (Heads(t) - {d.supersedes}) + {d.id}
  {
    var u := Added(t, d, mark);
    forall x ensures x in Heads(u) <==> x in (Heads(t) - {d.supersedes}) + {d.id} {
      assert x in u <==> x in t || x == d.id;
    }
  }

  lemma {:induction false} RootsAdded(t: Table, d: Decision, mark: string)
    requires Fits(t, d)
    ensures Roots(Added(t, d, mark)) == if d.supersedes == "" then Roots(t) + {d.id} else Roots(t)
  {
    var u := Added(t, d, mark);
    forall x ensures x in Roots(u) <==> x in if d.supersedes == "" then Roots(t) + {d.id} else Roots(t) {
      assert x in u <==> x in t || x == d.id;
    }
  }

  lemma {:induction false} CountsAgree(t: Table, d: Decision, mark: string)
    requires Fits(t, d) && "" !in t && |Heads(t)| == |Roots(t)|
    ensures |Heads(Added(t, d, mark))| == |Roots(Added(t, d, mark))|
  {
    HeadsAdded(t, d, mark);
    RootsAdded(t, d, mark);
    assert d.id !in Heads(t) && d.id !in Roots(t);
    if d.supersedes == "" {
      assert Heads(t) - {""} == Heads(t);
    } else {
      assert d.supersedes in Heads(t);
    }
  }

  ghost predicate DistinctRequests(t: Table) {
    forall a, b :: a in t && b in t && t[a].decision.request == t[b].decision.request ==> a == b
  }

  lemma {:induction false} RequestsStayDistinct(t: Table, d: Decision, mark: string)
    requires Fits(t, d) && DistinctRequests(t)
    ensures DistinctRequests(Added(t, d, mark))
  {
    assert forall x :: x in t ==> t[x].decision.request != d.request by {
      forall x | x in t ensures t[x].decision.request != d.request { assert x !in ByRequest(t, d.request); }
    }
  }

  lemma {:induction false} AddedKeepsInv(t: Table, d: Decision, mark: string)
    requires ChainInv(t) && Fits(t, d)
    ensures ChainInv(Added(t, d, mark))
  {
    var u := Added(t, d, mark);
    assert "" in t ==> Linked(t, "");
    forall id | id in u ensures Linked(u, id) {
      if id == d.id || id == d.supersedes { NewIsLinked(t, d, mark); } else { OldIsLinked(t, d, mark, id); }
    }
    CountsAgree(t, d, mark);
    RequestsStayDistinct(t, d, mark);
  }

  lemma {:induction false} StoreKeepsInv(t: Table, d: Decision, mark: string)
    requires ChainInv(t) && d.id != ""
    ensures ChainInv(Store(t, d, mark).0)
  {
    StoreShape(t, d, mark);
    var (u, r) := Store(t, d, mark);
    if r.Saved? && !r.replayed { AddedKeepsInv(t, r.row.decision, mark); }
  }

  lemma {:induction false} RecordKeepsInv(t: Table, digest: Payload -> string, raw: Decision)
    requires ChainInv(t)
    ensures ChainInv(Record(t, digest, raw).0)
  {
    var d := Normalize(raw);
    if Valid(d) { StoreKeepsInv(t, d, MarkOf(d, digest)); }
  }

  /** What a stored row may turn into: it is never lost and never changes but for being marked, once, as superseded. */
  ghost predicate Keeps(t: Table, u: Table, id: string)
    requires id in t
  {
    && id in u && u[id].decision == t[id].decision && u[id].mark == t[id].mark && u[id].row == t[id].row
    && (t[id].supersededBy != "" ==> u[id] == t[id])
  }

  lemma {:induction false} RecordKeeps(t: Table, digest: Payload -> string, raw: Decision, id: string)
    requires id in t
    ensures Keeps(t, Record(t, digest, raw).0, id)
  {
    var d := Normalize(raw);
    if Valid(d) { StoreShape(t, d, MarkOf(d, digest)); }
  }

  /** A decision is stored under its own request and fingerprint, whatever it inherits; a failure or replay stores
      nothing. */
  lemma {:induction false} RecordedIsStored(t: Table, digest: Payload -> string, raw: Decision)
    ensures var (u, r) := Record(t, digest, raw);
            if r.Saved? && !r.replayed
            then && r.row.decision.id !in t && r.row.decision.id in u && u[r.row.decision.id] == r.row
                 && r.row.decision.request == Normalize(raw).request && r.row.mark == MarkOf(Normalize(raw), digest)
            else u == t
  {
    var d := Normalize(raw);
    if Valid(d) { StoreShape(t, d, MarkOf(d, digest)); }
  }

  lemma {:induction false} StoredAgain(t: Table, d: Decision, mark: string, id: string)
    requires ChainInv(t) && id in t && t[id].decision.request == d.request
    ensures Store(t, d, mark) == (t, if t[id].mark == mark then Saved(t[id], true) else Failed(ReplayMismatch))
  {
    assert id in ByRequest(t, d.request);
    forall x | x in ByRequest(t, d.request) ensures x == id {
    }
  }

  // ---- every history ----

  /** Any requests, with replays and failures among them, one after the other, from an empty table. */
  ghost predicate IsHistory(digest: Payload -> string, ts: seq<Table>, ds: seq<Decision>) {
    && |ts| == |ds| + 1 && ts[0] == map[]
    && forall i {:trigger ds[i]} :: 0 <= i < |ds| ==> ts[i + 1] == Record(ts[i], digest, ds[i]).0
  }

  /** Supersedes and superseded-by mirror each other, never form a cycle, and as many decisions are current as replace
      nothing. */
  lemma {:induction false} ChainsAlwaysHold(digest: Payload -> string, ts: seq<Table>, ds: seq<Decision>, n: nat)
    requires IsHistory(digest, ts, ds) && n < |ts|
    ensures ChainInv(ts[n])
  {
    if n == 0 {
      assert Heads(map[]) == {} && Roots(map[]) == {};
    } else {
      ChainsAlwaysHold(digest, ts, ds, n - 1);
      RecordKeepsInv(ts[n - 1], digest, ds[n - 1]);
    }
  }

  lemma {:induction false} KeepsOn(t: Table, u: Table, v: Table, id: string)
    requires id in t && Keeps(t, u, id) && Keeps(u, v, id)
    ensures Keeps(t, v, id)
  {
  }

  lemma {:induction false} StepKeeps(digest: Payload -> string, ts: seq<Table>, ds: seq<Decision>, n: nat, id: string)
    requires IsHistory(digest, ts, ds) && n + 1 < |ts| && id in ts[n]
    ensures Keeps(ts[n], ts[n + 1], id)
  {
    RecordKeeps(ts[n], digest, ds[n], id);
  }

  /** History is immutable: whatever is recorded later, a stored decision stays as it is but for being superseded
      once. */
  lemma {:induction false} HistoryIsKept(digest: Payload -> string, ts: seq<Table>, ds: seq<Decision>, i: nat, j: nat,
          id: string)
    requires IsHistory(digest, ts, ds) && i <= j < |ts| && id in ts[i]
    ensures Keeps(ts[i], ts[j], id)
  {
    if i < j {
      HistoryIsKept(digest, ts, ds, i, j - 1, id);
      StepKeeps(digest, ts, ds, j - 1, id);
      KeepsOn(ts[i], ts[j - 1], ts[j], id);
    }
  }

  /** At any later time a request that stored a decision is answered with that decision if it is identical, and refused
      if it differs. Neither changes anything. */
  lemma {:induction false} ReplayIsStored(digest: Payload -> string, ts: seq<Table>, ds: seq<Decision>, i: nat, j: nat,
          id: string, again: Decision)
    requires IsHistory(digest, ts, ds) && i <= j < |ts| && id in ts[i]
    requires TrimSpace(again.request) == ts[i][id].decision.request
    ensures id in ts[j]
    ensures Valid(Normalize(again)) ==>
              Record(ts[j], digest, again) ==
              (ts[j], if ts[i][id].mark == MarkOf(Normalize(again), digest) then Saved(ts[j][id], true)
                      else Failed(ReplayMismatch))
  {
    HistoryIsKept(digest, ts, ds, i, j, id);
    ChainsAlwaysHold(digest, ts, ds, j);
    StoredAgain(ts[j], Normalize(again), MarkOf(Normalize(again), digest), id);
  }

  // ---- chains ----

  /** The current decision of a chain: follow superseded-by. */
  ghost function Latest(t: Table, id: string): string
    requires ChainInv(t) && id in t
    decreases |t| - t[id].row
  {
    assert Linked(t, id);
    if Current(t[id]) then id
    else
      assert Linked(t, t[id].supersededBy);
      Latest(t, t[id].supersededBy)
  }

  ghost function Oldest(t: Table, id: string): string
    requires ChainInv(t) && id in t
    decreases t[id].row
  {
    assert Linked(t, id);
    if t[id].decision.supersedes == "" then id else Oldest(t, t[id].decision.supersedes)
  }

  lemma {:induction false} LatestIsCurrent(t: Table, id: string)
    requires ChainInv(t) && id in t
    ensures Latest(t, id) in Heads(t) && t[id].row <= t[Latest(t, id)].row
    ensures Oldest(t, Latest(t, id)) == Oldest(t, id)
    decreases |t| - t[id].row
  {
    assert Linked(t, id);
    if !Current(t[id]) {
      assert Linked(t, t[id].supersededBy);
      LatestIsCurrent(t, t[id].supersededBy);
    }
  }

  lemma {:induction false} OldestIsRoot(t: Table, id: string)
    requires ChainInv(t) && id in t
    ensures Oldest(t, id) in Roots(t) && t[Oldest(t, id)].row <= t[id].row
    ensures Latest(t, Oldest(t, id)) == Latest(t, id)
    decreases t[id].row
  {
    assert Linked(t, id);
    if t[id].decision.supersedes != "" {
      assert Linked(t, t[id].decision.supersedes);
      OldestIsRoot(t, t[id].decision.supersedes);
    }
  }

  /** Chains are disjoint and each has exactly one current decision: two decisions share their current one iff they
      share their first one. */
  lemma {:induction false} OneHeadPerChain(t: Table, a: string, b: string)
    requires ChainInv(t) && a in t && b in t
    ensures Oldest(t, a) == Oldest(t, b) <==> Latest(t, a) == Latest(t, b)
    ensures Current(t[a]) && Current(t[b]) && Oldest(t, a) == Oldest(t, b) ==> a == b
  {
    LatestIsCurrent(t, a);
    LatestIsCurrent(t, b);
    OldestIsRoot(t, a);
    OldestIsRoot(t, b);
  }

  // ---- the store ----

  class DecisionStore {
    const digest: Payload -> string
    var rows: Table

    constructor (digest: Payload -> string)
      ensures ChainInv(rows) && rows == map[] && this.digest == digest
    {
      this.digest, rows := digest, map[];
      new;
      assert Heads(rows) == {} && Roots(rows) == {};
    }

    /** One transaction: look up the replay, check the target, insert, mark the target; an error undoes the insert. */
    method RecordDecision(raw: Decision) returns (r: Result)
      requires ChainInv(rows)
      modifies this`rows
      ensures ChainInv(rows)
      ensures (rows, r) == Record(old(rows), digest, raw)
    {
      RecordKeepsInv(rows, digest, raw);
      var d := NormalDecision(raw);
      if !Valid(d) {
        return Failed(Invalid);
      }
      var mark := MarkOf(d, digest);
      var same := set id | id in rows && rows[id].decision.request == d.request;
      assert same == ByRequest(rows, d.request);
      if same != {} {
        var id :| id in same;
        return if rows[id].mark != mark then Failed(ReplayMismatch) else Saved(rows[id], true);
      }
      if d.supersedes != "" {
        if d.supersedes !in rows {
          return Failed(NotFound);
        }
        if !Current(rows[d.supersedes]) {
          return Failed(Superseded);
        }
        d := Inherit(d, rows[d.supersedes].decision);
      }
      r := InsertRow(d, mark);
    }

    method NormalDecision(raw: Decision) returns (d: Decision)
      ensures d == Normalize(raw)
    {
      var kept := NormalEvidence(raw.evidence);
      var gaps := NormalGaps(raw.gaps);
      return Decision(TrimSpace(raw.id), TrimSpace(raw.request), TrimSpace(raw.operation), TrimSpace(raw.repo),
                      TrimSpace(raw.issue), TrimSpace(raw.summary), TrimSpace(raw.rationale), kept,
                      TrimSpace(raw.dissent), TrimSpace(raw.author), gaps, TrimSpace(raw.supersedes), raw.at,
                      raw.mark);
    }

    method NormalGaps(gaps: seq<string>) returns (sorted: seq<string>)
      ensures sorted == SortedGaps(gaps)
    {
      LessIsStrict();
      sorted := SelectFirst(Less, Gaps(gaps), |Gaps(gaps)|);
    }

    method InsertRow(d: Decision, mark: string) returns (r: Result)
      modifies this`rows
      ensures (rows, r) == Insert(old(rows), d, mark)
    {
      var before := rows;
      if d.id in rows || !TargetFree(rows, d.supersedes) {
        return Failed(Conflict);
      }
      rows := rows[d.id := Row(d, mark, "", None, |rows|)];
      r := Saved(rows[d.id], false);
      if d.supersedes != "" {
        if d.supersedes !in rows || !Current(rows[d.supersedes]) {
          rows := before;
          return Failed(Superseded);
        }
        rows := rows[d.supersedes := rows[d.supersedes].(supersededBy := d.id, supersededAt := Some(d.at))];
      }
    }
  }
}
