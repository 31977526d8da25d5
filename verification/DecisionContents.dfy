/** What a recorded decision says, which request fails how, and what the fingerprint tells apart. */
module DecisionContents {
  import opened Basics
  import opened Listing
  import opened Decisions

  // ---- the stored row ----

  /** The text given, or else that of the decision being replaced. */
  function OrInherited(given: string, inherited: Option<string>): string {
    if TrimSpace(given) != "" then TrimSpace(given) else if inherited.Some? then inherited.value else ""
  }

  /** The decision that the request replaces. */
  function Prior(t: Table, raw: Decision): Option<Decision> {
    if TrimSpace(raw.supersedes) in t && TrimSpace(raw.supersedes) != ""
    then Some(t[TrimSpace(raw.supersedes)].decision) else None
  }

  /** What is stored of a normalised request. */
  ghost predicate IsStored(t: Table, d: Decision, mark: string, u: Table, row: Row) {
    var prior := if d.supersedes != "" && d.supersedes in t then Some(t[d.supersedes].decision) else None;
    && row == Row(row.decision, mark, "", None, |t|)
    && row.decision == (if prior.Some? then Inherit(d, prior.value) else d)
    && u == Added(t, row.decision, mark) && (d.supersedes != "" ==> prior.Some?) && d.id !in t
  }

  lemma {:induction false} StoreStores(t: Table, d: Decision, mark: string)
    requires Store(t, d, mark).1.Saved? && !Store(t, d, mark).1.replayed && d.id != ""
    ensures IsStored(t, d, mark, Store(t, d, mark).0, Store(t, d, mark).1.row)
  {
    StoreShape(t, d, mark);
  }

  /** The texts of a stored decision are the request's own, trimmed; operation, repository and issue, and nothing else,
      fall back to those of the decision it replaces. */
  ghost predicate HasTexts(e: Decision, raw: Decision, prior: Option<Decision>) {
    && e.id == TrimSpace(raw.id) && e.request == TrimSpace(raw.request) && e.summary == TrimSpace(raw.summary)
    && e.rationale == TrimSpace(raw.rationale) && e.dissent == TrimSpace(raw.dissent)
    && e.author == TrimSpace(raw.author) && e.supersedes == TrimSpace(raw.supersedes)
    && e.at == raw.at && e.mark == raw.mark
    && e.operation == OrInherited(raw.operation, if prior.Some? then Some(prior.value.operation) else None)
    && e.repo == OrInherited(raw.repo, if prior.Some? then Some(prior.value.repo) else None)
    && e.issue == OrInherited(raw.issue, if prior.Some? then Some(prior.value.issue) else None)
  }

  /** Its gaps are the given ones, trimmed, without blanks and repetitions, in alphabetical order. */
  ghost predicate HasGaps(e: Decision, raw: Decision) {
    && (forall g :: g in e.gaps <==> g != "" && exists v :: v in raw.gaps && TrimSpace(v) == g)
    && (forall i, j :: 0 <= i < j < |e.gaps| ==> Less(e.gaps[i], e.gaps[j]))
  }

  lemma {:induction false} NormalTexts(raw: Decision, prior: Option<Decision>)
    ensures var d := Normalize(raw); HasTexts(if prior.Some? then Inherit(d, prior.value) else d, raw, prior)
  {
  }

  lemma {:induction false} NormalGapsAreGiven(raw: Decision)
    ensures HasGaps(Normalize(raw), raw)
  {
    LessIsStrict();
    assert forall g :: g in Normalize(raw).gaps <==> g in Gaps(raw.gaps);
  }

  lemma {:induction false} InheritKeepsGaps(d: Decision, prior: Decision, raw: Decision)
    requires HasGaps(d, raw)
    ensures HasGaps(Inherit(d, prior), raw)
  {
  }

  lemma {:induction false} AddedMeans(t: Table, e: Decision, mark: string)
    requires e.id !in t && (e.supersedes != "" ==> e.supersedes in t)
    ensures var u := Added(t, e, mark);
            && u.Keys == t.Keys + {e.id} && u[e.id] == Row(e, mark, "", None, |t|)
            && (e.supersedes != "" ==>
                 u[e.supersedes] == t[e.supersedes].(supersededBy := e.id, supersededAt := Some(e.at)))
            && forall x :: x in t && x != e.supersedes ==> u[x] == t[x]
  {
  }

  /** A new decision is stored, current and in the next row, with the request's texts and gaps and the caller's
      fingerprint or else its own; the decision it replaces is marked with its ID and time, and every other row
      stays. */
  lemma {:induction false} StoredAsRequested(t: Table, digest: Payload -> string, raw: Decision)
    requires Record(t, digest, raw).1.Saved? && !Record(t, digest, raw).1.replayed
    ensures var (u, r) := Record(t, digest, raw);
            var e := r.row.decision;
            && HasTexts(e, raw, Prior(t, raw)) && HasGaps(e, raw)
            && r.row.supersededBy == "" && r.row.supersededAt == None && r.row.row == |t|
            && r.row.mark == (if raw.mark != "" then raw.mark else digest(PayloadOf(Normalize(raw))))
            && u.Keys == t.Keys + {e.id} && u[e.id] == r.row
            && (e.supersedes != "" ==>
                 e.supersedes in t
                   && u[e.supersedes] == t[e.supersedes].(supersededBy := e.id, supersededAt := Some(raw.at)))
            && forall x :: x in t && x != e.supersedes ==> u[x] == t[x]
  {
    var d := Normalize(raw);
    StoreStores(t, d, MarkOf(d, digest));
    NormalTexts(raw, Prior(t, raw));
    NormalGapsAreGiven(raw);
    if Prior(t, raw).Some? { InheritKeepsGaps(d, Prior(t, raw).value, raw); }
    AddedMeans(t, Record(t, digest, raw).1.row.decision, MarkOf(d, digest));
  }

  // ---- evidence ----

  /** Item `i` is the first with the reference of `k`, and `k` is that item, trimmed. */
  predicate IsFirstOf(es: seq<Evidence>, k: Evidence, i: int) {
    && 0 <= i < |es| && k.ref == TrimSpace(es[i].ref) && k.state == TrimSpace(es[i].state)
    && k.detail == TrimSpace(es[i].detail)
    && forall m :: 0 <= m < i ==> TrimSpace(es[m].ref) != k.ref
  }

  lemma {:induction false} FirstShifts(es: seq<Evidence>, k: Evidence, i: nat)
    requires es != [] && IsFirstOf(es[1..], k, i) && TrimSpace(es[0].ref) != k.ref
    ensures IsFirstOf(es, k, i + 1)
  {
    forall m | 0 <= m < i + 1 ensures TrimSpace(es[m].ref) != k.ref {
      if m > 0 { assert es[m] == es[1..][m - 1]; }
    }
  }

  /** Every kept item is the first given one with its reference, trimmed. */
  lemma {:induction false} EvidenceIsFirst(es: seq<Evidence>, seen: set<string>, j: nat) returns (i: nat)
    requires j < |UniqueEvidence(es, seen)|
    ensures IsFirstOf(es, UniqueEvidence(es, seen)[j], i)
    decreases |es|, 1
  {
    var e, k := TrimEvidence(es[0]), UniqueEvidence(es, seen)[j];
    EvidenceIsUnique(es, seen);
    assert NewRef(k, seen);
    if e.ref == "" || e.ref in seen {
      i := EvidenceIsFirst(es[1..], seen, j);
      FirstShifts(es, k, i);
      i := i + 1;
    } else if j == 0 {
      i := 0;
    } else {
      i := LaterIsFirst(es, seen, j);
    }
  }

  lemma {:induction false} LaterIsFirst(es: seq<Evidence>, seen: set<string>, j: nat) returns (i: nat)
    requires 0 < j < |UniqueEvidence(es, seen)| && es != [] && NewRef(TrimEvidence(es[0]), seen)
    ensures IsFirstOf(es, UniqueEvidence(es, seen)[j], i)
    decreases |es|, 0
  {
    var e := TrimEvidence(es[0]);
    var rest := UniqueEvidence(es[1..], seen + {e.ref});
    EvidenceIsUnique(es[1..], seen + {e.ref});
    assert NewRef(rest[j - 1], seen + {e.ref});
    i := EvidenceIsFirst(es[1..], seen + {e.ref}, j - 1);
    FirstShifts(es, rest[j - 1], i);
    i := i + 1;
  }

  // ---- refusals ----

  predicate Known(t: Table, raw: Decision) {
    exists id :: id in t && t[id].decision.request == TrimSpace(raw.request)
  }

  /** A decision that is current is not named as replaced. */
  lemma {:induction false} CurrentIsFree(t: Table, id: string)
    requires ChainInv(t) && id in t && Current(t[id])
    ensures TargetFree(t, id)
  {
    forall x | x in t ensures t[x].decision.supersedes != id || id == "" { assert Linked(t, x); }
  }

  lemma {:induction false} StoreAnswers(t: Table, d: Decision, mark: string)
    requires ByRequest(t, d.request) == {} && d.id != ""
    requires d.supersedes in t && Current(t[d.supersedes]) ==> TargetFree(t, d.supersedes)
    ensures var r := Store(t, d, mark).1;
            if d.supersedes != "" && d.supersedes !in t then r == Failed(NotFound)
            else if d.supersedes != "" && !Current(t[d.supersedes]) then r == Failed(Superseded)
            else if d.id in t then r == Failed(Conflict)
            else r.Saved? && !r.replayed
  {
  }

  /** What a valid request under a new request ID is told: that the decision to replace is unknown, or was replaced
      already, that its own ID is taken, or that it is stored. */
  lemma {:induction false} AnswerIs(t: Table, digest: Payload -> string, raw: Decision)
    requires ChainInv(t) && Valid(Normalize(raw)) && !Known(t, raw)
    ensures var r, sup := Record(t, digest, raw).1, TrimSpace(raw.supersedes);
            if sup != "" && sup !in t then r == Failed(NotFound)
            else if sup != "" && t[sup].supersededBy != "" then r == Failed(Superseded)
            else if TrimSpace(raw.id) in t then r == Failed(Conflict)
            else r.Saved? && !r.replayed
  {
    var d := Normalize(raw);
    if d.supersedes in t && Current(t[d.supersedes]) { CurrentIsFree(t, d.supersedes); }
    StoreAnswers(t, d, MarkOf(d, digest));
  }

  /** Something is missing or too long. */
  predicate IllTexts(raw: Decision) {
    || TrimSpace(raw.id) == "" || TrimSpace(raw.request) == "" || TrimSpace(raw.summary) == ""
    || TrimSpace(raw.rationale) == "" || TrimSpace(raw.author) == "" || raw.at == 0
    || Utf8Len(TrimSpace(raw.id)) > 256 || Utf8Len(TrimSpace(raw.request)) > 256
    || Utf8Len(TrimSpace(raw.operation)) > 1024 || Utf8Len(TrimSpace(raw.repo)) > 4096
    || Utf8Len(TrimSpace(raw.issue)) > 512 || Utf8Len(TrimSpace(raw.summary)) > 2000
    || Utf8Len(TrimSpace(raw.rationale)) > 8000 || Utf8Len(TrimSpace(raw.dissent)) > 4000
    || Utf8Len(TrimSpace(raw.author)) > 256 || Utf8Len(TrimSpace(raw.supersedes)) > 256 || Utf8Len(raw.mark) > 256
  }

  /** Too many kept items, or one that is too long or in no known state. */
  ghost predicate IllEvidence(kept: seq<Evidence>) {
    |kept| > 100
    || exists i :: 0 <= i < |kept| && (Utf8Len(kept[i].ref) > 4096 || Utf8Len(kept[i].detail) > 2000
                                       || (kept[i].state != "available" && kept[i].state != "missing"
                                           && kept[i].state != "external"))
  }

  ghost predicate IllGaps(gaps: seq<string>) {
    |gaps| > 100 || exists i :: 0 <= i < |gaps| && Utf8Len(gaps[i]) > 2000
  }

  lemma {:induction false} IllIsInvalid(raw: Decision)
    ensures var d := Normalize(raw); IllTexts(raw) || IllEvidence(d.evidence) || IllGaps(d.gaps) <==> !Valid(d)
  {
  }

  /** An ill-formed request, and no other, is refused as such, before anything is looked up. */
  lemma {:induction false} InvalidIsRefused(t: Table, digest: Payload -> string, raw: Decision)
    ensures IllTexts(raw) || IllEvidence(Normalize(raw).evidence) || IllGaps(Normalize(raw).gaps) <==>
              Record(t, digest, raw) == (t, Failed(Invalid))
  {
    IllIsInvalid(raw);
    var d := Normalize(raw);
    if Valid(d) { NeverInvalid(t, d, MarkOf(d, digest)); }
  }

  lemma {:induction false} NeverInvalid(t: Table, d: Decision, mark: string)
    ensures Store(t, d, mark).1 != Failed(Invalid)
  {
  }

  // ---- fingerprints ----

  ghost predicate Injective(digest: Payload -> string) {
    forall a, b :: digest(a) == digest(b) ==> a == b
  }

  /** Two requests without a caller's fingerprint are taken for the same iff their texts and evidence references agree;
      everything else, and whatever is inherited, may differ. */
  lemma {:induction false} FingerprintCovers(digest: Payload -> string, a: Decision, b: Decision)
    requires Injective(digest) && a.mark == "" && b.mark == ""
    ensures var d, e := Normalize(a), Normalize(b);
            MarkOf(d, digest) == MarkOf(e, digest) <==>
              && TrimSpace(a.operation) == TrimSpace(b.operation) && TrimSpace(a.repo) == TrimSpace(b.repo)
              && TrimSpace(a.issue) == TrimSpace(b.issue) && TrimSpace(a.summary) == TrimSpace(b.summary)
              && TrimSpace(a.rationale) == TrimSpace(b.rationale) && TrimSpace(a.dissent) == TrimSpace(b.dissent)
              && TrimSpace(a.author) == TrimSpace(b.author) && TrimSpace(a.supersedes) == TrimSpace(b.supersedes)
              && |d.evidence| == |e.evidence|
              && forall i :: 0 <= i < |d.evidence| ==> d.evidence[i].ref == e.evidence[i].ref
  {
    var d, e := Normalize(a), Normalize(b);
    var p, q := PayloadOf(d), PayloadOf(e);
    if |d.evidence| == |e.evidence| && forall i :: 0 <= i < |d.evidence| ==> d.evidence[i].ref == e.evidence[i].ref {
      assert p.refs == q.refs;
    }
    if p.refs == q.refs {
      forall i | 0 <= i < |d.evidence| ensures d.evidence[i].ref == e.evidence[i].ref {
        assert p.refs[i] == q.refs[i];
      }
    }
  }
}
