/** What a message row shows, in every reachable world: its own name, the last thing its receipts said, and the last
    submission ID that any of them carried. */
module RelayRows {
  import opened Basics
  import opened RelayTables
  import opened RelayLease
  import opened RelayReceipts
  import opened RelayHandlers
  import opened RelayWorld
  import opened RelaySafety
  import opened RelayReach

  /** A receipt of this message - that carries a submission ID, if asked for. */
  predicate Counts(r: Receipt, id: string, named: bool) {
    r.message == id && (named ==> r.submission != "")
  }

  /** The last such receipt, in insertion order. */
  function LastOf(rs: seq<Receipt>, id: string, named: bool): Option<Receipt> {
    if rs == [] then None
    else
      var later := LastOf(rs[1..], id, named);
      if later.Some? then later else if Counts(rs[0], id, named) then Some(rs[0]) else None
  }

  ghost predicate IsLast(rs: seq<Receipt>, i: int, id: string, named: bool) {
    0 <= i < |rs| && Counts(rs[i], id, named) && forall j :: i < j < |rs| ==> !Counts(rs[j], id, named)
  }

  lemma {:induction false} LastMeans(rs: seq<Receipt>, id: string, named: bool)
    ensures match LastOf(rs, id, named)
            case Some(r) => exists i :: IsLast(rs, i, id, named) && rs[i] == r
            case None => forall i :: 0 <= i < |rs| ==> !Counts(rs[i], id, named)
  {
    if rs != [] {
      LastMeans(rs[1..], id, named);
      var later := LastOf(rs[1..], id, named);
      assert forall j :: 0 < j < |rs| ==> rs[j] == rs[1..][j - 1];
      if later.Some? {
        var i :| IsLast(rs[1..], i, id, named) && rs[1..][i] == later.value;
        assert IsLast(rs, i + 1, id, named);
      } else if Counts(rs[0], id, named) {
        assert IsLast(rs, 0, id, named);
      }
    }
  }

  lemma {:induction false} LastAppend(rs: seq<Receipt>, r: Receipt, id: string, named: bool)
    ensures LastOf(rs + [r], id, named) == if Counts(r, id, named) then Some(r) else LastOf(rs, id, named)
  {
    if rs == [] {
      assert rs + [r] == [r];
    } else {
      LastAppend(rs[1..], r, id, named);
      assert (rs + [r])[0] == rs[0] && (rs + [r])[1..] == rs[1..] + [r];
    }
  }

  lemma {:induction false} LastOfNone(rs: seq<Receipt>, id: string, named: bool)
    requires History(rs, id) == []
    ensures LastOf(rs, id, named) == None
  {
    if rs != [] {
      LastOfNone(rs[1..], id, named);
    }
  }

  lemma {:induction false} LastWithout(rs: seq<Receipt>, gone: set<string>, id: string, named: bool)
    requires id !in gone
    ensures LastOf(Without(rs, gone), id, named) == LastOf(rs, id, named)
  {
    if rs != [] {
      LastWithout(rs[1..], gone, id, named);
      if rs[0].message !in gone {
        assert Without(rs, gone)[1..] == Without(rs[1..], gone);
      }
    }
  }

  // ---- the invariant ----

  ghost predicate RowShows(t: Tables, id: string)
    requires id in t.messages
  {
    var row := t.messages[id];
    var named := LastOf(t.receipts, id, true);
    && id == MessageId(row.sender, row.request)
    && row.submission == (if named.Some? then named.value.submission else "")
    && match LastOf(t.receipts, id, false)
       case Some(r) => row.state == r.state && row.evidence == r.evidence && row.updated == r.created
       case None => row.evidence == "" && Unreported(t, row)
  }

  /** A row without receipts waits since it was sent, or is being dispatched since it was claimed. */
  predicate Unreported(t: Tables, row: Row) {
    match row.state
    case Queued => row.updated == row.created
    case Dispatching =>
      (row.target, row.attempt) in t.attempts && row.updated == t.attempts[(row.target, row.attempt)].created
    case _ => false
  }

  ghost predicate AllShow(t: Tables) {
    forall id :: id in t.messages ==> RowShows(t, id)
  }

  lemma {:induction false} TaskShows(t: Tables, q: Quota, host: string, thread: string, title: string, enabled: bool,
          now: int)
    requires AllShow(t)
    ensures AllShow(TaskBatch(t, q, host, thread, title, enabled, now))
  {
    var u := TaskBatch(t, q, host, thread, title, enabled, now);
    forall id | id in u.messages ensures RowShows(u, id) { assert RowShows(t, id); }
  }

  lemma {:induction false} SendShows(t: Tables, q: Quota, host: string, b: MessageBody, now: int)
    requires AllShow(t) && ReceiptsInv(t)
    ensures AllShow(SendBatch(t, q, host, b, now))
  {
    var u := SendBatch(t, q, host, b, now);
    forall id | id in u.messages ensures RowShows(u, id) {
      if id in t.messages {
        assert RowShows(t, id);
      } else {
        HistoryOfNone(t.receipts, id);
        LastOfNone(t.receipts, id, false);
        LastOfNone(t.receipts, id, true);
      }
    }
  }

  lemma {:induction false} ClaimShows(t: Tables, q: Quota, host: string, request: string, now: int)
    requires AllShow(t) && TablesInv(t)
    ensures AllShow(ClaimBatch(t, q, host, request, now))
  {
    var u := ClaimBatch(t, q, host, request, now);
    forall id | id in u.messages ensures RowShows(u, id) {
      assert RowShows(t, id) && RowLeased(t, id);
      ClaimedShows(t, q, host, request, now, id);
    }
  }

  /** The attempt that leases a message was recorded in the same batch, for the message's own target. */
  lemma {:induction false} LeasedNow(t: Tables, q: Quota, host: string, request: string, now: int, id: string)
    requires LeaseInv(t) && LeaseTarget(t.messages, AttemptInsert(t, q, host, request, now), host, request) == Some(id)
    ensures (host, request) !in t.attempts && t.messages[id].target == host && t.messages[id].state == Queued
    ensures AttemptInsert(t, q, host, request, now)[(host, request)].created == now
  {
    assert (host, request) in t.attempts ==> AttemptOk(t, (host, request));
  }

  lemma {:induction false} ClaimKeepsOthers(t: Tables, q: Quota, host: string, request: string, now: int)
    ensures var u := ClaimBatch(t, q, host, request, now);
            && u.receipts == t.receipts
            && forall k :: k in t.attempts ==> k in u.attempts && u.attempts[k] == t.attempts[k]
  {
  }

  lemma {:induction false} LeasedShows(t: Tables, u: Tables, id: string, host: string, request: string, now: int)
    requires TablesInv(t) && id in t.messages && RowShows(t, id) && t.messages[id].state == Queued
    requires id in u.messages && u.receipts == t.receipts && t.messages[id].target == host
    requires u.messages[id] == t.messages[id].(state := Dispatching, attempt := request, updated := now)
    requires (host, request) in u.attempts && u.attempts[(host, request)].created == now
    ensures RowShows(u, id)
  {
    assert PathTo(History(t.receipts, id), t.messages[id].state);
    LastOfNone(t.receipts, id, false);
    LastOfNone(t.receipts, id, true);
  }

  lemma {:induction false} KeptShows(t: Tables, u: Tables, id: string)
    requires id in t.messages && RowShows(t, id) && id in u.messages && u.messages[id] == t.messages[id]
    requires u.receipts == t.receipts
    requires forall k :: k in t.attempts ==> k in u.attempts && u.attempts[k] == t.attempts[k]
    ensures RowShows(u, id)
  {
  }

  lemma {:induction false} ClaimedShows(t: Tables, q: Quota, host: string, request: string, now: int, id: string)
    requires TablesInv(t) && id in t.messages && RowShows(t, id)
    ensures id in ClaimBatch(t, q, host, request, now).messages && RowShows(ClaimBatch(t, q, host, request, now), id)
  {
    var u := ClaimBatch(t, q, host, request, now);
    ClaimKeepsOthers(t, q, host, request, now);
    if LeaseTarget(t.messages, AttemptInsert(t, q, host, request, now), host, request) == Some(id) {
      LeasedNow(t, q, host, request, now, id);
      LeasedShows(t, u, id, host, request, now);
    } else {
      KeptShows(t, u, id);
    }
  }

  lemma {:induction false} ReportShows(t: Tables, host: string, b: ReceiptBody, now: int)
    requires AllShow(t) && ReceiptsInv(t)
    ensures AllShow(ReceiptBatch(t, host, b, now))
  {
    var u := ReceiptBatch(t, host, b, now);
    ReceiptInsertedIffMoved(t, host, b, now);
    forall id | id in u.messages ensures RowShows(u, id) {
      assert RowShows(t, id);
      if Projects(t, host, b, now) {
        var r := Receipt(host, b.request, b.message, b.state, b.submission, b.evidence, now);
        LastAppend(t.receipts, r, id, false);
        LastAppend(t.receipts, r, id, true);
      }
    }
  }

  lemma {:induction false} CompactShows(t: Tables, cutoff: int)
    requires AllShow(t) && LeaseInv(t)
    ensures AllShow(Compact(t, cutoff))
  {
    var u := Compact(t, cutoff);
    var gone := set id | id in t.messages && Expired(t, cutoff, id);
    forall id | id in u.messages ensures RowShows(u, id) {
      assert RowShows(t, id) && RowLeased(t, id);
      LastWithout(t.receipts, gone, id, false);
      LastWithout(t.receipts, gone, id, true);
    }
  }

  lemma {:induction false} BatchShows(t: Tables, q: Quota, c: Call)
    requires AllShow(t) && TablesInv(t)
    ensures AllShow(Batch(t, q, c))
  {
    match c
    case Register(h, th, ti, e, n) => TaskShows(t, q, h, th, ti, e, n);
    case Send(h, b, n) => SendShows(t, q, h, b, n);
    case Claim(h, r, n) => ClaimShows(t, q, h, r, n);
    case Report(h, b, n) => ReportShows(t, h, b, n);
    case _ =>
  }

  lemma {:induction false} NextShows(w: World, ev: Event)
    requires Inv(w) && AllShow(w.t) && Enabled(w, ev)
    ensures AllShow(Apply(w, ev).t)
  {
    if ev.Handle? {
      var h := w.handlers[ev.hid];
      StepWritesOnlyItsBatch(w.t, w.q, h.0, h.1);
      BatchShows(w.t, w.q, h.0);
    } else if ev.Retain? {
      CompactShows(w.t, ev.cutoff);
    }
  }

  lemma {:induction false} AlwaysShow(ws: seq<World>, evs: seq<Event>, n: nat)
    requires IsRun(ws, evs) && Initial(ws[0]) && n < |ws|
    ensures AllShow(ws[n].t)
  {
    if n > 0 {
      AlwaysShow(ws, evs, n - 1);
      Reachable(ws, evs, n - 1);
      NextShows(ws[n - 1], evs[n - 1]);
    }
  }

  // ---- the promises ----

  /** In every reachable world a row is named after its sender and request; without receipts it is queued or being
      dispatched and has neither submission ID nor evidence; with receipts, its state, evidence and time are those of
      the last one, and its submission ID is that of the last one that carried any. */
  lemma {:induction false} RowsShowTheirReceipts(ws: seq<World>, evs: seq<Event>, n: nat, id: string)
    requires IsRun(ws, evs) && Initial(ws[0]) && n < |ws| && id in ws[n].t.messages
    ensures var t := ws[n].t;
            var row := t.messages[id];
            && id == MessageId(row.sender, row.request)
            && (forall i :: IsLast(t.receipts, i, id, false) ==>
                 var r := t.receipts[i]; row.state == r.state && row.evidence == r.evidence && row.updated == r.created)
            && (forall i :: IsLast(t.receipts, i, id, true) ==> row.submission == t.receipts[i].submission)
            && ((forall i :: !IsLast(t.receipts, i, id, false)) ==> row.evidence == "" && Unreported(t, row))
            && ((forall i :: !IsLast(t.receipts, i, id, true)) ==> row.submission == "")
  {
    AlwaysShow(ws, evs, n);
    var t := ws[n].t;
    assert RowShows(t, id);
    LastMeans(t.receipts, id, false);
    LastMeans(t.receipts, id, true);
  }

  /** A submission ID, once shown, is never replaced by none while the row lives. */
  lemma {:induction false} SubmissionIsKept(ws: seq<World>, evs: seq<Event>, n: nat, id: string)
    requires IsRun(ws, evs) && Initial(ws[0]) && n + 1 < |ws|
    requires id in ws[n].t.messages && id in ws[n + 1].t.messages && ws[n].t.messages[id].submission != ""
    ensures ws[n + 1].t.messages[id].submission != ""
  {
    var w, ev := ws[n], evs[n];
    assert Enabled(w, ev);
    if ev.Handle? {
      var h := w.handlers[ev.hid];
      StepWritesOnlyItsBatch(w.t, w.q, h.0, h.1);
    }
  }
}
