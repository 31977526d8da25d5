/** Who may change what: for each of the coordinator's tables, the only events that change it, when they do, and to
    what. */
module RelayChanges {
  import opened Basics
  import opened RelayTables
  import opened RelayLease
  import opened RelayReceipts
  import opened RelayHandlers
  import opened RelayWorld
  import opened RelaySafety
  import opened RelayReach

  /** The task is known to the coordinator and not disabled. */
  predicate Open(t: Tables, host: string, thread: string) {
    (host, thread) in t.tasks && t.tasks[(host, thread)].enabled
  }

  /** No message for the same host that could be claimed comes before this one in time, or at the same time in ID. */
  ghost predicate IsOldest(t: Tables, id: string)
    requires id in t.messages
  {
    var row := t.messages[id];
    forall x :: x in t.messages && t.messages[x].state == Queued && t.messages[x].target == row.target
                && Open(t, row.target, t.messages[x].thread) && x != id ==>
      row.created < t.messages[x].created || (row.created == t.messages[x].created && Less(id, x))
  }

  predicate MayBecome(from: State, to: State) {
    match from
    case Dispatching => to in {Submitted, Uncertain, Acknowledged}
    case Submitted => to == Acknowledged
    case Uncertain => to == Acknowledged
    case Acknowledged => to == Completed
    case _ => false
  }

  // ---- what each batch does to a row ----

  lemma {:induction false} SendChange(t: Tables, q: Quota, host: string, b: MessageBody, now: int, id: string)
    requires id in SendBatch(t, q, host, b, now).messages
    ensures id in t.messages ==> SendBatch(t, q, host, b, now).messages[id] == t.messages[id]
    ensures id !in t.messages ==>
              && id == MessageId(host, b.request) && Open(t, b.target, b.thread)
              && SendBatch(t, q, host, b, now).messages[id]
                 == Row(host, b.request, b.target, b.thread, b.prompt, Queued, "", "", "", now, now, |t.born|)
  {
  }

  lemma {:induction false} LeasedIsOldest(t: Tables, host: string, id: string)
    requires OldestQueued(t, host) == Some(id)
    ensures Open(t, host, t.messages[id].thread) && IsOldest(t, id)
  {
    forall x | x in t.messages && t.messages[x].state == Queued && t.messages[x].target == host
               && Open(t, host, t.messages[x].thread) && x != id
      ensures t.messages[id].created < t.messages[x].created
              || (t.messages[id].created == t.messages[x].created && Less(id, x))
    {
      assert IsClaimable(t, host, x);
      assert (t.messages[x].created, x) in Claimable(t, host);
    }
  }

  lemma {:induction false} ClaimTarget(t: Tables, q: Quota, host: string, request: string, now: int, id: string)
    requires LeaseInv(t) && LeaseTarget(t.messages, AttemptInsert(t, q, host, request, now), host, request) == Some(id)
    ensures (host, request) !in t.attempts && OldestQueued(t, host) == Some(id)
  {
    assert (host, request) in t.attempts ==> AttemptOk(t, (host, request));
  }

  lemma {:induction false} ClaimChange(t: Tables, q: Quota, host: string, request: string, now: int, id: string)
    requires LeaseInv(t) && id in t.messages && ClaimBatch(t, q, host, request, now).messages[id] != t.messages[id]
    ensures t.messages[id].state == Queued && t.messages[id].target == host && Open(t, host, t.messages[id].thread)
    ensures IsOldest(t, id) && (host, request) !in t.attempts
    ensures ClaimBatch(t, q, host, request, now).messages[id]
            == t.messages[id].(state := Dispatching, attempt := request, updated := now)
  {
    ClaimTarget(t, q, host, request, now, id);
    LeasedIsOldest(t, host, id);
  }

  lemma {:induction false} ReportChange(t: Tables, host: string, b: ReceiptBody, now: int, id: string)
    requires ReceiptsInv(t) && id in t.messages && ReceiptBatch(t, host, b, now).messages[id] != t.messages[id]
    ensures id == b.message && t.messages[id].target == host && MayBecome(t.messages[id].state, b.state)
    ensures var row := t.messages[id];
            ReceiptBatch(t, host, b, now).messages[id]
            == row.(state := b.state, evidence := b.evidence, updated := now,
                    submission := if b.submission != "" then b.submission else row.submission)
    ensures ReceiptBatch(t, host, b, now).receipts
            == t.receipts + [Receipt(host, b.request, id, b.state, b.submission, b.evidence, now)]
  {
    ReceiptInsertedIffMoved(t, host, b, now);
  }

  // ---- messages, in every run ----

  /** The request whose batch the event commits, if it commits one. */
  function Committed(w: World, ev: Event): Option<Call> {
    if ev.Handle? && ev.hid in w.handlers && w.handlers[ev.hid].1 == Committing then Some(w.handlers[ev.hid].0)
    else None
  }

  lemma {:induction false} TablesNext(ws: seq<World>, evs: seq<Event>, n: nat)
    requires IsRun(ws, evs) && Initial(ws[0]) && n + 1 < |ws|
    ensures TablesInv(ws[n].t)
    ensures var c := Committed(ws[n], evs[n]);
            ws[n + 1].t == if c.Some? then Batch(ws[n].t, ws[n].q, c.value)
                           else if evs[n].Retain? then Compact(ws[n].t, evs[n].cutoff)
                           else ws[n].t
    ensures var c := Committed(ws[n], evs[n]);
            c.Some? ==> StageOk(c.value, Committing)
  {
    Reachable(ws, evs, n);
    var w, ev := ws[n], evs[n];
    if ev.Handle? {
      assert HandlerOk(FactsOf(w), w.forged, w.handlers[ev.hid]);
      StepWritesOnlyItsBatch(w.t, w.q, w.handlers[ev.hid].0, w.handlers[ev.hid].1);
    }
  }

  /** A send of valid content to an open task, under the sender's own request ID. */
  ghost predicate Inserts(t: Tables, c: Call, id: string, row: Row) {
    && c.Send? && id == MessageId(c.host, c.message.request) && Open(t, c.message.target, c.message.thread)
    && IsUuid(c.message.request) && IsHost(c.message.target) && IsUuid(c.message.thread)
    && c.message.prompt != "" && Utf8Len(c.message.prompt) <= 16384
    && row == Row(c.host, c.message.request, c.message.target, c.message.thread, c.message.prompt, Queued, "", "", "",
                  c.now, c.now, |t.born|)
  }

  /** A claim by the target, under an attempt ID of its own that is new, of the oldest message it can claim. */
  ghost predicate Takes(t: Tables, c: Call, id: string, row: Row)
    requires id in t.messages
  {
    var was := t.messages[id];
    && c.Claim? && was.state == Queued && was.target == c.host && Open(t, c.host, was.thread) && IsOldest(t, id)
    && (c.host, c.request) !in t.attempts
    && row == was.(state := Dispatching, attempt := c.request, updated := c.now)
  }

  /** A valid report by the target, of a state that may follow. */
  ghost predicate Moves(t: Tables, c: Call, id: string, row: Row)
    requires id in t.messages
  {
    var was := t.messages[id];
    && c.Report? && c.receipt.message == id && was.target == c.host && MayBecome(was.state, c.receipt.state)
    && IsUuid(c.receipt.request) && (c.receipt.submission == "" || IsUuid(c.receipt.submission))
    && (c.receipt.state == Submitted ==> c.receipt.submission != "") && Utf8Len(c.receipt.evidence) <= 2048
    && (c.receipt.state in {Acknowledged, Completed} ==> c.receipt.evidence != "")
    && row == was.(state := c.receipt.state, evidence := c.receipt.evidence, updated := c.now,
                   submission := if c.receipt.submission != "" then c.receipt.submission else was.submission)
  }

  lemma {:induction false} BatchInserts(t: Tables, q: Quota, c: Call, id: string)
    requires StageOk(c, Committing) && id in Batch(t, q, c).messages && id !in t.messages
    ensures Inserts(t, c, id, Batch(t, q, c).messages[id])
  {
    if c.Send? { SendChange(t, q, c.host, c.message, c.now, id); }
  }

  lemma {:induction false} BatchMoves(t: Tables, q: Quota, c: Call, id: string)
    requires TablesInv(t) && StageOk(c, Committing) && id in t.messages && id in Batch(t, q, c).messages
    requires Batch(t, q, c).messages[id] != t.messages[id]
    ensures Takes(t, c, id, Batch(t, q, c).messages[id]) || Moves(t, c, id, Batch(t, q, c).messages[id])
  {
    match c
    case Send(h, b, n) => SendChange(t, q, h, b, n, id);
    case Claim(h, r, n) => ClaimChange(t, q, h, r, n, id);
    case Report(h, b, n) =>
      if ReceiptBatch(t, h, b, n).messages[id] != t.messages[id] { ReportChange(t, h, b, n, id); }
    case _ =>
  }

  /** In every run a message appears only by a valid send to an open task, exactly as sent; and afterwards changes only
      by its target's claim, oldest first, or by its target's valid reports. */
  lemma {:induction false} MessagesChangeBy(ws: seq<World>, evs: seq<Event>, n: nat, id: string)
    requires IsRun(ws, evs) && Initial(ws[0]) && n + 1 < |ws| && id in ws[n + 1].t.messages
    ensures var c, row := Committed(ws[n], evs[n]), ws[n + 1].t.messages[id];
            if id !in ws[n].t.messages then c.Some? && Inserts(ws[n].t, c.value, id, row)
            else
              || row == ws[n].t.messages[id]
              || (c.Some? && Takes(ws[n].t, c.value, id, row))
              || (c.Some? && Moves(ws[n].t, c.value, id, row))
  {
    TablesNext(ws, evs, n);
    var c := Committed(ws[n], evs[n]);
    if c.Some? {
      if id !in ws[n].t.messages {
        BatchInserts(ws[n].t, ws[n].q, c.value, id);
      } else if ws[n + 1].t.messages[id] != ws[n].t.messages[id] {
        BatchMoves(ws[n].t, ws[n].q, c.value, id);
      }
    }
  }

  // ---- the other tables ----

  lemma {:induction false} BatchTasks(t: Tables, q: Quota, c: Call, k: (string, string))
    ensures k in t.tasks ==> k in Batch(t, q, c).tasks
    ensures k in Batch(t, q, c).tasks ==>
              || (k in t.tasks && Batch(t, q, c).tasks[k] == t.tasks[k])
              || (c.Register? && k == (c.host, c.thread)
                   && Batch(t, q, c).tasks[k] == Task(c.title, c.enabled, c.now))
  {
  }

  /** In every run a task is never removed, and changes only by a registration by its host, to exactly what it says. */
  lemma {:induction false} TasksChangeBy(ws: seq<World>, evs: seq<Event>, n: nat, k: (string, string))
    requires IsRun(ws, evs) && Initial(ws[0]) && n + 1 < |ws|
    ensures k in ws[n].t.tasks ==> k in ws[n + 1].t.tasks
    ensures var c := Committed(ws[n], evs[n]);
            k in ws[n + 1].t.tasks ==>
              || (k in ws[n].t.tasks && ws[n + 1].t.tasks[k] == ws[n].t.tasks[k])
              || (c.Some? && c.value.Register? && k == (c.value.host, c.value.thread)
                   && ws[n + 1].t.tasks[k] == Task(c.value.title, c.value.enabled, c.value.now))
  {
    TablesNext(ws, evs, n);
    var c := Committed(ws[n], evs[n]);
    if c.Some? { BatchTasks(ws[n].t, ws[n].q, c.value, k); }
  }

  /** A claim's attempt names the message it took, or none when there was nothing to claim. */
  ghost predicate Attempts(t: Tables, c: Call, k: (string, string), a: Attempt) {
    && c.Claim? && k == (c.host, c.request) && a.created == c.now
    && match a.message
       case None => forall x :: x in t.messages && t.messages[x].state == Queued && t.messages[x].target == c.host ==>
         !Open(t, c.host, t.messages[x].thread)
       case Some(id) => id in t.messages && Takes(t, c, id, t.messages[id].(state := Dispatching, attempt := c.request,
                                                                           updated := c.now))
  }

  lemma {:induction false} ClaimableIsFound(t: Tables, host: string, id: string)
    ensures IsClaimable(t, host, id) ==> OldestQueued(t, host).Some?
  {
    if IsClaimable(t, host, id) { assert (t.messages[id].created, id) in Claimable(t, host); }
  }

  lemma {:induction false} ClaimAttempts(t: Tables, q: Quota, host: string, request: string, now: int)
    requires (host, request) !in t.attempts && (host, request) in ClaimBatch(t, q, host, request, now).attempts
    ensures Attempts(t, Claim(host, request, now), (host, request),
              ClaimBatch(t, q, host, request, now).attempts[(host, request)])
  {
    var o := OldestQueued(t, host);
    if o.Some? {
      LeasedIsOldest(t, host, o.value);
    } else {
      forall x | x in t.messages && t.messages[x].state == Queued && t.messages[x].target == host
        ensures !Open(t, host, t.messages[x].thread)
      {
        ClaimableIsFound(t, host, x);
      }
    }
  }

  lemma {:induction false} BatchAttempts(t: Tables, q: Quota, c: Call, k: (string, string))
    ensures k in t.attempts ==> k in Batch(t, q, c).attempts && Batch(t, q, c).attempts[k] == t.attempts[k]
    ensures k in Batch(t, q, c).attempts && k !in t.attempts ==> Attempts(t, c, k, Batch(t, q, c).attempts[k])
  {
    if k in Batch(t, q, c).attempts && k !in t.attempts {
      ClaimAttempts(t, q, c.host, c.request, c.now);
    }
  }

  /** In every run an attempt appears only by a claim under its ID, for the oldest message that could be claimed or for
      none if there was none; never changes; and disappears only by retention, with its message, or if it has none and
      is older than the cutoff. */
  lemma {:induction false} AttemptsChangeBy(ws: seq<World>, evs: seq<Event>, n: nat, k: (string, string))
    requires IsRun(ws, evs) && Initial(ws[0]) && n + 1 < |ws|
    ensures var t, u, c := ws[n].t, ws[n + 1].t, Committed(ws[n], evs[n]);
            && (k in u.attempts && k !in t.attempts ==> c.Some? && Attempts(t, c.value, k, u.attempts[k]))
            && (k in u.attempts && k in t.attempts ==> u.attempts[k] == t.attempts[k])
            && (k in t.attempts ==>
                 (k !in u.attempts <==>
                   && evs[n].Retain?
                   && match t.attempts[k].message
                      case Some(id) => id !in u.messages
                      case None => t.attempts[k].created < evs[n].cutoff))
  {
    TablesNext(ws, evs, n);
    var c := Committed(ws[n], evs[n]);
    if c.Some? {
      BatchAttempts(ws[n].t, ws[n].q, c.value, k);
    } else if k in ws[n].t.attempts {
      assert AttemptOk(ws[n].t, k);
    }
  }

  lemma {:induction false} BatchReceipts(t: Tables, q: Quota, c: Call)
    requires TablesInv(t)
    ensures var u := Batch(t, q, c);
            || u.receipts == t.receipts
            || (c.Report? && c.receipt.message in t.messages && c.receipt.message in u.messages
                 && u.messages[c.receipt.message] != t.messages[c.receipt.message]
                 && u.receipts == t.receipts + [Receipt(c.host, c.receipt.request, c.receipt.message, c.receipt.state,
                                                        c.receipt.submission, c.receipt.evidence, c.now)])
  {
    if c.Report? {
      ReceiptInsertedIffMoved(t, c.host, c.receipt, c.now);
    }
  }

  /** In every run receipts are only appended, one at a time, by a report that moves its message and with its content,
      until retention removes the message. */
  lemma {:induction false} ReceiptsChangeBy(ws: seq<World>, evs: seq<Event>, n: nat)
    requires IsRun(ws, evs) && Initial(ws[0]) && n + 1 < |ws| && !evs[n].Retain?
    ensures var t, u, c := ws[n].t, ws[n + 1].t, Committed(ws[n], evs[n]);
            || u.receipts == t.receipts
            || (c.Some? && c.value.Report? && c.value.receipt.message in t.messages
                 && c.value.receipt.message in u.messages
                 && Moves(t, c.value, c.value.receipt.message, u.messages[c.value.receipt.message])
                 && u.receipts == t.receipts
                      + [Receipt(c.value.host, c.value.receipt.request, c.value.receipt.message, c.value.receipt.state,
                                 c.value.receipt.submission, c.value.receipt.evidence, c.value.now)])
  {
    TablesNext(ws, evs, n);
    var c := Committed(ws[n], evs[n]);
    if c.Some? {
      BatchReceipts(ws[n].t, ws[n].q, c.value);
      if ws[n + 1].t.receipts != ws[n].t.receipts {
        BatchMoves(ws[n].t, ws[n].q, c.value, c.value.receipt.message);
      }
    }
  }
}
