/** What an undisturbed request is answered, from the tables it meets: every refusal with its exact condition. */
module RelayAnswers {
  import opened Basics
  import opened RelayTables
  import opened RelayLease
  import opened RelayReceipts
  import opened RelayHandlers
  import opened RelayProgress
  import opened RelayService
  import opened RelayQuotas
  import opened RelayChanges

  ghost function AnswerTo(t: Tables, q: Quota, c: Call): Response {
    RunCall(t, q, c).1
  }

  // ---- registrations ----

  /** 400 for a malformed thread or title; 429 for a new task over the quota; else registered. */
  lemma {:induction false} RegisterAnswers(t: Tables, q: Quota, host: string, thread: string, title: string,
          enabled: bool, now: int)
    ensures AnswerTo(t, q, Call.Register(host, thread, title, enabled, now)) ==
            if !IsUuid(thread) || title == "" || Utf8Len(title) > 200 then Refused(400)
            else if (host, thread) !in t.tasks && |HostTasks(t, host)| >= q.tasksPerHost then Refused(429)
            else Registered
  {
    if IsUuid(thread) && IsText(title, 200) {
      RunRegister(t, q, host, thread, title, enabled, now);
    } else {
      assert RegisterStep(t, q, Call.Register(host, thread, title, enabled, now), Arrived).1 == Answered(Refused(400));
    }
  }

  // ---- sends ----

  /** The stored row has this target, thread and prompt. */
  predicate SameMessage(row: Row, b: MessageBody) {
    row.target == b.target && row.thread == b.thread && row.prompt == b.prompt
  }

  /** A malformed message. */
  predicate Malformed(b: MessageBody) {
    || !IsUuid(b.request) || !IsHost(b.target) || !IsUuid(b.thread)
    || b.prompt == "" || Utf8Len(b.prompt) > 16384
  }

  lemma {:induction false} StoredSendAnswers(t: Tables, q: Quota, host: string, b: MessageBody, now: int)
    requires !Malformed(b) && MessageId(host, b.request) in t.messages
    ensures var id := MessageId(host, b.request);
            AnswerTo(t, q, Call.Send(host, b, now)) ==
            if SameMessage(t.messages[id], b) then Shown(View(id, t.messages[id])) else Refused(409)
  {
    assert SendStep(t, q, Call.Send(host, b, now), Arrived).1.Answered?;
  }

  lemma {:induction false} NewSendAnswers(t: Tables, q: Quota, host: string, b: MessageBody, now: int)
    requires !Malformed(b) && MessageId(host, b.request) !in t.messages
    ensures var id := MessageId(host, b.request);
            AnswerTo(t, q, Call.Send(host, b, now)) ==
            if !Open(t, b.target, b.thread) then Refused(409)
            else if MeetsQuota(t, q, Call.Send(host, b, now)) then Refused(429)
            else Shown(View(id, Row(host, b.request, b.target, b.thread, b.prompt, Queued, "", "", "", now, now,
                                    |t.born|)))
  {
    RunNewSend(t, q, host, b, now);
  }

  /** 400 for malformed content; a stored message is shown again, or 409 if it differs; a new one meets 409 if its task
      is not open and 429 if a quota is met, and is shown as queued otherwise. */
  lemma {:induction false} SendAnswers(t: Tables, q: Quota, host: string, b: MessageBody, now: int)
    ensures var id, a := MessageId(host, b.request), AnswerTo(t, q, Call.Send(host, b, now));
            if Malformed(b) then a == Refused(400)
            else if id in t.messages then
              a == if SameMessage(t.messages[id], b) then Shown(View(id, t.messages[id])) else Refused(409)
            else if !Open(t, b.target, b.thread) then a == Refused(409)
            else if MeetsQuota(t, q, Call.Send(host, b, now)) then a == Refused(429)
            else a == Shown(View(id, Row(host, b.request, b.target, b.thread, b.prompt, Queued, "", "", "", now, now,
                                         |t.born|)))
  {
    if Malformed(b) {
      assert SendStep(t, q, Call.Send(host, b, now), Arrived).1 == Answered(Refused(400));
    } else if MessageId(host, b.request) in t.messages {
      StoredSendAnswers(t, q, host, b, now);
    } else {
      NewSendAnswers(t, q, host, b, now);
    }
  }

  // ---- claims ----

  /** The message the attempt names, as it stands now. */
  function Held(t: Tables, k: (string, string)): Option<View>
    requires k in t.attempts
  {
    match t.attempts[k].message
    case Some(id) => if id in t.messages then Some(View(id, t.messages[id])) else None
    case None => None
  }

  /** 400 for a malformed attempt ID; a stored attempt delivers what it holds again; a new one meets 429 at the quota,
      and otherwise delivers what it took. */
  lemma {:induction false} ClaimAnswers(t: Tables, q: Quota, host: string, request: string, now: int)
    requires LeaseInv(t)
    ensures var u, k, a := RunCall(t, q, Claim(host, request, now)).0, (host, request),
                           AnswerTo(t, q, Claim(host, request, now));
            if !IsUuid(request) then a == Refused(400)
            else if k in t.attempts then a == Delivered(Held(t, k))
            else if |HostAttempts(t, host)| >= q.attemptsPerHost then a == Refused(429)
            else k in u.attempts && a == Delivered(Held(u, k))
  {
    if IsUuid(request) {
      RunClaim(t, q, host, request, now);
      if (host, request) in t.attempts { RunKnownClaim(t, q, host, request, now); }
    } else {
      assert ClaimStep(t, q, Claim(host, request, now), Arrived).1 == Answered(Refused(400));
    }
  }

  // ---- reports ----

  predicate Ill(b: ReceiptBody) {
    || !IsUuid(b.request) || b.message == "" || Utf8Len(b.message) > 110
    || b.state in {Queued, Dispatching} || (b.submission != "" && !IsUuid(b.submission))
    || Utf8Len(b.evidence) > 2048 || (b.state == Submitted && b.submission == "")
    || (b.state in {Acknowledged, Completed} && b.evidence == "")
  }

  /** The same message, state, submission and evidence. */
  predicate SameReport(r: Receipt, b: ReceiptBody) {
    r.message == b.message && r.state == b.state && r.submission == b.submission && r.evidence == b.evidence
  }

  lemma {:induction false} IllIsInvalid(b: ReceiptBody)
    ensures Ill(b) <==> !ValidReceipt(b)
  {
    if b.submission == "" { assert !IsUuid(b.submission); }
  }

  /** 400 for malformed content; a stored receipt is returned again, or 409 if the content differs; a new one is stored
      if it comes from the message's target and its state may follow, and meets 409 otherwise. */
  lemma {:induction false} ReportAnswers(t: Tables, q: Quota, host: string, b: ReceiptBody, now: int)
    ensures var a, stored := AnswerTo(t, q, Report(host, b, now)), FindReceipt(t.receipts, host, b.request);
            if Ill(b) then a == Refused(400)
            else if stored.Some? then a == if SameReport(stored.value, b) then Receipted(stored.value) else Refused(409)
            else if b.message in t.messages && t.messages[b.message].target == host
                    && MayBecome(t.messages[b.message].state, b.state)
            then a == Receipted(Receipt(host, b.request, b.message, b.state, b.submission, b.evidence, now))
            else a == Refused(409)
  {
    IllIsInvalid(b);
    if Ill(b) {
      assert ReportStep(t, Report(host, b, now), Arrived).1 == Answered(Refused(400));
    } else if FindReceipt(t.receipts, host, b.request).Some? {
      RunStoredReport(t, q, host, b, now);
    } else {
      RunNewReport(t, q, host, b, now);
      NewReport(t, host, b, now);
    }
  }

  lemma {:induction false} NewReport(t: Tables, host: string, b: ReceiptBody, now: int)
    requires FindReceipt(t.receipts, host, b.request).None? && Reportable(b.state)
    ensures FindReceipt(ReceiptBatch(t, host, b, now).receipts, host, b.request)
            == if b.message in t.messages && t.messages[b.message].target == host
                  && MayBecome(t.messages[b.message].state, b.state)
               then Some(Receipt(host, b.request, b.message, b.state, b.submission, b.evidence, now)) else None
  {
    FindAppended(t.receipts, Receipt(host, b.request, b.message, b.state, b.submission, b.evidence, now));
  }

  // ---- reads ----

  /** 400 for a malformed ID, 404 for a message that is not there or not the reader's, sent or received; else the
      row. */
  lemma {:induction false} InspectAnswers(t: Tables, q: Quota, host: string, id: string)
    ensures AnswerTo(t, q, Inspect(host, id)) ==
            if id == "" || Utf8Len(id) > 110 then Refused(400)
            else if id in t.messages && (t.messages[id].sender == host || t.messages[id].target == host)
            then Shown(View(id, t.messages[id]))
            else Refused(404)
  {
    RunInspect(t, q, host, id);
  }

  /** Ready iff a message for an open task of this host is queued. */
  lemma {:induction false} ReadyAnswers(t: Tables, q: Quota, host: string)
    ensures AnswerTo(t, q, Ready(host)) ==
            IsReady(exists id :: id in t.messages && t.messages[id].state == Queued && t.messages[id].target == host
                                 && Open(t, host, t.messages[id].thread))
  {
    assert ReadyStep(t, Ready(host), Arrived).1 == Answered(IsReady(Claimable(t, host) != {}));
    if id :| id in t.messages && t.messages[id].state == Queued && t.messages[id].target == host
             && Open(t, host, t.messages[id].thread) {
      assert IsClaimable(t, host, id);
      assert (t.messages[id].created, id) in Claimable(t, host);
    }
  }

  // ---- what was told is so ----

  lemma {:induction false} RegisteredIsStored(t: Tables, q: Quota, host: string, thread: string, title: string,
          enabled: bool, now: int)
    ensures var (u, a) := RunCall(t, q, Call.Register(host, thread, title, enabled, now));
            a == Registered ==> (host, thread) in u.tasks && u.tasks[(host, thread)] == Task(title, enabled, now)
  {
    RegisterAnswers(t, q, host, thread, title, enabled, now);
    if IsUuid(thread) && IsText(title, 200) { RunRegister(t, q, host, thread, title, enabled, now); }
  }

  lemma {:induction false} ShownIsStored(t: Tables, q: Quota, host: string, b: MessageBody, now: int)
    ensures var (u, a) := RunCall(t, q, Call.Send(host, b, now));
            a.Shown? ==> a.view.id in u.messages && u.messages[a.view.id] == a.view.row && SameMessage(a.view.row, b)
  {
    SendAnswers(t, q, host, b, now);
    if !Malformed(b) {
      if MessageId(host, b.request) in t.messages {
        assert SendStep(t, q, Call.Send(host, b, now), Arrived).1.Answered?;
      } else {
        RunNewSend(t, q, host, b, now);
      }
    }
  }

  lemma {:induction false} ReceiptedIsStored(t: Tables, q: Quota, host: string, b: ReceiptBody, now: int)
    ensures var (u, a) := RunCall(t, q, Report(host, b, now));
            a.Receipted? ==> a.stored in u.receipts && SameReport(a.stored, b)
  {
    ReportAnswers(t, q, host, b, now);
    if !Ill(b) {
      if FindReceipt(t.receipts, host, b.request).Some? {
        FindMeans(t.receipts, host, b.request);
        RunStoredReport(t, q, host, b, now);
      } else {
        RunNewReport(t, q, host, b, now);
        NewReport(t, host, b, now);
      }
    }
  }

  /** Work that the host could be told of. */
  ghost predicate HasWork(t: Tables, host: string) {
    exists id :: id in t.messages && t.messages[id].state == Queued && t.messages[id].target == host
                 && Open(t, host, t.messages[id].thread)
  }

  lemma {:induction false} WorkIsClaimable(t: Tables, host: string)
    ensures Claimable(t, host) != {} <==> HasWork(t, host)
  {
    if Claimable(t, host) != {} {
      var p :| p in Claimable(t, host);
      assert IsClaimable(t, host, p.1);
    }
    if id :| id in t.messages && t.messages[id].state == Queued && t.messages[id].target == host
             && Open(t, host, t.messages[id].thread) {
      assert (t.messages[id].created, id) in Claimable(t, host);
    }
  }

  /** A new claim that is not refused delivers a message iff there is work; and that message is now being dispatched to
      this host by this attempt. */
  lemma {:induction false} ClaimTakesWork(t: Tables, q: Quota, host: string, request: string, now: int)
    requires LeaseInv(t) && IsUuid(request) && (host, request) !in t.attempts
    requires |HostAttempts(t, host)| < q.attemptsPerHost
    ensures var (u, a) := RunCall(t, q, Claim(host, request, now));
            && a.Delivered? && (a.message.Some? <==> HasWork(t, host))
            && (a.message.Some? ==>
                 var v := a.message.value;
                 && v.id in u.messages && u.messages[v.id] == v.row && u.attempts[(host, request)].message == Some(v.id)
                 && v.row.target == host && v.row.state == Dispatching && v.row.attempt == request)
  {
    RunClaim(t, q, host, request, now);
    WorkIsClaimable(t, host);
  }
}
