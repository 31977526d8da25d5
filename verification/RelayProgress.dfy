/** Recovery: from every persisted phase, one cycle without faults finishes the pending entry - exactly when the
    coordinator can still accept what the entry has to say. */
module RelayProgress {
  import opened Basics
  import opened RelayTables
  import opened RelayLease
  import opened RelayReceipts
  import opened RelayHandlers
  import opened RelayRunner

  // ---- one request, undisturbed ----

  function StageRank(s: Stage): nat {
    match s
    case Arrived => 5
    case Committing => 4
    case Committed => 3
    case Answered(_) => 0
    case _ => 2
  }

  ghost function RunFrom(t: Tables, q: Quota, c: Call, s: Stage): (Tables, Response)
    decreases StageRank(s)
  {
    if s.Answered? then (t, s.response)
    else
      var next := Step(t, q, c, s);
      if StageRank(next.1) < StageRank(s) then RunFrom(next.0, q, c, next.1) else (next.0, Refused(500))
  }

  ghost function RunCall(t: Tables, q: Quota, c: Call): (Tables, Response) {
    RunFrom(t, q, c, Arrived)
  }

  lemma {:induction false} RunInspect(t: Tables, q: Quota, host: string, id: string)
    ensures RunCall(t, q, Inspect(host, id)) == (t, InspectStep(t, Inspect(host, id), Arrived).1.response)
  {
  }

  predicate ClaimRecorded(t: Tables, q: Quota, host: string, request: string) {
    (host, request) in t.attempts || |HostAttempts(t, host)| < q.attemptsPerHost
  }

  lemma {:induction false} RunClaim(t: Tables, q: Quota, host: string, request: string, now: int)
    requires LeaseInv(t) && IsUuid(request)
    ensures RunCall(t, q, Claim(host, request, now)).0 == ClaimBatch(t, q, host, request, now)
    ensures var u := ClaimBatch(t, q, host, request, now);
            RunCall(t, q, Claim(host, request, now)).1 ==
            if !ClaimRecorded(t, q, host, request) then Refused(429)
            else Delivered(if u.attempts[(host, request)].message.Some?
                           then ReadMessage(u, u.attempts[(host, request)].message.value) else None)
  {
    if (host, request) in t.attempts {
      RunKnownClaim(t, q, host, request, now);
    } else {
      RunNewClaim(t, q, host, request, now);
    }
  }

  lemma {:induction false} RunKnownClaim(t: Tables, q: Quota, host: string, request: string, now: int)
    requires LeaseInv(t) && IsUuid(request) && (host, request) in t.attempts
    ensures ClaimBatch(t, q, host, request, now) == t
    ensures RunCall(t, q, Claim(host, request, now))
            == (t, Delivered(if t.attempts[(host, request)].message.Some?
                             then ReadMessage(t, t.attempts[(host, request)].message.value) else None))
  {
    var c := Claim(host, request, now);
    ClaimReplayIsNoop(t, q, host, request, now);
    if t.attempts[(host, request)].message.Some? {
      var s := Replaying(t.attempts[(host, request)].message.value);
      assert ClaimStep(t, q, c, Arrived) == (t, s);
      assert RunCall(t, q, c) == RunFrom(t, q, c, s);
    } else {
      assert ClaimStep(t, q, c, Arrived) == (t, Answered(Delivered(None)));
    }
  }

  lemma {:induction false} RunNewClaim(t: Tables, q: Quota, host: string, request: string, now: int)
    requires IsUuid(request) && (host, request) !in t.attempts
    ensures var u := ClaimBatch(t, q, host, request, now);
            RunCall(t, q, Claim(host, request, now)) ==
            (u, if !ClaimRecorded(t, q, host, request) then Refused(429)
                else Delivered(if u.attempts[(host, request)].message.Some?
                               then ReadMessage(u, u.attempts[(host, request)].message.value) else None))
  {
    var c := Claim(host, request, now);
    var u := ClaimBatch(t, q, host, request, now);
    assert ClaimStep(t, q, c, Arrived) == (t, Committing);
    assert ClaimStep(t, q, c, Committing) == (u, Committed);
    assert (host, request) in u.attempts <==> ClaimRecorded(t, q, host, request);
    assert RunCall(t, q, c) == RunFrom(t, q, c, Committing) == RunFrom(u, q, c, Committed);
    if ClaimRecorded(t, q, host, request) {
      assert RunFrom(u, q, c, Committed) == RunFrom(u, q, c, Joining);
    }
  }

  /** A report is accepted iff this exact receipt is stored, or its key is new and the transition is allowed. */
  predicate ReportAccepted(t: Tables, host: string, b: ReceiptBody) {
    && ValidReceipt(b)
    && match FindReceipt(t.receipts, host, b.request)
       case Some(r) => SameReceipt(r, b)
       case None => ReceiptAdmitted(t, host, b)
  }

  lemma {:induction false} RunReport(t: Tables, q: Quota, host: string, b: ReceiptBody, now: int)
    requires ReceiptsInv(t)
    ensures RunCall(t, q, Report(host, b, now)).1.Receipted? <==> ReportAccepted(t, host, b)
    ensures ReportAccepted(t, host, b) ==> RunCall(t, q, Report(host, b, now)).0 == ReceiptBatch(t, host, b, now)
  {
    var c := Report(host, b, now);
    if ValidReceipt(b) {
      if FindReceipt(t.receipts, host, b.request).Some? {
        ReceiptReplayIsNoop(t, host, b, now);
      } else {
        var u := ReceiptBatch(t, host, b, now);
        assert RunCall(t, q, c) == RunFrom(t, q, c, Committing) == RunFrom(u, q, c, Committed);
        if ReceiptAdmitted(t, host, b) {
          FindAppended(t.receipts, Receipt(host, b.request, b.message, b.state, b.submission, b.evidence, now));
        }
      }
    }
  }

  // ---- one cycle, undisturbed ----

  /** The IDs the cycle mints and what the queue returns. */
  datatype Luck = Luck(entryId: string, receiptId: string, submission: Option<string>, now: int)

  datatype Outcome = Outcome(j: Journal, t: Tables, submissions: nat)

  function PcRank(pc: Pc): nat {
    match pc
    case Begin => 20
    case AskReady => 19
    case SaveNew => 18
    case CallClaim => 17
    case AwaitClaim => 16
    case SaveReady => 15
    case CallInspect => 14
    case AwaitInspect => 13
    case CheckAllowed => 12
    case SaveDispatching => 11
    case DoSubmit => 10
    case SaveOutcome => 8
    case SaveRefused => 8
    case SaveRecovered => 8
    case CallReport => 6
    case AwaitReport => 5
    case Stopped => 0
    case _ => 2
  }

  /** A request and its answer, taken in one go. */
  ghost function Ask(host: string, l: Local, j: Journal, r: Response, minted: string): Local {
    Advance(host, Advance(host, l, j, Proceed, minted), j, Told(r), minted)
  }

  datatype Turn = Turn(l: Local, j: Journal, t: Tables, submitted: bool)

  /** One effect of the cycle, answered without faults. */
  ghost function TakeTurn(host: string, l: Local, j: Journal, t: Tables, q: Quota, env: Luck): Turn {
    if l.pc == CallClaim then
      var r := RunCall(t, q, Claim(host, l.e.id, env.now));
      Turn(Ask(host, l, j, r.1, env.receiptId), j, r.0, false)
    else if l.pc == CallInspect && l.e.message.Some? then
      var r := RunCall(t, q, Inspect(host, l.e.message.value.id));
      Turn(Ask(host, l, j, r.1, env.receiptId), j, r.0, false)
    else if l.pc == CallReport then
      var r := RunCall(t, q, Report(host, l.e.receipt, env.now));
      Turn(Ask(host, l, j, r.1, env.receiptId), j, r.0, false)
    else if l.pc == AskReady then
      Turn(Advance(host, l, j, Told(RunCall(t, q, Ready(host)).1), env.entryId), j, t, false)
    else if l.pc == DoSubmit then
      Turn(Advance(host, l, j, Returned(env.submission), env.receiptId), j, t, true)
    else
      var a := if IsSave(l.pc) then Saved(Stored) else Proceed;
      Turn(Advance(host, l, j, a, env.receiptId), JournalAfter(l, j, a), t, false)
  }

  lemma {:induction false} AdvanceLowers(host: string, l: Local, j: Journal, a: Answer, minted: string)
    requires l.pc != Stopped
    ensures PcRank(Advance(host, l, j, a, minted).pc) < PcRank(l.pc)
  {
  }

  lemma {:induction false} TurnLowers(host: string, l: Local, j: Journal, t: Tables, q: Quota, env: Luck)
    requires l.pc != Stopped
    ensures PcRank(TakeTurn(host, l, j, t, q, env).l.pc) < PcRank(l.pc)
  {
    forall a: Answer, m: string ensures PcRank(Advance(host, l, j, a, m).pc) < PcRank(l.pc) {
      AdvanceLowers(host, l, j, a, m);
    }
    var l1 := Advance(host, l, j, Proceed, env.receiptId);
    if l1.pc != Stopped {
      forall a: Answer, m: string ensures PcRank(Advance(host, l1, j, a, m).pc) < PcRank(l1.pc) {
        AdvanceLowers(host, l1, j, a, m);
      }
    }
  }

  /** A whole cycle: turns until it stops. */
  ghost function Drive(host: string, l: Local, j: Journal, t: Tables, q: Quota, env: Luck): Outcome
    decreases PcRank(l.pc)
  {
    if l.pc == Stopped then Outcome(j, t, 0)
    else
      var n := TakeTurn(host, l, j, t, q, env);
      TurnLowers(host, l, j, t, q, env);
      var o := Drive(host, n.l, n.j, n.t, q, env);
      if n.submitted then o.(submissions := o.submissions + 1) else o
  }

  lemma {:induction false} DriveStop(host: string, l: Local, j: Journal, t: Tables, q: Quota, env: Luck)
    requires l.pc == Stopped
    ensures Drive(host, l, j, t, q, env) == Outcome(j, t, 0)
  {
  }

  lemma {:induction false} DriveTurn(host: string, l: Local, j: Journal, t: Tables, q: Quota, env: Luck, n: Turn)
    requires l.pc != Stopped && n == TakeTurn(host, l, j, t, q, env)
    ensures Drive(host, l, j, t, q, env).j == Drive(host, n.l, n.j, n.t, q, env).j
    ensures Drive(host, l, j, t, q, env).t == Drive(host, n.l, n.j, n.t, q, env).t
    ensures Drive(host, l, j, t, q, env).submissions ==
            Drive(host, n.l, n.j, n.t, q, env).submissions + if n.submitted then 1 else 0
  {
  }

  lemma {:induction false} SaveTurn(host: string, l: Local, j: Journal, t: Tables, q: Quota, env: Luck)
    requires IsSave(l.pc)
    ensures TakeTurn(host, l, j, t, q, env)
            == Turn(l.(pc := AfterSave(l.pc)), j.(pending := Save(j.pending, l.e)), t, false)
  {
  }

  predicate GoodLuck(t: Tables, host: string, env: Luck) {
    && IsUuid(env.entryId) && IsUuid(env.receiptId)
    && FindReceipt(t.receipts, host, env.receiptId).None?
  }

  predicate Finished(j: Journal, id: string) {
    Find(j.pending, id).Some? && Find(j.pending, id).value.phase == Done
  }

  predicate Unfinished(j: Journal, id: string) {
    Find(j.pending, id).Some? ==> Find(j.pending, id).value.phase != Done
  }

  // ---- the cycle, backwards ----

  lemma {:induction false} EvidenceFits()
    ensures Utf8Len("") <= 2048 && Utf8Len(RESTARTED) <= 2048 && Utf8Len(NOT_ENABLED) <= 2048
    ensures Utf8Len(UNCERTAIN) <= 2048
  {
    Utf8Bound("");
    Utf8Bound(RESTARTED);
    Utf8Bound(NOT_ENABLED);
    Utf8Bound(UNCERTAIN);
  }

  lemma {:induction false} DriveLastSave(host: string, l: Local, j: Journal, t: Tables, q: Quota, env: Luck)
    requires l.pc in {SaveDone, SaveEmpty, SaveSkip} && l.e.phase == Done
    ensures var o := Drive(host, l, j, t, q, env);
            Finished(o.j, l.e.id) && o.t == t && o.submissions == 0
  {
    var j1 := j.(pending := Save(j.pending, l.e));
    SaveTurn(host, l, j, t, q, env);
    DriveTurn(host, l, j, t, q, env, Turn(l.(pc := AfterSave(l.pc)), j1, t, false));
    DriveStop(host, l.(pc := Stopped), j1, t, q, env);
    SaveFind(j.pending, l.e, l.e.id);
  }

  lemma {:induction false} ReportTurn(host: string, l: Local, j: Journal, t: Tables, q: Quota, env: Luck)
    requires l.pc == CallReport
    ensures var r := RunCall(t, q, Report(host, l.e.receipt, env.now));
            TakeTurn(host, l, j, t, q, env)
            == Turn(if r.1.Receipted? then l.(pc := SaveDone, e := l.e.(phase := Done))
                    else l.(pc := Stopped), j, r.0, false)
  {
  }

  /** From a durable receipt. */
  lemma {:induction false} DriveReport(host: string, l: Local, j: Journal, t: Tables, q: Quota, env: Luck)
    requires l.pc == CallReport && ReceiptsInv(t) && Unfinished(j, l.e.id)
    ensures var o := Drive(host, l, j, t, q, env);
            && (Finished(o.j, l.e.id) <==> ReportAccepted(t, host, l.e.receipt))
            && (ReportAccepted(t, host, l.e.receipt) ==> o.t == ReceiptBatch(t, host, l.e.receipt, env.now))
            && o.submissions == 0
  {
    RunReport(t, q, host, l.e.receipt, env.now);
    ReportTurn(host, l, j, t, q, env);
    var r := RunCall(t, q, Report(host, l.e.receipt, env.now));
    DriveTurn(host, l, j, t, q, env, TakeTurn(host, l, j, t, q, env));
    if r.1.Receipted? {
      DriveLastSave(host, l.(pc := SaveDone, e := l.e.(phase := Done)), j, r.0, q, env);
    } else {
      DriveStop(host, l.(pc := Stopped), j, r.0, q, env);
    }
  }

  /** From a receipt about to be saved. */
  lemma {:induction false} DriveReceipt(host: string, l: Local, j: Journal, t: Tables, q: Quota, env: Luck)
    requires l.pc in {SaveOutcome, SaveRefused, SaveRecovered} && l.e.phase == Reporting && ReceiptsInv(t)
    ensures var o := Drive(host, l, j, t, q, env);
            && (Finished(o.j, l.e.id) <==> ReportAccepted(t, host, l.e.receipt))
            && (ReportAccepted(t, host, l.e.receipt) ==> o.t == ReceiptBatch(t, host, l.e.receipt, env.now))
            && o.submissions == 0
  {
    var j1 := j.(pending := Save(j.pending, l.e));
    SaveFind(j.pending, l.e, l.e.id);
    SaveTurn(host, l, j, t, q, env);
    DriveTurn(host, l, j, t, q, env, Turn(l.(pc := CallReport), j1, t, false));
    DriveReport(host, l.(pc := CallReport), j1, t, q, env);
  }

  /** An outcome minted by the cycle is accepted while the message is still dispatching to this host. */
  lemma {:induction false} MintedAccepted(t: Tables, host: string, b: ReceiptBody)
    requires IsUuid(b.request) && IsText(b.message, 110) && b.state in {Submitted, Uncertain}
    requires Utf8Len(b.evidence) <= 2048
    requires b.submission == "" || IsUuid(b.submission)
    requires b.state == Submitted ==> IsUuid(b.submission)
    requires FindReceipt(t.receipts, host, b.request).None?
    ensures ReportAccepted(t, host, b) <==>
              b.message in t.messages && t.messages[b.message].target == host
                && t.messages[b.message].state == Dispatching
  {
  }

  /** The message the entry is about, still dispatching to this host. */
  predicate Waiting(t: Tables, host: string, e: Entry) {
    && e.message.Some? && IsText(e.message.value.id, 110) && e.message.value.id in t.messages
    && t.messages[e.message.value.id].target == host && t.messages[e.message.value.id].state == Dispatching
  }

  /** From an outcome minted by this cycle. */
  lemma {:induction false} DriveMinted(host: string, l: Local, j: Journal, t: Tables, q: Quota, env: Luck)
    requires l.pc in {SaveOutcome, SaveRefused, SaveRecovered} && l.e.phase == Reporting && ReceiptsInv(t)
    requires GoodLuck(t, host, env)
    requires Waiting(t, host, l.e) && l.e.receipt.request == env.receiptId
    requires l.e.receipt.message == l.e.message.value.id
    requires ValidReceipt(l.e.receipt) && l.e.receipt.state in {Submitted, Uncertain}
    ensures var o := Drive(host, l, j, t, q, env);
            && Finished(o.j, l.e.id) && o.submissions == 0
            && o.t.messages.Keys == t.messages.Keys
            && o.t.messages[l.e.message.value.id].state == l.e.receipt.state
  {
    MintedAccepted(t, host, l.e.receipt);
    DriveReceipt(host, l, j, t, q, env);
    FindAppendedOutcome(t, host, l.e.receipt, env.now);
  }

  lemma {:induction false} MintedIsValid(minted: string, e: Entry, submission: Option<string>)
    requires IsUuid(minted) && e.message.Some? && IsText(e.message.value.id, 110)
    ensures ValidReceipt(UncertainReceipt(minted, e, RESTARTED))
    ensures ValidReceipt(UncertainReceipt(minted, e, "").(evidence := NOT_ENABLED))
    ensures ValidReceipt(UncertainReceipt(minted, e, "").(evidence := UNCERTAIN))
    ensures submission.Some? && IsUuid(submission.value) ==>
              ValidReceipt(UncertainReceipt(minted, e, "").(state := Submitted, submission := submission.value))
  {
    EvidenceFits();
  }

  lemma {:induction false} SubmitTurn(host: string, l: Local, j: Journal, t: Tables, q: Quota, env: Luck)
    requires l.pc == DoSubmit
    ensures TakeTurn(host, l, j, t, q, env) == Turn(SubmitAnswer(l, env.submission), j, t, true)
  {
  }

  lemma {:induction false} SubmittedLocal(t: Tables, host: string, l: Local, minted: string, submission: Option<string>)
    requires IsUuid(minted) && Waiting(t, host, l.e) && l.e.receipt == UncertainReceipt(minted, l.e, "")
    ensures var l1 := SubmitAnswer(l, submission);
            && l1.pc == SaveOutcome && l1.e.phase == Reporting && l1.e.id == l.e.id && l1.e.message == l.e.message
            && ValidReceipt(l1.e.receipt) && l1.e.receipt.request == minted
            && l1.e.receipt.message == l.e.message.value.id
            && l1.e.receipt.state == if submission.Some? && IsUuid(submission.value) then Submitted else Uncertain
  {
    MintedIsValid(minted, l.e, submission);
  }

  lemma {:induction false} DriveSubmit(host: string, l: Local, j: Journal, t: Tables, q: Quota, env: Luck)
    requires l.pc == DoSubmit && ReceiptsInv(t) && GoodLuck(t, host, env) && Waiting(t, host, l.e)
    requires l.e.receipt == UncertainReceipt(env.receiptId, l.e, "")
    ensures var o := Drive(host, l, j, t, q, env);
            && Finished(o.j, l.e.id) && o.submissions == 1
            && o.t.messages.Keys == t.messages.Keys
            && o.t.messages[l.e.message.value.id].state ==
               if env.submission.Some? && IsUuid(env.submission.value) then Submitted else Uncertain
  {
    var l1 := SubmitAnswer(l, env.submission);
    SubmitTurn(host, l, j, t, q, env);
    DriveTurn(host, l, j, t, q, env, Turn(l1, j, t, true));
    SubmittedLocal(t, host, l, env.receiptId, env.submission);
    DriveMinted(host, l1, j, t, q, env);
  }

  lemma {:induction false} DriveDispatch(host: string, l: Local, j: Journal, t: Tables, q: Quota, env: Luck)
    requires l.pc == SaveDispatching && ReceiptsInv(t) && GoodLuck(t, host, env) && Waiting(t, host, l.e)
    requires l.e.receipt == UncertainReceipt(env.receiptId, l.e, "")
    ensures var o := Drive(host, l, j, t, q, env);
            && Finished(o.j, l.e.id) && o.submissions == 1
            && o.t.messages.Keys == t.messages.Keys
            && o.t.messages[l.e.message.value.id].state ==
               if env.submission.Some? && IsUuid(env.submission.value) then Submitted else Uncertain
  {
    var j1 := j.(pending := Save(j.pending, l.e));
    SaveTurn(host, l, j, t, q, env);
    DriveTurn(host, l, j, t, q, env, Turn(l.(pc := DoSubmit), j1, t, false));
    DriveSubmit(host, l.(pc := DoSubmit), j1, t, q, env);
  }

  lemma {:induction false} AllowedTurn(host: string, l: Local, j: Journal, t: Tables, q: Quota, env: Luck)
    requires l.pc == CheckAllowed
    ensures TakeTurn(host, l, j, t, q, env) == Turn(AllowedStep(l, j, Proceed), j, t, false)
  {
  }

  lemma {:induction false} DriveChecked(host: string, l: Local, j: Journal, t: Tables, q: Quota, env: Luck)
    requires l.pc == CheckAllowed && ReceiptsInv(t) && GoodLuck(t, host, env) && Waiting(t, host, l.e)
    requires l.e.receipt == UncertainReceipt(env.receiptId, l.e, "")
    ensures var o := Drive(host, l, j, t, q, env);
            var allowed := Allowed(j, l.e.message.value.row.thread);
            && Finished(o.j, l.e.id) && o.submissions == (if allowed then 1 else 0)
            && o.t.messages.Keys == t.messages.Keys
            && o.t.messages[l.e.message.value.id].state ==
               if allowed && env.submission.Some? && IsUuid(env.submission.value) then Submitted else Uncertain
  {
    var l1 := AllowedStep(l, j, Proceed);
    AllowedTurn(host, l, j, t, q, env);
    DriveTurn(host, l, j, t, q, env, Turn(l1, j, t, false));
    if Allowed(j, l.e.message.value.row.thread) {
      DriveDispatch(host, l1, j, t, q, env);
    } else {
      MintedIsValid(env.receiptId, l.e, None);
      DriveMinted(host, l1, j, t, q, env);
    }
  }

  lemma {:induction false} FindAppendedOutcome(t: Tables, host: string, b: ReceiptBody, now: int)
    requires FindReceipt(t.receipts, host, b.request).None? && ReceiptAdmitted(t, host, b)
    ensures ReceiptBatch(t, host, b, now).messages[b.message].state == b.state
  {
    FindAppended(t.receipts, Receipt(host, b.request, b.message, b.state, b.submission, b.evidence, now));
  }

  /** The entry's message is still the one this attempt holds. */
  predicate Consistent(t: Tables, host: string, e: Entry) {
    && e.message.Some? && IsText(e.message.value.id, 110) && e.message.value.id in t.messages
    && StillMine(host, e, View(e.message.value.id, t.messages[e.message.value.id]))
    && t.messages[e.message.value.id].state != Queued
  }

  /** ... still waiting to be submitted, to a thread that this host has enrolled. */
  predicate Deliverable(t: Tables, j: Journal, e: Entry) {
    && e.message.Some? && e.message.value.id in t.messages && t.messages[e.message.value.id].state == Dispatching
    && Allowed(j, e.message.value.row.thread)
  }

  lemma {:induction false} InspectTurn(host: string, l: Local, j: Journal, t: Tables, q: Quota, env: Luck)
    requires l.pc == CallInspect && l.e.message.Some?
    ensures var r := InspectStep(t, Inspect(host, l.e.message.value.id), Arrived).1.response;
            TakeTurn(host, l, j, t, q, env)
              == Turn(InspectAnswer(host, l.(pc := AwaitInspect), Told(r), env.receiptId), j, t, false)
  {
    RunInspect(t, q, host, l.e.message.value.id);
  }

  lemma {:induction false} InspectedLocal(host: string, l: Local, t: Tables, minted: string)
    requires l.e.message.Some?
    ensures var r := InspectStep(t, Inspect(host, l.e.message.value.id), Arrived).1.response;
            var l1 := InspectAnswer(host, l, Told(r), minted);
            if Consistent(t, host, l.e) then
              if t.messages[l.e.message.value.id].state == Dispatching
              then l1.pc == CheckAllowed && l1.e == l.e.(receipt := UncertainReceipt(minted, l.e, ""))
              else l1.pc == SaveSkip && l1.e == l.e.(phase := Done)
            else l1.pc == Stopped
  {
  }

  lemma {:induction false} DriveInspect(host: string, l: Local, j: Journal, t: Tables, q: Quota, env: Luck)
    requires l.pc == CallInspect && l.e.message.Some? && ReceiptsInv(t) && GoodLuck(t, host, env)
    requires Unfinished(j, l.e.id)
    ensures var o := Drive(host, l, j, t, q, env);
            && (Finished(o.j, l.e.id) <==> Consistent(t, host, l.e))
            && o.submissions <= 1
            && (o.submissions == 1 <==> Consistent(t, host, l.e) && Deliverable(t, j, l.e))
            && (Consistent(t, host, l.e) ==>
                  o.t.messages.Keys == t.messages.Keys
                    && o.t.messages[l.e.message.value.id].state !in {Queued, Dispatching})
  {
    InspectTurn(host, l, j, t, q, env);
    InspectedLocal(host, l.(pc := AwaitInspect), t, env.receiptId);
    var n := TakeTurn(host, l, j, t, q, env);
    DriveTurn(host, l, j, t, q, env, n);
    if n.l.pc == CheckAllowed {
      DriveChecked(host, n.l, j, t, q, env);
    } else if n.l.pc == SaveSkip {
      DriveLastSave(host, n.l, j, t, q, env);
    } else {
      DriveStop(host, n.l, j, t, q, env);
    }
  }

  /** A claim that is recorded hands over nothing, or a message this attempt consistently holds. */
  lemma {:induction false} ClaimedIsConsistent(t: Tables, q: Quota, host: string, e: Entry, now: int)
    requires LeaseInv(t) && IsUuid(e.id) && ClaimRecorded(t, q, host, e.id)
    requires forall id :: id in t.messages ==> IsText(id, 110)
    ensures var u := ClaimBatch(t, q, host, e.id, now);
            && (host, e.id) in u.attempts
            && (u.attempts[(host, e.id)].message.Some? ==>
                  var id := u.attempts[(host, e.id)].message.value;
                  && id in u.messages
                  && ClaimMatches(host, e, View(id, u.messages[id]))
                  && Consistent(u, host, e.(message := Some(View(id, u.messages[id])), phase := Leased)))
  {
    ClaimBatchKeepsLease(t, q, host, e.id, now);
    var u := ClaimBatch(t, q, host, e.id, now);
    assert AttemptOk(u, (host, e.id));
    if u.attempts[(host, e.id)].message.Some? {
      var id := u.attempts[(host, e.id)].message.value;
      assert RowBorn(u, id);
      assert id in t.messages;
    }
  }

  /** The attempt holds a message waiting to be submitted, to a thread that this host has enrolled. */
  predicate ClaimDelivers(t: Tables, j: Journal, host: string, request: string) {
    && (host, request) in t.attempts && t.attempts[(host, request)].message.Some?
    && var id := t.attempts[(host, request)].message.value;
       id in t.messages && t.messages[id].state == Dispatching && Allowed(j, t.messages[id].thread)
  }

  lemma {:induction false} ClaimTurn(host: string, l: Local, j: Journal, t: Tables, q: Quota, env: Luck)
    requires l.pc == CallClaim
    ensures var r := RunCall(t, q, Claim(host, l.e.id, env.now));
            TakeTurn(host, l, j, t, q, env) == Turn(ClaimAnswer(host, l.(pc := AwaitClaim), Told(r.1)), j, r.0, false)
  {
  }

  lemma {:induction false} DriveLeased(host: string, l: Local, j: Journal, t: Tables, q: Quota, env: Luck)
    requires l.pc == SaveReady && l.e.phase == Leased && ReceiptsInv(t) && GoodLuck(t, host, env)
    requires Consistent(t, host, l.e)
    ensures Finished(Drive(host, l, j, t, q, env).j, l.e.id) && Drive(host, l, j, t, q, env).submissions <= 1
    ensures Drive(host, l, j, t, q, env).submissions == 1 <==> Deliverable(t, j, l.e)
  {
    var j1 := j.(pending := Save(j.pending, l.e));
    SaveFind(j.pending, l.e, l.e.id);
    SaveTurn(host, l, j, t, q, env);
    DriveTurn(host, l, j, t, q, env, Turn(l.(pc := CallInspect), j1, t, false));
    DriveInspect(host, l.(pc := CallInspect), j1, t, q, env);
  }

  lemma {:induction false} DriveClaim(host: string, l: Local, j: Journal, t: Tables, q: Quota, env: Luck)
    requires l.pc == CallClaim && IsUuid(l.e.id) && Unfinished(j, l.e.id)
    requires LeaseInv(t) && ReceiptsInv(t) && GoodLuck(t, host, env)
    requires forall id :: id in t.messages ==> IsText(id, 110)
    ensures Finished(Drive(host, l, j, t, q, env).j, l.e.id) <==> ClaimRecorded(t, q, host, l.e.id)
    ensures Drive(host, l, j, t, q, env).submissions <= 1
    ensures Drive(host, l, j, t, q, env).submissions == 1 <==>
              ClaimRecorded(t, q, host, l.e.id)
                && ClaimDelivers(ClaimBatch(t, q, host, l.e.id, env.now), j, host, l.e.id)
  {
    RunClaim(t, q, host, l.e.id, env.now);
    ClaimTurn(host, l, j, t, q, env);
    var u := ClaimBatch(t, q, host, l.e.id, env.now);
    var n := TakeTurn(host, l, j, t, q, env);
    DriveTurn(host, l, j, t, q, env, n);
    if ClaimRecorded(t, q, host, l.e.id) {
      ClaimedIsConsistent(t, q, host, l.e, env.now);
      if n.l.pc == SaveReady {
        ClaimBatchKeepsReceipts(t, q, host, l.e.id, env.now);
        DriveLeased(host, n.l, j, u, q, env);
      } else {
        DriveLastSave(host, n.l, j, u, q, env);
      }
    } else {
      DriveStop(host, n.l, j, u, q, env);
    }
  }

  // ---- the theorem ----

  /** What the coordinator must still allow for the entry to finish. */
  predicate CanFinish(t: Tables, q: Quota, host: string, e: Entry) {
    match e.phase
    case Claiming => IsUuid(e.id) && ClaimRecorded(t, q, host, e.id)
    case Leased => Consistent(t, host, e)
    case Submitting =>
      && e.message.Some? && IsText(e.message.value.id, 110) && e.message.value.id in t.messages
      && t.messages[e.message.value.id].target == host && t.messages[e.message.value.id].state == Dispatching
    case Reporting => ReportAccepted(t, host, e.receipt)
    case Done => true
  }

  /** When the cycle submits: only for an entry whose submission has not begun, and whose message is deliverable. */
  ghost predicate CycleSubmits(j: Journal, t: Tables, q: Quota, host: string, e: Entry, now: int) {
    match e.phase
    case Claiming =>
      CanFinish(t, q, host, e) && ClaimDelivers(ClaimBatch(t, q, host, e.id, now), j, host, e.id)
    case Leased => CanFinish(t, q, host, e) && Deliverable(t, j, e)
    case _ => false
  }

  lemma {:induction false} BeginTurn(host: string, j: Journal, t: Tables, q: Quota, env: Luck)
    requires Next(j.pending).Some?
    ensures TakeTurn(host, START, j, t, q, env)
            == Turn(Resume(START, Next(j.pending).value, env.receiptId), j, t, false)
  {
  }

  lemma {:induction false} DriveRecovered(host: string, l: Local, j: Journal, t: Tables, q: Quota, env: Luck)
    requires l.pc == SaveRecovered && l.e.phase == Reporting && l.e.message.Some?
    requires l.e.receipt == UncertainReceipt(env.receiptId, l.e, RESTARTED) && ReceiptsInv(t) && GoodLuck(t, host, env)
    ensures Finished(Drive(host, l, j, t, q, env).j, l.e.id) <==> Waiting(t, host, l.e)
    ensures Drive(host, l, j, t, q, env).submissions == 0
  {
    if IsText(l.e.message.value.id, 110) {
      MintedIsValid(env.receiptId, l.e, None);
      MintedAccepted(t, host, l.e.receipt);
    }
    DriveReceipt(host, l, j, t, q, env);
  }

  /** An attempt ID that is not a UUID is refused before anything happens. */
  lemma {:induction false} DriveBadClaim(host: string, l: Local, j: Journal, t: Tables, q: Quota, env: Luck)
    requires l.pc == CallClaim && !IsUuid(l.e.id) && Unfinished(j, l.e.id)
    ensures !Finished(Drive(host, l, j, t, q, env).j, l.e.id) && Drive(host, l, j, t, q, env).submissions == 0
  {
    ClaimTurn(host, l, j, t, q, env);
    var n := TakeTurn(host, l, j, t, q, env);
    DriveTurn(host, l, j, t, q, env, n);
    DriveStop(host, n.l, n.j, n.t, q, env);
  }

  /** An entry without its message ends the process before it can report. */
  lemma {:induction false} DriveNoMessage(host: string, l: Local, j: Journal, t: Tables, q: Quota, env: Luck)
    requires l.pc == CallInspect && l.e.message.None? && Unfinished(j, l.e.id)
    ensures !Finished(Drive(host, l, j, t, q, env).j, l.e.id) && Drive(host, l, j, t, q, env).submissions == 0
  {
    var n := TakeTurn(host, l, j, t, q, env);
    DriveTurn(host, l, j, t, q, env, n);
    DriveStop(host, n.l, n.j, n.t, q, env);
  }

  /** One fault-free cycle finishes the pending entry iff the coordinator still allows what its phase needs. It submits
      at most once, exactly when the message is deliverable, and never for an entry that was already being submitted. */
  lemma {:induction false} CycleFinishes(host: string, j: Journal, t: Tables, q: Quota, env: Luck)
    requires LeaseInv(t) && ReceiptsInv(t) && GoodLuck(t, host, env) && Distinct(j.pending)
    requires forall id :: id in t.messages ==> IsText(id, 110)
    requires Next(j.pending).Some?
    ensures var e := Next(j.pending).value;
            var o := Drive(host, START, j, t, q, env);
            && (Finished(o.j, e.id) <==> CanFinish(t, q, host, e))
            && o.submissions == if CycleSubmits(j, t, q, host, e, env.now) then 1 else 0
  {
    NextIsFirstOpen(j.pending);
    var e := Next(j.pending).value;
    var l := Resume(START, e, env.receiptId);
    BeginTurn(host, j, t, q, env);
    DriveTurn(host, START, j, t, q, env, Turn(l, j, t, false));
    match e.phase
    case Claiming =>
      if IsUuid(e.id) { DriveClaim(host, l, j, t, q, env); } else { DriveBadClaim(host, l, j, t, q, env); }
    case Leased =>
      if e.message.Some? { DriveInspect(host, l, j, t, q, env); } else { DriveNoMessage(host, l, j, t, q, env); }
    case Submitting =>
      if e.message.Some? { DriveRecovered(host, l, j, t, q, env); } else { DriveStop(host, l, j, t, q, env); }
    case Reporting => DriveReport(host, l, j, t, q, env);
  }
}
