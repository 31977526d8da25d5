/** The two exceptions to truthful receipts are real: runs of the whole system that end with a message recorded as
    submitted although no host submitted it. */
module RelayExceptions {
  import opened Basics
  import opened RelayTables
  import opened RelayLease
  import opened RelayReceipts
  import opened RelayHandlers
  import opened RelayRunner
  import opened RelayWorld
  import opened RelaySafety
  import opened RelayReach
  import opened RelayPromises
  import opened RelayProgress
  import opened RelayRecovery
  import opened RelayService
  import opened RelayDelivery

  // ---- tables with one message ----

  /** The only message, for an enrolled task of this host; every attempt and receipt is about it. */
  ghost predicate OnlyMessage(t: Tables, host: string, id: string) {
    && t.messages.Keys == {id} && t.messages[id].target == host && Enrolled(t, host, t.messages[id].thread)
    && (forall k :: k in t.attempts ==> t.attempts[k].message == Some(id))
    && (forall r :: r in t.receipts ==> r.message == id)
  }

  ghost predicate NoMessage(t: Tables) {
    t.messages == map[] && t.attempts == map[] && t.receipts == []
  }

  lemma {:induction false} SendIt(t: Tables, q: Quota, host: string, b: MessageBody, now: int) returns (u: Tables)
    requires NoMessage(t) && PositiveQuota(q) && ValidMessage(b) && Enrolled(t, b.target, b.thread)
    ensures u == RunCall(t, q, Call.Send(host, b, now)).0
    ensures OnlyMessage(u, b.target, MessageId(host, b.request)) && u.attempts == map[] && u.receipts == []
    ensures u.messages[MessageId(host, b.request)]
            == Row(host, b.request, b.target, b.thread, b.prompt, Queued, "", "", "", now, now, |t.born|)
    ensures u.born == t.born + [Birth(MessageId(host, b.request), host, b.request, b.target, b.thread, b.prompt)]
  {
    RunNewSend(t, q, host, b, now);
    assert SentBy(t, host) == {} && ActiveFrom(t, host) == {} && ActiveTo(t, b.target) == {};
    u := SendBatch(t, q, host, b, now);
  }

  lemma {:induction false} ClaimIt(t: Tables, q: Quota, host: string, id: string, attempt: string, now: int)
    requires OnlyMessage(t, host, id) && t.messages[id].state == Queued && t.attempts == map[] && t.receipts == []
    requires PositiveQuota(q) && IsUuid(attempt)
    ensures var u := ClaimBatch(t, q, host, attempt, now);
            && RunCall(t, q, Call.Claim(host, attempt, now)).0 == u
            && OnlyMessage(u, host, id) && u.receipts == [] && u.born == t.born
            && u.messages[id] == t.messages[id].(state := Dispatching, attempt := attempt, updated := now)
  {
    RunNewClaim(t, q, host, attempt, now);
    assert HostAttempts(t, host) == {};
    assert IsClaimable(t, host, id);
    assert (t.messages[id].created, id) in Claimable(t, host);
    assert OldestQueued(t, host) == Some(id);
  }

  lemma {:induction false} ReportIt(t: Tables, q: Quota, host: string, id: string, b: ReceiptBody, now: int)
    requires OnlyMessage(t, host, id) && b.message == id && Permits(t.messages[id].state, b.state)
    requires ValidReceipt(b) && FindReceipt(t.receipts, host, b.request).None?
    ensures var u := RunCall(t, q, Call.Report(host, b, now)).0;
            && OnlyMessage(u, host, id) && u.messages[id] == Reported(t.messages[id], b, now) && u.born == t.born
            && u.receipts == t.receipts + [Receipt(host, b.request, id, b.state, b.submission, b.evidence, now)]
  {
    RunNewReport(t, q, host, b, now);
    FindAppended(t.receipts, Receipt(host, b.request, b.message, b.state, b.submission, b.evidence, now));
  }

  lemma {:induction false} WithoutAll(rs: seq<Receipt>, id: string)
    requires forall r :: r in rs ==> r.message == id
    ensures Without(rs, {id}) == []
  {
    if rs != [] {
      WithoutAll(rs[1..], id);
    }
  }

  lemma {:induction false} CompactIt(t: Tables, host: string, id: string, cutoff: int)
    requires OnlyMessage(t, host, id) && Expired(t, cutoff, id)
    ensures NoMessage(Compact(t, cutoff)) && Compact(t, cutoff).tasks == t.tasks && Compact(t, cutoff).born == t.born
  {
    assert (set x | x in t.messages && Expired(t, cutoff, x)) == {id};
    WithoutAll(t.receipts, id);
    forall k | k in t.attempts ensures AttemptExpired(t, cutoff, t.attempts[k]) {
      assert t.attempts[k].message == Some(id);
    }
  }

  // ---- other clients ----

  /** Everything but tables and requests is as it was. */
  ghost predicate Beside(w: World, u: World) {
    Leads(w, u) && u.q == w.q && u.nodes == w.nodes && u.log == w.log && u.owner == w.owner
  }

  lemma {:induction false} BesideOn(w: World, u: World, v: World)
    requires Beside(w, u) && Beside(u, v)
    ensures Beside(w, v)
  {
    LeadsOn(w, u, v);
  }

  lemma {:induction false} Calls(w: World, c: Call) returns (u: World)
    requires IsHost(c.host)
    ensures Beside(w, u) && u.t == RunCall(w.t, w.q, c).0
    ensures u.forged == if ClaimsSubmission(c) then w.forged + {(c.host, c.receipt.message)} else w.forged
  {
    var hid := AboveAll(w.handlers.Keys);
    u := CallLeads(w, hid, c);
  }

  const SEEN := "seen"

  lemma {:induction false} SeenFits(b: ReceiptBody)
    requires IsUuid(b.request) && IsText(b.message, 110) && b.submission == "" && b.evidence == SEEN
    requires b.state in {Acknowledged, Completed}
    ensures ValidReceipt(b)
  {
    Utf8Bound(SEEN);
  }

  /** Another client of the host acknowledges the message, without having submitted it, and then completes it. */
  lemma {:induction false} Completes(w: World, host: string, id: string, first: string, second: string, now: int)
    returns (u: World)
    requires OnlyMessage(w.t, host, id) && w.t.messages[id].state == Dispatching && w.t.receipts == []
    requires IsHost(host) && IsText(id, 110) && IsUuid(first) && IsUuid(second) && first != second
    ensures Beside(w, u) && u.forged == w.forged && u.t.born == w.t.born
    ensures OnlyMessage(u.t, host, id) && u.t.messages[id].state == Completed && u.t.messages[id].updated == now
    ensures u.t.messages[id].thread == w.t.messages[id].thread
  {
    var ack := ReceiptBody(first, id, Acknowledged, "", SEEN);
    var done := ReceiptBody(second, id, Completed, "", SEEN);
    SeenFits(ack);
    SeenFits(done);
    var v := Calls(w, Call.Report(host, ack, now));
    ReportIt(w.t, w.q, host, id, ack, now);
    u := Calls(v, Call.Report(host, done, now));
    ReportIt(v.t, v.q, host, id, done, now);
    BesideOn(w, v, u);
  }

  /** Retention deletes it, and the sender uses its request ID again. */
  lemma {:induction false} SentAgain(w: World, host: string, sender: string, c: MessageBody, now: int)
    returns (u: World)
    requires OnlyMessage(w.t, host, MessageId(sender, c.request)) && PositiveQuota(w.q)
    requires w.t.messages[MessageId(sender, c.request)].state == Completed
    requires w.t.messages[MessageId(sender, c.request)].updated == now
    requires IsHost(sender) && ValidMessage(c) && c.target == host
    requires w.t.messages[MessageId(sender, c.request)].thread == c.thread
    ensures Beside(w, u) && u.forged == w.forged && |u.t.born| == |w.t.born| + 1
    ensures OnlyMessage(u.t, host, MessageId(sender, c.request)) && u.t.attempts == map[] && u.t.receipts == []
    ensures u.t.messages[MessageId(sender, c.request)]
            == Row(sender, c.request, host, c.thread, c.prompt, Queued, "", "", "", now, now, |w.t.born|)
  {
    var v := Apply(w, Retain(now + 1));
    LeadsByOne(w, Retain(now + 1));
    CompactIt(w.t, host, MessageId(sender, c.request), now + 1);
    u := Calls(v, Call.Send(sender, c, now));
    var t := SendIt(v.t, v.q, sender, c, now);
    BesideOn(w, v, u);
  }

  lemma {:induction false} Claims(w: World, host: string, id: string, attempt: string, now: int) returns (u: World)
    requires OnlyMessage(w.t, host, id) && w.t.messages[id].state == Queued
    requires w.t.attempts == map[] && w.t.receipts == []
    requires PositiveQuota(w.q) && IsHost(host) && IsUuid(attempt)
    ensures Beside(w, u) && u.forged == w.forged && OnlyMessage(u.t, host, id) && u.t.receipts == []
    ensures u.t.born == w.t.born
    ensures u.t.messages[id] == w.t.messages[id].(state := Dispatching, attempt := attempt, updated := now)
  {
    u := Calls(w, Call.Claim(host, attempt, now));
    ClaimIt(w.t, w.q, host, id, attempt, now);
  }

  // ---- a client that lies ----

  /** The task of the destination is enrolled and the first message to it is queued. */
  lemma {:induction false} Queues(w: World, sender: string, title: string, b: MessageBody, now: int) returns (u: World)
    requires Initial(w) && PositiveQuota(w.q) && IsText(title, 200) && IsHost(sender) && ValidMessage(b)
    ensures Beside(w, u) && u.forged == {}
    ensures u.t.born == [Birth(MessageId(sender, b.request), sender, b.request, b.target, b.thread, b.prompt)]
    ensures OnlyMessage(u.t, b.target, MessageId(sender, b.request)) && u.t.attempts == map[] && u.t.receipts == []
    ensures u.t.messages[MessageId(sender, b.request)]
            == Row(sender, b.request, b.target, b.thread, b.prompt, Queued, "", "", "", now, now, 0)
  {
    var v := Calls(w, Call.Register(b.target, b.thread, title, true, now));
    RunRegister(w.t, w.q, b.target, b.thread, title, true, now);
    assert HostTasks(w.t, b.target) == {};
    u := Calls(v, Call.Send(sender, b, now));
    var t := SendIt(v.t, v.q, sender, b, now);
    BesideOn(w, v, u);
  }

  lemma {:induction false} ClaimedReceipt(request: string, id: string, submission: string)
    requires IsUuid(request) && IsUuid(submission) && IsText(id, 110)
    ensures ValidReceipt(ReceiptBody(request, id, Submitted, submission, ""))
  {
    Utf8Bound("");
  }

  /** A client that holds the destination's token claims the message and reports a submission that nobody made: the
      coordinator records it, with an empty submission log. */
  lemma {:induction false} ForgedReceipt(w: World, sender: string, title: string, b: MessageBody, attempt: string,
          request: string, submission: string, now: int) returns (u: World)
    requires Initial(w) && PositiveQuota(w.q) && IsText(title, 200) && IsHost(sender) && ValidMessage(b)
    requires IsUuid(attempt) && IsUuid(request) && IsUuid(submission)
    ensures var id := MessageId(sender, b.request);
            && Leads(w, u) && u.log == [] && !Resent(u, id) && id in u.t.messages
            && u.t.messages[id].state == Submitted && u.t.messages[id].submission == submission
  {
    var id := MessageId(sender, b.request);
    var queued := Queues(w, sender, title, b, now);
    var held := Claims(queued, b.target, id, attempt, now);
    var receipt := ReceiptBody(request, id, Submitted, submission, "");
    MessageIdFits(sender, b.request);
    ClaimedReceipt(request, id, submission);
    u := Calls(held, Call.Report(b.target, receipt, now));
    ReportIt(held.t, held.q, b.target, id, receipt, now);
    BesideOn(w, queued, held);
    BesideOn(w, held, u);
  }

  // ---- a receipt that comes late ----

  /** The points of an idle cycle on its way to a submission: the tables change once, by its claim. */
  ghost predicate OnWay(l: Local, j: Journal, t: Tables, env: Luck, before: Tables, after: Tables) {
    match l.pc
    case Begin => t == before && Next(j.pending).None?
    case AskReady => t == before
    case SaveNew => t == before && l.e.id == env.entryId
    case CallClaim => t == before && l.e.id == env.entryId
    case SaveReady => t == after
    case CallInspect => t == after
    case CheckAllowed => t == after && Drafted(l.e, env)
    case SaveDispatching => t == after && Drafted(l.e, env)
    case DoSubmit => t == after && Drafted(l.e, env)
    case _ => false
  }

  predicate Drafted(e: Entry, env: Luck) {
    e.message.Some? && e.receipt == UncertainReceipt(env.receiptId, e, "")
  }

  lemma {:induction false} SaveKeepsWay(host: string, l: Local, j: Journal, t: Tables, q: Quota, env: Luck,
          before: Tables, after: Tables)
    requires OnWay(l, j, t, env, before, after) && IsSave(l.pc)
    ensures var n := TakeTurn(host, l, j, t, q, env); OnWay(n.l, n.j, n.t, env, before, after)
  {
    SaveTurn(host, l, j, t, q, env);
  }

  lemma {:induction false} AskKeepsWay(host: string, l: Local, j: Journal, t: Tables, q: Quota, env: Luck,
          before: Tables, after: Tables)
    requires OnWay(l, j, t, env, before, after)
    requires l.pc == CallClaim || (l.pc == CallInspect && l.e.message.Some?)
    requires after == RunCall(before, q, Call.Claim(host, env.entryId, env.now)).0
    ensures var n := TakeTurn(host, l, j, t, q, env);
            PcRank(n.l.pc) >= 10 ==> OnWay(n.l, n.j, n.t, env, before, after)
  {
    if l.pc == CallClaim { ClaimTurn(host, l, j, t, q, env); } else { InspectTurn(host, l, j, t, q, env); }
  }

  lemma {:induction false} TurnKeepsWay(host: string, l: Local, j: Journal, t: Tables, q: Quota, env: Luck,
          before: Tables, after: Tables)
    requires OnWay(l, j, t, env, before, after) && l.pc != DoSubmit
    requires after == RunCall(before, q, Call.Claim(host, env.entryId, env.now)).0
    ensures var n := TakeTurn(host, l, j, t, q, env);
            !n.submitted && (PcRank(n.l.pc) >= 10 ==> OnWay(n.l, n.j, n.t, env, before, after))
  {
    if IsSave(l.pc) {
      SaveKeepsWay(host, l, j, t, q, env, before, after);
    } else if l.pc == CallClaim || (l.pc == CallInspect && l.e.message.Some?) {
      AskKeepsWay(host, l, j, t, q, env, before, after);
    }
  }

  /** A cycle past its submission makes none. */
  lemma {:induction false} PastSubmission(host: string, l: Local, j: Journal, t: Tables, q: Quota, env: Luck)
    requires PcRank(l.pc) < 10
    ensures Drive(host, l, j, t, q, env).submissions == 0
    decreases PcRank(l.pc)
  {
    if l.pc == Stopped {
      DriveStop(host, l, j, t, q, env);
    } else {
      var n := TakeTurn(host, l, j, t, q, env);
      TurnLowers(host, l, j, t, q, env);
      DriveTurn(host, l, j, t, q, env, n);
      PastSubmission(host, n.l, n.j, n.t, q, env);
    }
  }

  ghost predicate WayOf(w: World, k: nat, env: Luck, before: Tables, after: Tables) {
    && Inv(w) && Runs(w, k) && OnWay(LocalOf(w, k), w.nodes[k].journal, w.t, env, before, after)
    && after == RunCall(before, w.q, Call.Claim(w.nodes[k].host, env.entryId, env.now)).0
  }

  lemma {:induction false} StillToSubmit(w: World, k: nat, env: Luck)
    requires Runs(w, k) && DriveOf(w, k, env).submissions == 1
    ensures PcRank(LocalOf(w, k).pc) >= 10
  {
    if PcRank(LocalOf(w, k).pc) < 10 {
      PastSubmission(w.nodes[k].host, LocalOf(w, k), w.nodes[k].journal, w.t, w.q, env);
    }
  }

  /** One turn on the way, taken by the whole system. */
  lemma {:induction false} TookKeepsWay(w: World, k: nat, u: World, env: Luck, before: Tables, after: Tables)
    requires WayOf(w, k, env, before, after) && LocalOf(w, k).pc != DoSubmit && Took(w, k, u, TurnOf(w, k, env))
    requires Inv(u) && PcRank(LocalOf(u, k).pc) >= 10
    ensures WayOf(u, k, env, before, after)
  {
    TurnKeepsWay(w.nodes[k].host, LocalOf(w, k), w.nodes[k].journal, w.t, w.q, env, before, after);
  }

  lemma {:induction false} TookMayMint(w: World, k: nat, u: World, env: Luck)
    requires Runs(w, k) && LocalOf(w, k).pc != Stopped && !Awaiting(LocalOf(w, k).pc) && MayMint(w, k, env)
    requires Took(w, k, u, TurnOf(w, k, env))
    ensures MayMint(u, k, env)
  {
    TurnLands(w.nodes[k].host, LocalOf(w, k), w.nodes[k].journal, w.t, w.q, env);
  }

  lemma {:induction false} LogUntouched(w: World, k: nat, u: World, env: Luck, before: Tables, after: Tables)
    requires WayOf(w, k, env, before, after) && LocalOf(w, k).pc != DoSubmit && Took(w, k, u, TurnOf(w, k, env))
    ensures |u.log| == |w.log|
  {
    TurnKeepsWay(w.nodes[k].host, LocalOf(w, k), w.nodes[k].journal, w.t, w.q, env, before, after);
  }

  lemma {:induction false} TookStillSubmits(w: World, k: nat, u: World, env: Luck)
    requires Runs(w, k) && LocalOf(w, k).pc != Stopped && Took(w, k, u, TurnOf(w, k, env))
    requires DriveOf(w, k, env).submissions == 1 && |u.log| == |w.log|
    ensures DriveOf(u, k, env).submissions == 1 && 10 <= PcRank(LocalOf(u, k).pc) < PcRank(LocalOf(w, k).pc)
  {
    TookDrives(w, k, u, env);
    StillToSubmit(u, k, env);
  }

  lemma {:induction false} TookOn(w: World, k: nat, u: World, env: Luck, before: Tables, after: Tables)
    requires WayOf(w, k, env, before, after) && LocalOf(w, k).pc != DoSubmit && Inv(u)
    requires DriveOf(w, k, env).submissions == 1 && Took(w, k, u, TurnOf(w, k, env))
    ensures WayOf(u, k, env, before, after) && |u.log| == |w.log|
    ensures DriveOf(u, k, env).submissions == 1 && PcRank(LocalOf(u, k).pc) < PcRank(LocalOf(w, k).pc)
  {
    LogUntouched(w, k, u, env, before, after);
    TookStillSubmits(w, k, u, env);
    TookKeepsWay(w, k, u, env, before, after);
  }

  lemma {:induction false} WayIsOpen(w: World, k: nat, env: Luck, before: Tables, after: Tables)
    requires WayOf(w, k, env, before, after) && MayMint(w, k, env)
    ensures CanTurn(w, k, env)
  {
  }

  /** The cycle can take a turn. */
  ghost predicate CanTurn(w: World, k: nat, env: Luck) {
    && Inv(w) && Runs(w, k) && LocalOf(w, k).pc != Stopped && !Awaiting(LocalOf(w, k).pc)
    && (LocalOf(w, k).pc == AskReady ==> env.entryId !in w.owner)
  }

  lemma {:induction false} TakesTurn(w: World, k: nat, env: Luck) returns (u: World)
    requires CanTurn(w, k, env)
    ensures Leads(w, u) && Inv(u) && Took(w, k, u, TurnOf(w, k, env))
  {
    u := TurnLeads(w, k, env);
    LeadsKeepsInv(w, u);
  }

  /** A cycle that will submit comes to the point where it does. */
  lemma {:induction false} ReachesSubmission(w: World, k: nat, env: Luck, before: Tables, after: Tables)
    returns (u: World)
    requires WayOf(w, k, env, before, after) && MayMint(w, k, env) && DriveOf(w, k, env).submissions == 1
    ensures Leads(w, u) && WayOf(u, k, env, before, after) && LocalOf(u, k).pc == DoSubmit
    ensures |u.log| == |w.log| && u.forged == w.forged && u.q == w.q && u.nodes[k].host == w.nodes[k].host
    decreases PcRank(LocalOf(w, k).pc)
  {
    if LocalOf(w, k).pc == DoSubmit {
      u := w;
      LeadsNowhere(w);
    } else {
      WayIsOpen(w, k, env, before, after);
      var v := TakesTurn(w, k, env);
      TookMayMint(w, k, v, env);
      TookOn(w, k, v, env, before, after);
      u := ReachesSubmission(v, k, env, before, after);
      LeadsOn(w, v, u);
    }
  }

  lemma {:induction false} MessageAtSubmission(f: Facts, k: nat, host: string, j: Journal, l: Local, id: string)
    requires l.pc == DoSubmit && EntryHeld(f, k, host, j, l) && |f.born| == 1 && f.born[0].id == id
    ensures l.e.message.Some? && l.e.message.value.id == id
  {
  }

  lemma {:induction false} ReceiptAtSubmission(l: Local, env: Luck, id: string)
    requires Drafted(l.e, env) && l.e.message.value.id == id && env.submission.Some? && IsUuid(env.submission.value)
    ensures SubmitAnswer(l, env.submission).e.receipt
            == ReceiptBody(env.receiptId, id, Submitted, env.submission.value, "")
  {
  }

  /** The receipt at the point of submission, when there is only one message. */
  lemma {:induction false} AtSubmission(w: World, k: nat, env: Luck, before: Tables, after: Tables, id: string)
    requires WayOf(w, k, env, before, after) && LocalOf(w, k).pc == DoSubmit
    requires |w.t.born| == 1 && w.t.born[0].id == id && env.submission.Some? && IsUuid(env.submission.value)
    ensures w.t == after
    ensures SubmitAnswer(LocalOf(w, k), env.submission).e.receipt
            == ReceiptBody(env.receiptId, id, Submitted, env.submission.value, "")
  {
    assert NodeOk(FactsOf(w), k, w.nodes[k]);
    MessageAtSubmission(FactsOf(w), k, w.nodes[k].host, w.nodes[k].journal, LocalOf(w, k), id);
    ReceiptAtSubmission(LocalOf(w, k), env, id);
  }

  lemma {:induction false} SubmitsNow(w: World, k: nat, env: Luck) returns (u: World)
    requires Inv(w) && Runs(w, k) && LocalOf(w, k).pc == DoSubmit
    ensures Leads(w, u) && Inv(u) && Runs(u, k) && LocalOf(u, k).pc == SaveOutcome && |u.log| == |w.log| + 1
    ensures LocalOf(u, k).e == SubmitAnswer(LocalOf(w, k), env.submission).e
    ensures u.t == w.t && u.q == w.q && u.forged == w.forged && u.nodes[k].host == w.nodes[k].host
  {
    u := TurnLeads(w, k, env);
    SubmitTurn(w.nodes[k].host, LocalOf(w, k), w.nodes[k].journal, w.t, w.q, env);
    LeadsKeepsInv(w, u);
  }

  lemma {:induction false} SavesOutcome(w: World, k: nat, env: Luck) returns (u: World)
    requires Inv(w) && Runs(w, k) && LocalOf(w, k).pc == SaveOutcome
    ensures Leads(w, u) && Runs(u, k) && LocalOf(u, k).pc == CallReport && LocalOf(u, k).e == LocalOf(w, k).e
    ensures u.t == w.t && u.q == w.q && u.forged == w.forged && u.nodes[k].host == w.nodes[k].host
    ensures |u.log| == |w.log|
  {
    u := TurnLeads(w, k, env);
    SaveTurn(w.nodes[k].host, LocalOf(w, k), w.nodes[k].journal, w.t, w.q, env);
  }

  lemma {:induction false} WillSubmit(ws: seq<World>, evs: seq<Event>, n: nat, k: nat, env: Luck)
    requires IsRun(ws, evs) && Initial(ws[0]) && n < |ws| && k in ws[n].nodes
    requires GoodLuck(ws[n].t, ws[n].nodes[k].host, env)
    requires CanDeliver(ws[n].t, ws[n].q, ws[n].nodes[k].host, ws[n].nodes[k].journal, env)
    ensures Inv(ws[n])
    ensures Drive(ws[n].nodes[k].host, START, ws[n].nodes[k].journal, ws[n].t, ws[n].q, env).submissions == 1
  {
    Reachable(ws, evs, n);
    IdsAlwaysFit(ws, evs, n);
    InvTables(ws[n]);
    DriveDelivers(ws[n].nodes[k].host, ws[n].nodes[k].journal, ws[n].t, ws[n].q, env);
  }

  /** An idle host takes up the only message and submits it, and comes to its report. */
  lemma {:induction false} BeforeReport(w: World, k: nat, env: Luck, id: string) returns (u: World)
    requires Inv(w) && k in w.nodes && env.entryId !in w.owner && Next(w.nodes[k].journal.pending).None?
    requires Drive(w.nodes[k].host, START, w.nodes[k].journal, w.t, w.q, env).submissions == 1
    requires env.submission.Some? && IsUuid(env.submission.value)
    requires var t := RunCall(w.t, w.q, Call.Claim(w.nodes[k].host, env.entryId, env.now)).0;
             |t.born| == 1 && t.born[0].id == id
    ensures Leads(w, u) && Runs(u, k) && LocalOf(u, k).pc == CallReport && u.nodes[k].host == w.nodes[k].host
    ensures LocalOf(u, k).e.receipt == ReceiptBody(env.receiptId, id, Submitted, env.submission.value, "")
    ensures u.t == RunCall(w.t, w.q, Call.Claim(w.nodes[k].host, env.entryId, env.now)).0
    ensures |u.log| == |w.log| + 1 && u.forged == w.forged && u.q == w.q
  {
    var after := RunCall(w.t, w.q, Call.Claim(w.nodes[k].host, env.entryId, env.now)).0;
    var v := RestartLeads(w, k);
    LeadsKeepsInv(w, v);
    var at := ReachesSubmission(v, k, env, w.t, after);
    AtSubmission(at, k, env, w.t, after, id);
    var done := SubmitsNow(at, k, env);
    u := SavesOutcome(done, k, env);
    LeadsOn(w, v, at);
    LeadsOn(w, at, done);
    LeadsOn(w, done, u);
  }

  lemma {:induction false} LogStays(ws: seq<World>, evs: seq<Event>, n: nat)
    requires IsRun(ws, evs) && n < |ws|
    ensures |ws[0].log| <= |ws[n].log| && forall i :: 0 <= i < |ws[0].log| ==> ws[n].log[i] == ws[0].log[i]
  {
    if n > 0 {
      LogStays(ws, evs, n - 1);
      LogOnlyGrows(ws[n - 1], evs[n - 1]);
    }
  }

  lemma {:induction false} LeadsKeepsLog(w: World, u: World)
    requires Leads(w, u)
    ensures |w.log| <= |u.log| && forall i :: 0 <= i < |w.log| ==> u.log[i] == w.log[i]
  {
    var ws, evs :| IsRun(ws, evs) && ws[0] == w && ws[|ws| - 1] == u;
    LogStays(ws, evs, |ws| - 1);
  }

  /** The report goes out. */
  lemma {:induction false} Reports(w: World, k: nat, env: Luck) returns (u: World)
    requires Inv(w) && Runs(w, k) && LocalOf(w, k).pc == CallReport
    ensures Leads(w, u) && u.forged == w.forged && u.log == w.log
    ensures u.t == RunCall(w.t, w.q, Call.Report(w.nodes[k].host, LocalOf(w, k).e.receipt, env.now)).0
  {
    u := TurnLeads(w, k, env);
    ReportTurn(w.nodes[k].host, LocalOf(w, k), w.nodes[k].journal, w.t, w.q, env);
    LeadsKeepsLog(w, u);
  }

  /** While the receiver waits to report, another client completes the message, retention deletes it, the sender sends
      again and the new row is claimed. */
  lemma {:induction false} TurnsOver(w: World, host: string, sender: string, c: MessageBody, first: string,
          second: string, attempt: string, now: int) returns (u: World)
    requires OnlyMessage(w.t, host, MessageId(sender, c.request)) && PositiveQuota(w.q) && w.t.receipts == []
    requires w.t.messages[MessageId(sender, c.request)].state == Dispatching
    requires w.t.messages[MessageId(sender, c.request)].thread == c.thread
    requires IsHost(sender) && ValidMessage(c) && c.target == host
    requires IsUuid(first) && IsUuid(second) && IsUuid(attempt) && first != second
    ensures Beside(w, u) && u.forged == w.forged && OnlyMessage(u.t, host, MessageId(sender, c.request))
    ensures u.t.receipts == []
    ensures u.t.messages[MessageId(sender, c.request)]
            == Row(sender, c.request, host, c.thread, c.prompt, Dispatching, attempt, "", "", now, now, |w.t.born|)
  {
    var id := MessageId(sender, c.request);
    MessageIdFits(sender, c.request);
    var completed := Completes(w, host, id, first, second, now);
    var resent := SentAgain(completed, host, sender, c, now);
    u := Claims(resent, host, id, attempt, now);
    BesideOn(w, completed, resent);
    BesideOn(w, resent, u);
  }

  /** The first life of the message: claimed and submitted by this host, and not yet reported. */
  ghost predicate AwaitsReport(u: World, k: nat, host: string, id: string, b: MessageBody, env: Luck) {
    && Inv(u) && Runs(u, k) && LocalOf(u, k).pc == CallReport && u.nodes[k].host == host && u.forged == {}
    && LocalOf(u, k).e.receipt
       == ReceiptBody(env.receiptId, id, Submitted, if env.submission.Some? then env.submission.value else "", "")
    && OnlyMessage(u.t, host, id) && u.t.messages[id].state == Dispatching && u.t.messages[id].thread == b.thread
    && u.t.receipts == [] && |u.t.born| == 1 && u.t.born[0].prompt == b.prompt && |u.log| == 1
  }

  lemma {:induction false} QueuedDelivers(w: World, k: nat, id: string, env: Luck)
    requires k in w.nodes && OnlyMessage(w.t, w.nodes[k].host, id) && w.t.messages[id].state == Queued
    requires w.t.attempts == map[] && w.t.receipts == [] && PositiveQuota(w.q) && IsUuid(env.entryId)
    requires w.nodes[k].journal == Journal(map[w.t.messages[id].thread := true], []) && IsUuid(env.receiptId)
    ensures GoodLuck(w.t, w.nodes[k].host, env)
    ensures CanDeliver(w.t, w.q, w.nodes[k].host, w.nodes[k].journal, env)
  {
    var host := w.nodes[k].host;
    assert HostAttempts(w.t, host) == {};
    assert IsClaimable(w.t, host, id);
    assert (w.t.messages[id].created, id) in Claimable(w.t, host);
  }

  /** The task enrolled on both sides, the message queued, and the host idle. */
  ghost predicate IsReadyFor(w: World, k: nat, id: string, b: MessageBody) {
    && k in w.nodes && w.nodes[k].host == b.target && w.nodes[k].journal == Journal(map[b.thread := true], [])
    && w.owner == map[] && w.log == [] && w.forged == {} && PositiveQuota(w.q)
    && OnlyMessage(w.t, b.target, id) && w.t.messages[id].state == Queued && w.t.messages[id].thread == b.thread
    && w.t.attempts == map[] && w.t.receipts == [] && |w.t.born| == 1
    && w.t.born[0].id == id && w.t.born[0].prompt == b.prompt
  }

  lemma {:induction false} GetsReady(w: World, k: nat, sender: string, title: string, b: MessageBody, now: int)
    returns (u: World)
    requires Initial(w) && k in w.nodes && PositiveQuota(w.q) && IsText(title, 200) && IsHost(sender)
    requires ValidMessage(b) && b.target == w.nodes[k].host
    ensures Leads(w, u) && IsReadyFor(u, k, MessageId(sender, b.request), b)
  {
    var queued := Queues(w, sender, title, b, now);
    u := EnrolLeads(queued, k, b.thread);
    LeadsOn(w, queued, u);
  }

  lemma {:induction false} ReadySubmits(w: World, u: World, k: nat, id: string, b: MessageBody, env: Luck)
    requires Initial(w) && Leads(w, u) && IsReadyFor(u, k, id, b) && IsUuid(env.entryId) && IsUuid(env.receiptId)
    ensures Inv(u) && Drive(u.nodes[k].host, START, u.nodes[k].journal, u.t, u.q, env).submissions == 1
  {
    QueuedDelivers(u, k, id, env);
    var ws, evs :| IsRun(ws, evs) && ws[0] == w && ws[|ws| - 1] == u;
    WillSubmit(ws, evs, |ws| - 1, k, env);
  }

  lemma {:induction false} FirstLife(w: World, k: nat, id: string, b: MessageBody, env: Luck) returns (u: World)
    requires Inv(w) && IsReadyFor(w, k, id, b) && IsUuid(env.entryId)
    requires Drive(w.nodes[k].host, START, w.nodes[k].journal, w.t, w.q, env).submissions == 1
    requires env.submission.Some? && IsUuid(env.submission.value)
    ensures Leads(w, u) && AwaitsReport(u, k, b.target, id, b, env) && u.q == w.q
  {
    ClaimIt(w.t, w.q, b.target, id, env.entryId, env.now);
    u := BeforeReport(w, k, env, id);
    LeadsKeepsInv(w, u);
  }

  lemma {:induction false} FirstLifeLogged(u: World, k: nat, host: string, id: string, b: MessageBody, env: Luck)
    requires AwaitsReport(u, k, host, id, b, env)
    ensures u.log[0].life == 0 && u.log[0].prompt == b.prompt
  {
    assert SubmissionOk(FactsOf(u), FactsOf(u).log[0]);
  }

  /** A receiver that reports late: meanwhile another client has completed the message, retention has deleted it and the
      sender has used its request ID again. The coordinator records the new message, which nobody submitted, as
      submitted - and no client claimed a submission but the one that made it. */
  lemma {:induction false} LateReceipt(w: World, k: nat, sender: string, title: string, b: MessageBody, c: MessageBody,
          env: Luck, first: string, second: string, attempt: string) returns (u: World)
    requires Initial(w) && k in w.nodes && PositiveQuota(w.q) && IsText(title, 200) && IsHost(sender)
    requires ValidMessage(b) && b.target == w.nodes[k].host && IsUuid(env.entryId) && IsUuid(env.receiptId)
    requires env.submission.Some? && IsUuid(env.submission.value)
    requires ValidMessage(c) && c.request == b.request && c.target == b.target && c.thread == b.thread
    requires IsUuid(first) && IsUuid(second) && IsUuid(attempt) && first != second
    ensures var id := MessageId(sender, b.request);
            && Leads(w, u) && u.forged == {} && id in u.t.messages && u.t.messages[id].state == Submitted
            && u.t.messages[id].prompt == c.prompt && |u.log| == 1 && u.log[0].prompt == b.prompt
            && u.log[0].life != u.t.messages[id].life
  {
    var id, host := MessageId(sender, b.request), b.target;
    var ready := GetsReady(w, k, sender, title, b, env.now);
    ReadySubmits(w, ready, k, id, b, env);
    var before := FirstLife(ready, k, id, b, env);
    FirstLifeLogged(before, k, host, id, b, env);
    var over := TurnsOver(before, host, sender, c, first, second, attempt, env.now);
    LeadsKeepsInv(before, over);
    u := Reports(over, k, env);
    MessageIdFits(sender, b.request);
    ClaimedReceipt(env.receiptId, id, env.submission.value);
    ReportIt(over.t, over.q, host, id, LocalOf(over, k).e.receipt, env.now);
    LeadsOn(w, ready, before);
    LeadsOn(w, before, over);
    LeadsOn(w, over, u);
  }
}
