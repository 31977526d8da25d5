/** Request handlers of the coordinator, cut at their database round trips: a first read, one atomic batch
    and a read-back. Handlers of other requests may run between any two of these. */
module RelayHandlers {
  import opened Basics
  import opened RelayTables
  import opened RelayLease
  import opened RelayReceipts

  datatype Call =
    | Register(host: string, thread: string, title: string, enabled: bool, now: int)
    | Send(host: string, message: MessageBody, now: int)
    | Ready(host: string)
    | Claim(host: string, request: string, now: int)
    | Report(host: string, receipt: ReceiptBody, now: int)
    | Inspect(host: string, id: string)

  /** A message row as a response shows it. */
  datatype View = View(id: string, row: Row)

  datatype Response =
    | Refused(status: int)
    | Registered
    | Shown(view: View)
    | IsReady(ready: bool)
    | Delivered(message: Option<View>)
    | Receipted(stored: Receipt)

  datatype Stage =
    | Arrived                  // before validation and the first read
    | Replaying(id: string)    // claim: the attempt exists, its message is read next
    | Committing               // before the batch
    | Committed                // before the read-back
    | Joining                  // claim: the attempt was read back, its message is read next
    | Refusing                 // send: no row came back, the reason is read next
    | Answered(response: Response)

  predicate ValidMessage(b: MessageBody) {
    IsUuid(b.request) && IsHost(b.target) && IsUuid(b.thread) && IsText(b.prompt, 16384)
  }

  predicate ValidReceipt(b: ReceiptBody) {
    && IsUuid(b.request) && IsText(b.message, 110) && Reportable(b.state)
    && (b.submission == "" || IsUuid(b.submission)) && Utf8Len(b.evidence) <= 2048
    && (b.state == Submitted ==> IsUuid(b.submission))
    && (b.state in {Acknowledged, Completed} ==> b.evidence != "")
  }

  predicate SameContent(row: Row, b: MessageBody) {
    row.target == b.target && row.thread == b.thread && row.prompt == b.prompt
  }

  function ShowSent(t: Tables, id: string, b: MessageBody): Response
    requires id in t.messages
  {
    if SameContent(t.messages[id], b) then Shown(View(id, t.messages[id])) else Refused(409)
  }

  function RegisterStep(t: Tables, q: Quota, c: Call, s: Stage): (Tables, Stage)
    requires c.Register?
  {
    match s
    case Arrived => (t, if IsUuid(c.thread) && IsText(c.title, 200) then Committing else Answered(Refused(400)))
    case Committing => (TaskBatch(t, q, c.host, c.thread, c.title, c.enabled, c.now), Committed)
    case Committed => (t, Answered(if (c.host, c.thread) in t.tasks then Registered else Refused(429)))
    case _ => (t, s)
  }

  function SendStep(t: Tables, q: Quota, c: Call, s: Stage): (Tables, Stage)
    requires c.Send?
  {
    var b := c.message;
    var id := MessageId(c.host, b.request);
    match s
    case Arrived =>
      (t, if !ValidMessage(b) then Answered(Refused(400))
          else if id in t.messages then Answered(ShowSent(t, id, b))
          else Committing)
    case Committing => (SendBatch(t, q, c.host, b, c.now), Committed)
    case Committed => (t, if id in t.messages then Answered(ShowSent(t, id, b)) else Refusing)
    case Refusing => (t, Answered(Refused(if Enrolled(t, b.target, b.thread) then 429 else 409)))
    case _ => (t, s)
  }

  function ReadMessage(t: Tables, id: string): Option<View> {
    if id in t.messages then Some(View(id, t.messages[id])) else None
  }

  ghost function ClaimStep(t: Tables, q: Quota, c: Call, s: Stage): (Tables, Stage)
    requires c.Claim?
  {
    var key := (c.host, c.request);
    match s
    case Arrived =>
      (t, if !IsUuid(c.request) then Answered(Refused(400))
          else if key in t.attempts then
            match t.attempts[key].message
            case Some(id) => Replaying(id)
            case None => Answered(Delivered(None))
          else Committing)
    case Replaying(id) => (t, Answered(Delivered(ReadMessage(t, id))))
    case Committing => (ClaimBatch(t, q, c.host, c.request, c.now), Committed)
    case Committed => (t, if key in t.attempts then Joining else Answered(Refused(429)))
    case Joining =>
      (t, Answered(Delivered(
         if key in t.attempts && t.attempts[key].message.Some? then ReadMessage(t, t.attempts[key].message.value)
         else None)))
    case _ => (t, s)
  }

  function ReportStep(t: Tables, c: Call, s: Stage): (Tables, Stage)
    requires c.Report?
  {
    var b := c.receipt;
    var stored := FindReceipt(t.receipts, c.host, b.request);
    match s
    case Arrived =>
      (t, if !ValidReceipt(b) then Answered(Refused(400))
          else if stored.Some? then Answered(if SameReceipt(stored.value, b) then Receipted(stored.value)
                                             else Refused(409))
          else Committing)
    case Committing => (ReceiptBatch(t, c.host, b, c.now), Committed)
    case Committed =>
      (t, Answered(if stored.Some? && SameReceipt(stored.value, b) then Receipted(stored.value) else Refused(409)))
    case _ => (t, s)
  }

  function InspectStep(t: Tables, c: Call, s: Stage): (Tables, Stage)
    requires c.Inspect?
  {
    match s
    case Arrived =>
      (t, Answered(
         if !IsText(c.id, 110) then Refused(400)
         else if c.id in t.messages && c.host in {t.messages[c.id].sender, t.messages[c.id].target}
         then Shown(View(c.id, t.messages[c.id]))
         else Refused(404)))
    case _ => (t, s)
  }

  function ReadyStep(t: Tables, c: Call, s: Stage): (Tables, Stage)
    requires c.Ready?
  {
    match s
    case Arrived => (t, Answered(IsReady(Claimable(t, c.host) != {})))
    case _ => (t, s)
  }

  ghost function Step(t: Tables, q: Quota, c: Call, s: Stage): (Tables, Stage) {
    match c
    case Register(_, _, _, _, _) => RegisterStep(t, q, c, s)
    case Send(_, _, _) => SendStep(t, q, c, s)
    case Ready(_) => ReadyStep(t, c, s)
    case Claim(_, _, _) => ClaimStep(t, q, c, s)
    case Report(_, _, _) => ReportStep(t, c, s)
    case Inspect(_, _) => InspectStep(t, c, s)
  }

  // ---- what every handler step keeps ----

  ghost predicate TablesInv(t: Tables) {
    LeaseInv(t) && ReceiptsInv(t)
  }

  /** A batch is only reached after validation. */
  predicate StageOk(c: Call, s: Stage) {
    s == Committing ==>
      match c
      case Send(_, b, _) => ValidMessage(b)
      case Report(_, b, _) => ValidReceipt(b)
      case _ => true
  }

  /** The batch a request commits; requests that only read commit nothing. */
  ghost function Batch(t: Tables, q: Quota, c: Call): Tables {
    match c
    case Register(h, th, ti, e, n) => TaskBatch(t, q, h, th, ti, e, n)
    case Send(h, b, n) => SendBatch(t, q, h, b, n)
    case Claim(h, r, n) => ClaimBatch(t, q, h, r, n)
    case Report(h, b, n) => ReceiptBatch(t, h, b, n)
    case _ => t
  }

  /** Reads and read-backs leave the tables alone: a handler has at most one write, its batch. */
  lemma {:induction false} StepWritesOnlyItsBatch(t: Tables, q: Quota, c: Call, s: Stage)
    ensures Step(t, q, c, s).0 == if s == Committing then Batch(t, q, c) else t
    ensures StageOk(c, Step(t, q, c, s).1)
  {
  }

  lemma {:induction false} AdvancesReflexive(t: Tables)
    ensures Advances(t, t)
  {
  }

  lemma {:induction false} BatchKeepsLease(t: Tables, q: Quota, c: Call)
    requires LeaseInv(t) && StageOk(c, Committing)
    ensures LeaseInv(Batch(t, q, c)) && Advances(t, Batch(t, q, c))
  {
    match c
    case Register(h, th, ti, e, n) => TaskBatchKeepsLease(t, q, h, th, ti, e, n);
    case Send(h, b, n) =>
      SendBatchKeepsLease(t, q, h, b, n);
      SendBatchAdvances(t, q, h, b, n);
    case Claim(h, r, n) =>
      ClaimBatchKeepsLease(t, q, h, r, n);
      ClaimBatchAdvances(t, q, h, r, n);
    case Report(h, b, n) =>
      ReceiptBatchKeepsLease(t, h, b, n);
      ReceiptBatchAdvances(t, h, b, n);
    case _ => AdvancesReflexive(t);
  }

  lemma {:induction false} BatchKeepsReceipts(t: Tables, q: Quota, c: Call)
    requires ReceiptsInv(t) && StageOk(c, Committing)
    ensures ReceiptsInv(Batch(t, q, c))
  {
    match c
    case Register(h, th, ti, e, n) => SameMessagesKeepReceipts(t, TaskBatch(t, q, h, th, ti, e, n));
    case Send(h, b, n) => SendBatchKeepsReceipts(t, q, h, b, n);
    case Claim(h, r, n) => ClaimBatchKeepsReceipts(t, q, h, r, n);
    case Report(h, b, n) => ReceiptBatchKeepsReceipts(t, h, b, n);
    case _ =>
  }

  lemma {:induction false} BatchKeepsInv(t: Tables, q: Quota, c: Call)
    requires TablesInv(t) && StageOk(c, Committing)
    ensures TablesInv(Batch(t, q, c)) && Advances(t, Batch(t, q, c))
  {
    BatchKeepsLease(t, q, c);
    BatchKeepsReceipts(t, q, c);
  }

  lemma {:induction false} StepKeepsInv(t: Tables, q: Quota, c: Call, s: Stage)
    requires TablesInv(t) && StageOk(c, s)
    ensures TablesInv(Step(t, q, c, s).0)
    ensures Advances(t, Step(t, q, c, s).0)
    ensures StageOk(c, Step(t, q, c, s).1)
  {
    StepWritesOnlyItsBatch(t, q, c, s);
    if s == Committing {
      BatchKeepsInv(t, q, c);
    } else {
      AdvancesReflexive(t);
    }
  }

  // ---- repeated requests ----

  /** The request's idempotency key is already stored. */
  predicate Known(t: Tables, c: Call) {
    match c
    case Send(h, b, _) => MessageId(h, b.request) in t.messages
    case Claim(h, r, _) => (h, r) in t.attempts
    case Report(h, b, _) => FindReceipt(t.receipts, h, b.request).Some?
    case _ => false
  }

  /** The stored content is what the request carries. */
  predicate Agrees(t: Tables, c: Call)
    requires Known(t, c)
  {
    match c
    case Send(h, b, _) => SameContent(t.messages[MessageId(h, b.request)], b)
    case Claim(_, _, _) => true
    case Report(h, b, _) => SameReceipt(FindReceipt(t.receipts, h, b.request).value, b)
  }

  lemma {:induction false} KnownWritesNothing(t: Tables, q: Quota, c: Call, s: Stage)
    requires TablesInv(t) && Known(t, c)
    ensures Step(t, q, c, s).0 == t
  {
    match c
    case Send(h, b, n) =>
    case Claim(h, r, n) => ClaimReplayIsNoop(t, q, h, r, n);
    case Report(h, b, n) => ReceiptReplayIsNoop(t, h, b, n);
  }

  lemma {:induction false} FindInLonger(rs: seq<Receipt>, more: seq<Receipt>, host: string, request: string)
    requires FindReceipt(rs, host, request).Some?
    ensures FindReceipt(rs + more, host, request) == FindReceipt(rs, host, request)
  {
    assert (rs + more)[1..] == rs[1..] + more;
    if rs[0].host != host || rs[0].request != request {
      FindInLonger(rs[1..], more, host, request);
    }
  }

  lemma {:induction false} RowSurvivesBatch(t: Tables, q: Quota, other: Call, id: string)
    requires id in t.messages
    ensures id in Batch(t, q, other).messages
    ensures var r, s := t.messages[id], Batch(t, q, other).messages[id];
            r.target == s.target && r.thread == s.thread && r.prompt == s.prompt
  {
  }

  lemma {:induction false} AttemptSurvivesBatch(t: Tables, q: Quota, other: Call, k: (string, string))
    requires k in t.attempts
    ensures k in Batch(t, q, other).attempts && Batch(t, q, other).attempts[k] == t.attempts[k]
  {
  }

  lemma {:induction false} ReceiptSurvivesBatch(t: Tables, q: Quota, other: Call, host: string, request: string)
    requires ReceiptsInv(t) && FindReceipt(t.receipts, host, request).Some?
    ensures FindReceipt(Batch(t, q, other).receipts, host, request) == FindReceipt(t.receipts, host, request)
  {
    if other.Report? {
      var b := other.receipt;
      ReceiptInsertedIffMoved(t, other.host, b, other.now);
      if Projects(t, other.host, b, other.now) {
        FindInLonger(t.receipts,
          [Receipt(other.host, b.request, b.message, b.state, b.submission, b.evidence, other.now)], host, request);
      }
    }
  }

  lemma {:induction false} KnownSurvivesBatch(t: Tables, q: Quota, c: Call, other: Call)
    requires TablesInv(t) && Known(t, c)
    ensures Known(Batch(t, q, other), c)
    ensures Agrees(Batch(t, q, other), c) == Agrees(t, c)
    ensures c.Claim? ==> Batch(t, q, other).attempts[(c.host, c.request)] == t.attempts[(c.host, c.request)]
  {
    match c
    case Send(h, b, _) => RowSurvivesBatch(t, q, other, MessageId(h, b.request));
    case Claim(h, r, _) => AttemptSurvivesBatch(t, q, other, (h, r));
    case Report(h, b, _) => ReceiptSurvivesBatch(t, q, other, h, b.request);
  }

  /** No other handler removes or alters a stored key, so a repeat stays a repeat until retention deletes it. */
  lemma {:induction false} KnownPersists(t: Tables, q: Quota, c: Call, other: Call, s: Stage)
    requires TablesInv(t) && Known(t, c)
    ensures Known(Step(t, q, other, s).0, c)
    ensures Agrees(Step(t, q, other, s).0, c) == Agrees(t, c)
    ensures c.Claim? ==> Step(t, q, other, s).0.attempts[(c.host, c.request)] == t.attempts[(c.host, c.request)]
  {
    StepWritesOnlyItsBatch(t, q, other, s);
    KnownSurvivesBatch(t, q, c, other);
  }

  /** One request's handler interleaved with any other handlers: at each index either it or another one moves. */
  ghost predicate Interleaving(q: Quota, c: Call, ts: seq<Tables>, stages: seq<Stage>) {
    && |ts| == |stages| >= 1
    && forall i :: 0 <= i < |ts| - 1 ==> Moves(q, c, ts[i], stages[i], ts[i + 1], stages[i + 1])
  }

  ghost predicate Moves(q: Quota, c: Call, t: Tables, s: Stage, t': Tables, s': Stage) {
    (t', s') == Step(t, q, c, s) || (s' == s && OtherMoves(q, t, t'))
  }

  ghost predicate OtherMoves(q: Quota, t: Tables, t': Tables) {
    exists other: Call, at: Stage :: StageOk(other, at) && t' == Step(t, q, other, at).0
  }

  /** Stages from which a request whose key is stored can still answer. */
  predicate ReplayStage(t: Tables, c: Call, s: Stage)
    requires Known(t, c)
  {
    match s
    case Arrived => true
    case Committing => true
    case Committed => true
    case Joining => c.Claim?
    case Replaying(id) => c.Claim? && t.attempts[(c.host, c.request)].message == Some(id)
    case Refusing => false
    case Answered(r) =>
      r == Refused(400) || ReplayAnswer(t, c, r)
  }

  /** What a repeat is told: the stored row or receipt, or a conflict when the content differs. */
  predicate ReplayAnswer(t: Tables, c: Call, r: Response)
    requires Known(t, c)
  {
    match c
    case Send(h, b, _) => if Agrees(t, c) then r.Shown? && r.view.id == MessageId(h, b.request) else r == Refused(409)
    case Claim(h, rq, _) =>
      && r.Delivered?
      && r.message.Some? == t.attempts[(h, rq)].message.Some?
      && (r.message.Some? ==> r.message.value.id == t.attempts[(h, rq)].message.value)
    case Report(h, b, _) => if Agrees(t, c) then r.Receipted? && SameReceipt(r.stored, b) else r == Refused(409)
  }

  lemma {:induction false} SendReplayStep(t: Tables, q: Quota, c: Call, s: Stage)
    requires c.Send? && Known(t, c) && ReplayStage(t, c, s)
    ensures ReplayStage(t, c, SendStep(t, q, c, s).1)
  {
  }

  lemma {:induction false} ClaimReplayStep(t: Tables, q: Quota, c: Call, s: Stage)
    requires c.Claim? && LeaseInv(t) && Known(t, c) && ReplayStage(t, c, s)
    ensures ReplayStage(t, c, ClaimStep(t, q, c, s).1)
  {
    assert AttemptOk(t, (c.host, c.request));
  }

  lemma {:induction false} ReportReplayStep(t: Tables, c: Call, s: Stage)
    requires c.Report? && Known(t, c) && ReplayStage(t, c, s)
    ensures ReplayStage(t, c, ReportStep(t, c, s).1)
  {
  }

  lemma {:induction false} ReplayStageStep(t: Tables, q: Quota, c: Call, s: Stage)
    requires TablesInv(t) && Known(t, c) && ReplayStage(t, c, s)
    ensures ReplayStage(t, c, Step(t, q, c, s).1)
  {
    match c
    case Send(_, _, _) => SendReplayStep(t, q, c, s);
    case Claim(_, _, _) => ClaimReplayStep(t, q, c, s);
    case Report(_, _, _) => ReportReplayStep(t, c, s);
  }

  lemma {:induction false} ReplayStageKept(t: Tables, u: Tables, c: Call, s: Stage)
    requires Known(t, c) && Known(u, c) && Agrees(t, c) == Agrees(u, c)
    requires c.Claim? ==> u.attempts[(c.host, c.request)] == t.attempts[(c.host, c.request)]
    requires ReplayStage(t, c, s)
    ensures ReplayStage(u, c, s)
  {
  }

  lemma {:induction false} ReplayMove(q: Quota, c: Call, t: Tables, s: Stage, t': Tables, s': Stage)
    requires TablesInv(t) && Known(t, c) && StageOk(c, s) && ReplayStage(t, c, s)
    requires Moves(q, c, t, s, t', s')
    ensures TablesInv(t') && Known(t', c) && StageOk(c, s') && ReplayStage(t', c, s') && Agrees(t', c) == Agrees(t, c)
    ensures c.Claim? ==> t'.attempts[(c.host, c.request)] == t.attempts[(c.host, c.request)]
  {
    if (t', s') == Step(t, q, c, s) {
      StepKeepsInv(t, q, c, s);
      KnownWritesNothing(t, q, c, s);
      ReplayStageStep(t, q, c, s);
    } else {
      var other: Call, at: Stage :| StageOk(other, at) && t' == Step(t, q, other, at).0;
      StepKeepsInv(t, q, other, at);
      KnownPersists(t, q, c, other, at);
      ReplayStageKept(t, t', c, s);
    }
  }

  ghost predicate StillReplays(c: Call, first: Tables, t: Tables, s: Stage) {
    && TablesInv(t) && Known(t, c) && StageOk(c, s) && ReplayStage(t, c, s) && Known(first, c)
    && Agrees(t, c) == Agrees(first, c)
    && (c.Claim? ==> t.attempts[(c.host, c.request)] == first.attempts[(c.host, c.request)])
  }

  lemma {:induction false} ReplaysOn(q: Quota, c: Call, ts: seq<Tables>, stages: seq<Stage>, i: nat)
    requires Interleaving(q, c, ts, stages) && i < |ts|
    requires TablesInv(ts[0]) && Known(ts[0], c) && StageOk(c, stages[0]) && ReplayStage(ts[0], c, stages[0])
    ensures StillReplays(c, ts[0], ts[i], stages[i])
  {
    if i > 0 {
      ReplaysOn(q, c, ts, stages, i - 1);
      assert Moves(q, c, ts[i - 1], stages[i - 1], ts[i - 1 + 1], stages[i - 1 + 1]);
      ReplayMove(q, c, ts[i - 1], stages[i - 1], ts[i], stages[i]);
    }
  }

  /** Once a key is stored, a request that carries it never changes a table, under any interleaving with other
      handlers and from any stage it may already have reached, and it is told the stored outcome or a conflict. */
  lemma {:induction false} ReplaySafety(q: Quota, c: Call, ts: seq<Tables>, stages: seq<Stage>, i: nat)
    requires Interleaving(q, c, ts, stages) && i < |ts|
    requires TablesInv(ts[0]) && Known(ts[0], c) && StageOk(c, stages[0]) && ReplayStage(ts[0], c, stages[0])
    ensures Step(ts[i], q, c, stages[i]).0 == ts[i]
    ensures stages[i].Answered? ==> stages[i].response == Refused(400) || ReplayAnswer(ts[0], c, stages[i].response)
  {
    ReplaysOn(q, c, ts, stages, i);
    KnownWritesNothing(ts[i], q, c, stages[i]);
  }
}
