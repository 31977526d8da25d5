/** The coordinator's tables and the atomic statement batches that change them.

    Two columns do not exist in the database and record history for the proofs only:
    `born` lists every message row ever inserted (a row's `life` is its place in that list), and
    `leases` remembers which attempt ever took a row lifetime out of the queue. No statement reads them. */
module RelayTables {
  import opened Basics
  import opened Listing

  datatype State = Queued | Dispatching | Submitted | Uncertain | Acknowledged | Completed

  datatype Task = Task(title: string, enabled: bool, updated: int)

  /** SQL NULL in `attempt` and `submission` is the empty string, as the hosts decode it. */
  datatype Row = Row(sender: string, request: string, target: string, thread: string, prompt: string,
                     state: State, attempt: string, submission: string, evidence: string,
                     created: int, updated: int, life: nat)

  datatype Attempt = Attempt(message: Option<string>, created: int)

  datatype Receipt = Receipt(host: string, request: string, message: string, state: State,
                             submission: string, evidence: string, created: int)

  datatype Birth = Birth(id: string, sender: string, request: string, target: string, thread: string, prompt: string)

  datatype Tables = Tables(tasks: map<(string, string), Task>, messages: map<string, Row>,
                           attempts: map<(string, string), Attempt>, receipts: seq<Receipt>,
                           born: seq<Birth>, leases: map<nat, (string, string)>)

  datatype Quota = Quota(tasksPerHost: nat, attemptsPerHost: nat, messagesPerSender: nat,
                         activeMessagesPerSender: nat, activeMessagesPerTarget: nat)

  datatype MessageBody = MessageBody(request: string, target: string, thread: string, prompt: string)

  datatype ReceiptBody = ReceiptBody(request: string, message: string, state: State, submission: string,
                                     evidence: string)

  const EMPTY_TABLES := Tables(map[], map[], map[], [], [], map[])

  // ---- names ----

  function MessageId(host: string, request: string): string {
    host + ":" + request
  }

  lemma {:induction false} MessageIdInjective(h1: string, r1: string, h2: string, r2: string)
    requires IsHost(h1) && IsHost(h2)
    requires MessageId(h1, r1) == MessageId(h2, r2)
    ensures h1 == h2 && r1 == r2
  {
    var m := MessageId(h1, r1);
    assert m[|h1|] == ':' && m[|h2|] == ':';
    assert forall i :: 0 <= i < |h1| ==> m[i] == h1[i];
    assert forall i :: 0 <= i < |h2| ==> m[i] == h2[i];
    assert |h1| == |h2|;
    assert h1 == m[..|h1|] && h2 == m[..|h2|];
    assert r1 == m[|h1| + 1..] && r2 == m[|h2| + 1..];
  }

  // ---- POST /v1/tasks ----

  function HostTasks(t: Tables, host: string): set<(string, string)> {
    set k | k in t.tasks && k.0 == host
  }

  function TaskBatch(t: Tables, q: Quota, host: string, thread: string, title: string, enabled: bool,
          now: int): Tables {
    if (host, thread) in t.tasks || |HostTasks(t, host)| < q.tasksPerHost
    then t.(tasks := t.tasks[(host, thread) := Task(title, enabled, now)])
    else t
  }

  // ---- POST /v1/messages ----

  predicate Enrolled(t: Tables, host: string, thread: string) {
    (host, thread) in t.tasks && t.tasks[(host, thread)].enabled
  }

  function SentBy(t: Tables, host: string): set<string> {
    set id | id in t.messages && t.messages[id].sender == host
  }

  function ActiveFrom(t: Tables, host: string): set<string> {
    set id | id in t.messages && t.messages[id].sender == host && t.messages[id].state != Completed
  }

  function ActiveTo(t: Tables, host: string): set<string> {
    set id | id in t.messages && t.messages[id].target == host && t.messages[id].state != Completed
  }

  predicate SendAdmitted(t: Tables, q: Quota, host: string, b: MessageBody) {
    && Enrolled(t, b.target, b.thread)
    && |SentBy(t, host)| < q.messagesPerSender
    && |ActiveFrom(t, host)| < q.activeMessagesPerSender
    && |ActiveTo(t, b.target)| < q.activeMessagesPerTarget
  }

  function SendBatch(t: Tables, q: Quota, host: string, b: MessageBody, now: int): Tables {
    var id := MessageId(host, b.request);
    if id in t.messages || !SendAdmitted(t, q, host, b) then t
    else
      var row := Row(host, b.request, b.target, b.thread, b.prompt, Queued, "", "", "", now, now, |t.born|);
      t.(messages := t.messages[id := row],
         born := t.born + [Birth(id, host, b.request, b.target, b.thread, b.prompt)])
  }

  // ---- POST /v1/claim ----

  /** Queue order: created_at, then id. */
  predicate Before(a: (int, string), b: (int, string)) {
    a.0 < b.0 || (a.0 == b.0 && Less(a.1, b.1))
  }

  lemma {:induction false} BeforeIsStrict()
    ensures StrictOrder(Before)
  {
    forall x: (int, string) ensures !Before(x, x) { LessIrreflexive(x.1); }
    forall x: (int, string), y: (int, string) ensures Before(x, y) || x == y || Before(y, x) { LessTotal(x.1, y.1); }
    forall x: (int, string), y: (int, string), z: (int, string) | Before(x, y) && Before(y, z) ensures Before(x, z) {
      if x.0 == y.0 == z.0 { LessTransitive(x.1, y.1, z.1); }
    }
  }

  predicate IsClaimable(t: Tables, host: string, id: string) {
    id in t.messages && t.messages[id].target == host && t.messages[id].state == Queued
      && Enrolled(t, host, t.messages[id].thread)
  }

  function Claimable(t: Tables, host: string): set<(int, string)> {
    set id | id in t.messages && IsClaimable(t, host, id) :: (t.messages[id].created, id)
  }

  /** The message that `ORDER BY created_at,id LIMIT 1` picks, if any. */
  ghost function OldestQueued(t: Tables, host: string): (r: Option<string>)
    ensures r.Some? ==> IsClaimable(t, host, r.value)
    ensures r.None? <==> Claimable(t, host) == {}
    ensures r.Some? ==> IsLeast(Before, (t.messages[r.value].created, r.value), Claimable(t, host))
  {
    if Claimable(t, host) == {} then None
    else
      BeforeIsStrict();
      Some(Least(Before, Claimable(t, host)).1)
  }

  function HostAttempts(t: Tables, host: string): set<(string, string)> {
    set k | k in t.attempts && k.0 == host
  }

  /** First statement: record the attempt, empty or not, unless it exists or the quota is spent. */
  ghost function AttemptInsert(t: Tables, q: Quota, host: string, request: string,
          now: int): map<(string, string), Attempt> {
    if (host, request) in t.attempts || |HostAttempts(t, host)| >= q.attemptsPerHost then t.attempts
    else t.attempts[(host, request) := Attempt(OldestQueued(t, host), now)]
  }

  /** The message the second statement moves to `dispatching`: the attempt's, while still queued. */
  function LeaseTarget(messages: map<string, Row>, attempts: map<(string, string), Attempt>, host: string,
          request: string): Option<string> {
    if (host, request) in attempts then
      match attempts[(host, request)].message
      case Some(id) => if id in messages && messages[id].state == Queued then Some(id) else None
      case None => None
    else None
  }

  ghost function ClaimBatch(t: Tables, q: Quota, host: string, request: string, now: int): Tables {
    var attempts := AttemptInsert(t, q, host, request, now);
    match LeaseTarget(t.messages, attempts, host, request)
    case None => t.(attempts := attempts)
    case Some(id) =>
      var row := t.messages[id].(state := Dispatching, attempt := request, updated := now);
      t.(attempts := attempts, messages := t.messages[id := row], leases := t.leases[row.life := (host, request)])
  }

  // ---- POST /v1/receipts ----

  predicate Reportable(s: State) {
    s.Submitted? || s.Uncertain? || s.Acknowledged? || s.Completed?
  }

  /** The transition guard, used by both statements of the batch. */
  predicate Permits(from: State, to: State) {
    match to
    case Submitted => from.Dispatching?
    case Uncertain => from.Dispatching?
    case Acknowledged => from.Submitted? || from.Uncertain? || from.Dispatching?
    case Completed => from.Acknowledged?
    case _ => false
  }

  function FindReceipt(rs: seq<Receipt>, host: string, request: string): Option<Receipt> {
    if rs == [] then None
    else if rs[0].host == host && rs[0].request == request then Some(rs[0])
    else FindReceipt(rs[1..], host, request)
  }

  predicate SameReceipt(r: Receipt, b: ReceiptBody) {
    r.message == b.message && r.state == b.state && r.submission == b.submission && r.evidence == b.evidence
  }

  predicate ReceiptAdmitted(t: Tables, host: string, b: ReceiptBody) {
    b.message in t.messages && t.messages[b.message].target == host && Permits(t.messages[b.message].state, b.state)
  }

  /** First statement: insert the receipt if the transition is allowed and the key is new. */
  function ReceiptInsert(t: Tables, host: string, b: ReceiptBody, now: int): seq<Receipt> {
    if ReceiptAdmitted(t, host, b) && FindReceipt(t.receipts, host, b.request).None?
    then t.receipts + [Receipt(host, b.request, b.message, b.state, b.submission, b.evidence, now)]
    else t.receipts
  }

  function Reported(row: Row, b: ReceiptBody, now: int): Row {
    row.(state := b.state, submission := if b.submission == "" then row.submission else b.submission,
         evidence := b.evidence, updated := now)
  }

  /** Guard of the second statement: the transition is allowed and a receipt with this exact content is stored. */
  predicate Projects(t: Tables, host: string, b: ReceiptBody, now: int) {
    var stored := FindReceipt(ReceiptInsert(t, host, b, now), host, b.request);
    ReceiptAdmitted(t, host, b) && stored.Some? && SameReceipt(stored.value, b)
  }

  function ReceiptBatch(t: Tables, host: string, b: ReceiptBody, now: int): Tables {
    t.(receipts := ReceiptInsert(t, host, b, now),
       messages := if Projects(t, host, b, now) then t.messages[b.message := Reported(t.messages[b.message], b, now)]
                   else t.messages)
  }

  // ---- retention ----

  predicate Expired(t: Tables, cutoff: int, id: string) {
    id in t.messages && t.messages[id].state == Completed && t.messages[id].updated < cutoff
  }

  function Without(rs: seq<Receipt>, gone: set<string>): seq<Receipt> {
    if rs == [] then []
    else if rs[0].message in gone then Without(rs[1..], gone)
    else [rs[0]] + Without(rs[1..], gone)
  }

  predicate AttemptExpired(t: Tables, cutoff: int, a: Attempt) {
    match a.message
    case Some(id) => Expired(t, cutoff, id)
    case None => a.created < cutoff
  }

  function Compact(t: Tables, cutoff: int): Tables {
    var gone := set id | id in t.messages && Expired(t, cutoff, id);
    t.(receipts := Without(t.receipts, gone),
       attempts := map k | k in t.attempts && !AttemptExpired(t, cutoff, t.attempts[k]) :: t.attempts[k],
       messages := map id | id in t.messages && id !in gone :: t.messages[id])
  }
}
