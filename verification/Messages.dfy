/** Durable coordination messages: idempotent creation, quota-driven pruning of delivered messages, and replay records
    that outlive the messages they describe. Deliveries live and die with their message. */
module Messages {
  import opened Basics
  import opened Listing

  const MESSAGE_CAP: nat := 1000
  const DELIVERY_CAP: nat := 5000
  const REPLAY_CAP: nat := 1000
  const EVENT_CAP: nat := 100

  datatype State = Queued | Steered | Delivered | Other(name: string)

  datatype Event = Event(state: State, error: string, at: string)

  datatype Delivery = Delivery(recipient: string, state: State, error: string, created: string, updated: string,
                               history: seq<Event>)

  /** `created` is the time as stored, which is what the queries order by. */
  datatype Message = Message(request: string, kind: string, from: string, body: string, mark: string, created: string,
                             deliveries: seq<Delivery>)

  /** A stored result for a request ID. */
  datatype Replay = Replay(mark: string, id: string, message: Message)

  datatype Box = Box(messages: map<string, Message>, replays: map<string, Replay>)

  datatype Failure = NoRequest | NoId | NoBody | NoRecipients | Mismatch | Quota | Conflict

  datatype Result = Sent(id: string, message: Message, replayed: bool) | Failed(error: Failure)

  // ---- counting ----

  /** One element per stored delivery. */
  function Slots(ms: map<string, Message>): set<(string, nat)> {
    set id, i: nat | id in ms && i < |ms[id].deliveries| :: (id, i)
  }

  predicate Roomy(ms: map<string, Message>, incoming: nat) {
    |ms| < MESSAGE_CAP && |Slots(ms)| + incoming <= DELIVERY_CAP
  }

  // ---- what may be pruned, oldest first ----

  predicate FullyDelivered(m: Message) {
    m.deliveries != [] && forall i :: 0 <= i < |m.deliveries| ==> m.deliveries[i].state == Delivered
  }

  /** ORDER BY created_at, id: text order on the stored time. */
  predicate OlderText(a: (string, string), b: (string, string)) {
    Less(a.0, b.0) || (a.0 == b.0 && Less(a.1, b.1))
  }

  lemma {:induction false} OlderTextTransitive(a: (string, string), b: (string, string), c: (string, string))
    requires OlderText(a, b) && OlderText(b, c)
    ensures OlderText(a, c)
  {
    if Less(a.0, b.0) && Less(b.0, c.0) { LessTransitive(a.0, b.0, c.0); }
    if Less(a.1, b.1) && Less(b.1, c.1) { LessTransitive(a.1, b.1, c.1); }
  }

  lemma {:induction false} OlderTextIsStrict()
    ensures StrictOrder(OlderText)
  {
    forall a: (string, string) ensures !OlderText(a, a) {
      LessIrreflexive(a.0);
      LessIrreflexive(a.1);
    }
    forall a: (string, string), b: (string, string) ensures OlderText(a, b) || a == b || OlderText(b, a) {
      LessTotal(a.0, b.0);
      LessTotal(a.1, b.1);
    }
    forall a: (string, string), b: (string, string), c: (string, string) | OlderText(a, b) && OlderText(b, c)
      ensures OlderText(a, c)
    {
      OlderTextTransitive(a, b, c);
    }
  }

  function Prunable(ms: map<string, Message>): set<(string, string)> {
    set id | id in ms && FullyDelivered(ms[id]) :: (ms[id].created, id)
  }

  ghost function PruneOrder(ms: map<string, Message>): (list: seq<(string, string)>)
    ensures forall p :: p in list <==> p in Prunable(ms)
    ensures Ascending(OlderText, list)
  {
    OlderTextIsStrict();
    Sorted(OlderText, Prunable(ms))
  }

  predicate Among(list: seq<(string, string)>, id: string) {
    exists i :: 0 <= i < |list| && list[i].1 == id
  }

  function Without(ms: map<string, Message>, list: seq<(string, string)>): map<string, Message> {
    map id | id in ms && !Among(list, id) :: ms[id]
  }

  /** Removing the first j of the list makes room. */
  predicate RoomAt(ms: map<string, Message>, list: seq<(string, string)>, incoming: nat, j: nat) {
    Roomy(Without(ms, if j <= |list| then list[..j] else list), incoming)
  }

  /** The first index from k to n that satisfies a condition. */
  ghost function FirstIndex(p: nat -> bool, k: nat, n: nat): (r: Option<nat>)
    requires k <= n
    ensures r.Some? ==> k <= r.value <= n && p(r.value) && forall j :: k <= j < r.value ==> !p(j)
    ensures r.None? ==> forall j :: k <= j <= n ==> !p(j)
    decreases n - k
  {
    if p(k) then Some(k) else if k == n then None else FirstIndex(p, k + 1, n)
  }

  ghost function RoomTest(ms: map<string, Message>, list: seq<(string, string)>, incoming: nat): nat -> bool {
    (j: nat) => RoomAt(ms, list, incoming, j)
  }

  /** The first length, from k on, of a prefix whose removal makes room. */
  ghost function Enough(ms: map<string, Message>, list: seq<(string, string)>, incoming: nat, k: nat): (r: Option<nat>)
    requires k <= |list|
    ensures r.Some? ==> k <= r.value <= |list|
  {
    FirstIndex(RoomTest(ms, list, incoming), k, |list|)
  }

  // ---- replay records ----

  /** Before deletion a message's replay record is brought up to date. */
  function Snapshots(ms: map<string, Message>, replays: map<string, Replay>,
          list: seq<(string, string)>): map<string, Replay> {
    if list == [] then replays
    else
      var earlier, id := Snapshots(ms, replays, list[..|list| - 1]), list[|list| - 1].1;
      if id in ms then earlier[ms[id].request := Replay(ms[id].mark, id, ms[id])] else earlier
  }

  function NewerThan(replays: map<string, Replay>, request: string): set<string>
    requires request in replays
  {
    set r | r in replays && OlderText((replays[request].message.created, request), (replays[r].message.created, r))
  }

  /** Keep the newest records by stored time, then request ID. */
  function KeepNewest(replays: map<string, Replay>, cap: nat): map<string, Replay> {
    map r | r in replays && |NewerThan(replays, r)| < cap :: replays[r]
  }

  // ---- operations ----

  function UniqueNonEmpty(values: seq<string>): set<string> {
    set v | v in values && TrimSpace(v) != "" :: TrimSpace(v)
  }

  ghost function Recipients(values: seq<string>): seq<string> {
    LessIsStrict();
    Sorted(Less, UniqueNonEmpty(values))
  }

  function NewDeliveries(recipients: seq<string>, created: string): seq<Delivery> {
    seq(|recipients|, i requires 0 <= i < |recipients| =>
      Delivery(recipients[i], Queued, "", created, created, [Event(Queued, "", created)]))
  }

  datatype Draft = Draft(id: string, request: string, kind: string, from: string, body: string, created: string,
                         recipients: seq<string>)

  function DraftError(d: Draft): Option<Failure> {
    if IsBlank(d.request) then Some(NoRequest)
    else if IsBlank(d.id) then Some(NoId)
    else if IsBlank(d.body) then Some(NoBody)
    else if UniqueNonEmpty(d.recipients) == {} then Some(NoRecipients)
    else None
  }

  function WithRequest(ms: map<string, Message>, request: string): set<string> {
    set id | id in ms && ms[id].request == request
  }

  /** What a known request is answered with: the live message first, then the replay record. */
  ghost function Known(b: Box, request: string, mark: string): Option<Result> {
    if WithRequest(b.messages, request) != {} then
      var id :| id in WithRequest(b.messages, request);
      Some(if b.messages[id].mark == mark then Sent(id, b.messages[id], true) else Failed(Mismatch))
    else if request in b.replays then
      var r := b.replays[request];
      Some(if r.mark == mark then Sent(r.id, r.message, true) else Failed(Mismatch))
    else None
  }

  /** Delete the shortest oldest prefix of delivered messages that makes room, or nothing at all. */
  ghost function Prune(b: Box, incoming: nat): Option<Box> {
    if incoming > DELIVERY_CAP then None
    else
      var list := PruneOrder(b.messages);
      var k := Enough(b.messages, list, incoming, 0);
      if k.None? then None
      else Some(Box(Without(b.messages, list[..k.value]), Snapshots(b.messages, b.replays, list[..k.value])))
  }

  ghost function Insert(b: Box, d: Draft, mark: string): (Box, Result) {
    if d.id in b.messages then (b, Failed(Conflict))
    else
      var m := Message(d.request, d.kind, d.from, d.body, mark, d.created,
        NewDeliveries(Recipients(d.recipients), d.created));
      (Box(b.messages[d.id := m], KeepNewest(b.replays[d.request := Replay(mark, d.id, m)], REPLAY_CAP)),
        Sent(d.id, m, false))
  }

  ghost function Create(b: Box, d: Draft, mark: string): (Box, Result) {
    var error := DraftError(d);
    var known := Known(b, d.request, mark);
    if error.Some? then (b, Failed(error.value))
    else if known.Some? then (b, known.value)
    else match Prune(b, |UniqueNonEmpty(d.recipients)|)
         case None => (b, Failed(Quota))
         case Some(pruned) =>
           var r := Insert(pruned, d, mark);
           if r.1.Sent? then r else (b, r.1)
  }

  function LastEvents(h: seq<Event>): seq<Event> {
    if |h| <= EVENT_CAP then h else h[|h| - EVENT_CAP..]
  }

  function UpdateDelivery(b: Box, id: string, i: nat, state: State, error: string, at: string): Box {
    if state.Other? || id !in b.messages || i >= |b.messages[id].deliveries| then b
    else
      var d := b.messages[id].deliveries[i];
      if d.state == state && d.error == error then b
      else
        var u := d.(state := state, error := error, updated := at,
          history := LastEvents(d.history + [Event(state, error, at)]));
        b.(messages := b.messages[id := b.messages[id].(deliveries := b.messages[id].deliveries[i := u])])
  }
}
