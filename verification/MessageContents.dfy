/** What a stored message says: what its draft said, one delivery per recipient, and the last event of each. */
module MessageContents {
  import opened Basics
  import opened Listing
  import opened Messages
  import opened MessagePruning

  // ---- creation ----

  /** The recipient is named, blanks aside, by one of the strings. */
  ghost predicate Names(values: seq<string>, recipient: string) {
    recipient != "" && exists v :: v in values && TrimSpace(v) == recipient
  }

  /** Header and recipients are the draft's. */
  ghost predicate IsDrafted(m: Message, d: Draft, mark: string) {
    && m.request == d.request && m.kind == d.kind && m.from == d.from && m.body == d.body && m.created == d.created
    && m.mark == mark
    && (forall r :: Names(d.recipients, r) <==> exists i :: 0 <= i < |m.deliveries| && m.deliveries[i].recipient == r)
    && (forall i, j :: 0 <= i < j < |m.deliveries| ==> Less(m.deliveries[i].recipient, m.deliveries[j].recipient))
    && (forall i :: 0 <= i < |m.deliveries| ==> m.deliveries[i].created == d.created)
  }

  predicate IsUntouched(x: Delivery) {
    x.state == Queued && x.error == "" && x.updated == x.created && x.history == [Event(Queued, "", x.created)]
  }

  lemma {:induction false} RecipientsAreNamed(values: seq<string>)
    ensures forall r :: r in Recipients(values) <==> Names(values, r)
    ensures Ascending(Less, Recipients(values))
  {
    LessIsStrict();
  }

  lemma {:induction false} NewNames(values: seq<string>, created: string, r: string)
    ensures var ds := NewDeliveries(Recipients(values), created);
            Names(values, r) <==> exists i :: 0 <= i < |ds| && ds[i].recipient == r
  {
    RecipientsAreNamed(values);
    var rs, ds := Recipients(values), NewDeliveries(Recipients(values), created);
    if Names(values, r) {
      var i :| 0 <= i < |rs| && rs[i] == r;
      assert ds[i].recipient == r;
    }
    if i :| 0 <= i < |ds| && ds[i].recipient == r { assert rs[i] == r; }
  }

  lemma {:induction false} NewIsDrafted(d: Draft, mark: string, m: Message)
    requires m == Message(d.request, d.kind, d.from, d.body, mark, d.created,
               NewDeliveries(Recipients(d.recipients), d.created))
    ensures IsDrafted(m, d, mark) && forall i :: 0 <= i < |m.deliveries| ==> IsUntouched(m.deliveries[i])
  {
    forall r ensures Names(d.recipients, r) <==> exists i :: 0 <= i < |m.deliveries| && m.deliveries[i].recipient == r {
      NewNames(d.recipients, d.created, r);
    }
    var rs := Recipients(d.recipients);
    forall i, j | 0 <= i < j < |m.deliveries|
      ensures Less(m.deliveries[i].recipient, m.deliveries[j].recipient)
    {
      RecipientsAreNamed(d.recipients);
      assert Less(rs[i], rs[j]);
    }
  }

  lemma {:induction false} CreateInserts(b: Box, d: Draft, mark: string) returns (m: Message)
    requires Fresh(Create(b, d, mark).1)
    ensures m == Message(d.request, d.kind, d.from, d.body, mark, d.created,
              NewDeliveries(Recipients(d.recipients), d.created))
    ensures Create(b, d, mark).1 == Sent(d.id, m, false)
    ensures d.id in Create(b, d, mark).0.messages && Create(b, d, mark).0.messages[d.id] == m
    ensures d.request in Create(b, d, mark).0.replays ==>
              Create(b, d, mark).0.replays[d.request] == Replay(mark, d.id, m)
  {
    m := Message(d.request, d.kind, d.from, d.body, mark, d.created,
      NewDeliveries(Recipients(d.recipients), d.created));
  }

  /** A creation stores the message under its ID as drafted, with one queued delivery per distinct non-blank recipient
      in alphabetical order, answers with it, and records it for replays. */
  lemma {:induction false} CreatedAsDrafted(b: Box, d: Draft, mark: string)
    requires Fresh(Create(b, d, mark).1)
    ensures var (u, r) := Create(b, d, mark);
            && d.id in u.messages && r == Sent(d.id, u.messages[d.id], false) && IsDrafted(u.messages[d.id], d, mark)
            && (forall i :: 0 <= i < |u.messages[d.id].deliveries| ==> IsUntouched(u.messages[d.id].deliveries[i]))
            && (d.request in u.replays ==> u.replays[d.request] == Replay(mark, d.id, u.messages[d.id]))
  {
    var m := CreateInserts(b, d, mark);
    NewIsDrafted(d, mark, m);
  }

  // ---- refusals ----

  /** What a request is told: that its request ID, its ID, its body or every recipient is blank; else it is answered
      from what is known of it, or refused for want of room or because its ID is taken, or created. */
  lemma {:induction false} DraftAnswers(b: Box, d: Draft, mark: string)
    ensures var (u, r) := Create(b, d, mark);
            && (!Fresh(r) ==> u == b)
            && if TrimSpace(d.request) == "" then r == Failed(NoRequest)
               else if TrimSpace(d.id) == "" then r == Failed(NoId)
               else if TrimSpace(d.body) == "" then r == Failed(NoBody)
               else if forall v :: v in d.recipients ==> TrimSpace(v) == "" then r == Failed(NoRecipients)
               else r.Sent? || r.error in {Mismatch, Quota, Conflict}
  {
    if forall v :: v in d.recipients ==> TrimSpace(v) == "" {
      assert UniqueNonEmpty(d.recipients) == {};
    } else {
      var v :| v in d.recipients && TrimSpace(v) != "";
      assert TrimSpace(v) in UniqueNonEmpty(d.recipients);
    }
    if DraftError(d).None? { CreateErrors(b, d, mark); }
  }

  lemma {:induction false} CreateErrors(b: Box, d: Draft, mark: string)
    requires DraftError(d).None?
    ensures Create(b, d, mark).1.Sent? || Create(b, d, mark).1.error in {Mismatch, Quota, Conflict}
  {
  }

  /** Messages that must not be deleted: some delivery is not delivered yet. */
  ghost predicate Pending(m: Message) {
    m.deliveries == [] || exists i :: 0 <= i < |m.deliveries| && m.deliveries[i].state != Delivered
  }

  lemma {:induction false} PendingIs(m: Message)
    ensures Pending(m) <==> !FullyDelivered(m)
  {
  }

  lemma {:induction false} DeliveredIsListed(ms: map<string, Message>, id: string)
    requires id in ms && FullyDelivered(ms[id])
    ensures Among(PruneOrder(ms), id)
  {
    var p := (ms[id].created, id);
    assert p in Prunable(ms);
    assert p in PruneOrder(ms);
  }

  lemma {:induction false} ListedUnlessPending(ms: map<string, Message>, id: string)
    requires id in ms
    ensures Among(PruneOrder(ms), id) <==> !Pending(ms[id])
  {
    PendingIs(ms[id]);
    if FullyDelivered(ms[id]) { DeliveredIsListed(ms, id); }
    if Among(PruneOrder(ms), id) {
      assert PruneOrder(ms)[..|PruneOrder(ms)|] == PruneOrder(ms);
      ListedIsDelivered(ms, |PruneOrder(ms)|, id);
    }
  }

  lemma {:induction false} WithoutAllPrunable(ms: map<string, Message>)
    ensures var left := Messages.Without(ms, PruneOrder(ms));
            && left.Keys == (set id | id in ms && Pending(ms[id]))
            && Slots(left) == (set id, i: nat | id in ms && Pending(ms[id]) && i < |ms[id].deliveries| :: (id, i))
  {
    forall id | id in ms ensures Among(PruneOrder(ms), id) <==> !Pending(ms[id]) { ListedUnlessPending(ms, id); }
  }

  /** A new request is refused for want of room iff 1000 messages, or more deliveries than leave room for its recipients
      among 5000, belong to messages that are not fully delivered. */
  lemma {:induction false} NoRoomIff(b: Box, d: Draft, mark: string)
    requires DraftError(d).None? && Known(b, d.request, mark).None?
    ensures Create(b, d, mark).1 == Failed(Quota) <==>
              || |set id | id in b.messages && Pending(b.messages[id])| >= 1000
              || |set id, i: nat | id in b.messages && Pending(b.messages[id]) && i < |b.messages[id].deliveries| ::
                   (id, i)|
                 + |set v | v in d.recipients && TrimSpace(v) != "" :: TrimSpace(v)| > 5000
  {
    QuotaIff(b, d, mark);
    WithoutAllPrunable(b.messages);
    var left := Messages.Without(b.messages, PruneOrder(b.messages));
    assert |left| == |left.Keys|;
  }

  /** ... and where there is room, it is created unless its ID is taken. */
  lemma {:induction false} ConflictOnlyIfTaken(b: Box, d: Draft, mark: string)
    requires DraftError(d).None? && Known(b, d.request, mark).None? && d.id !in b.messages
    ensures Create(b, d, mark).1 != Failed(Quota) ==> Fresh(Create(b, d, mark).1)
  {
  }

  // ---- deliveries ----

  /** The event is appended, and only the newest 100 are kept. */
  ghost predicate Appends(before: seq<Event>, e: Event, after: seq<Event>) {
    && after != [] && after[|after| - 1] == e
    && |after| == (if |before| < 100 then |before| + 1 else 100)
    && forall i :: 0 <= i < |after| - 1 ==> after[i] == before[|before| - (|after| - 1) + i]
  }

  lemma {:induction false} LastEventsAppend(before: seq<Event>, e: Event)
    requires |before| <= 100
    ensures Appends(before, e, LastEvents(before + [e]))
  {
  }

  /** A delivery update of a known state on a known delivery changes that delivery only: its state, error and time, and
      its history by one event. One that says nothing new, or names no delivery, changes nothing. */
  lemma {:induction false} UpdateIs(b: Box, id: string, i: nat, state: State, error: string, at: string)
    requires id in b.messages && i < |b.messages[id].deliveries| && |b.messages[id].deliveries[i].history| <= 100
    ensures var u := UpdateDelivery(b, id, i, state, error, at);
            var x := b.messages[id].deliveries[i];
            if state.Other? || (x.state == state && x.error == error) then u == b
            else
              && u.replays == b.replays && u.messages.Keys == b.messages.Keys
              && (forall y :: y in b.messages && y != id ==> u.messages[y] == b.messages[y])
              && u.messages[id] == b.messages[id].(deliveries := u.messages[id].deliveries)
              && |u.messages[id].deliveries| == |b.messages[id].deliveries|
              && (forall j :: 0 <= j < |b.messages[id].deliveries| && j != i ==>
                   u.messages[id].deliveries[j] == b.messages[id].deliveries[j])
              && var z := u.messages[id].deliveries[i];
                 && z.recipient == x.recipient && z.created == x.created
                 && z.state == state && z.error == error && z.updated == at
                 && Appends(x.history, Event(state, error, at), z.history)
  {
    LastEventsAppend(b.messages[id].deliveries[i].history, Event(state, error, at));
  }

  // ---- in any history ----

  /** A delivery shows its last event, and remembers at most 100. */
  predicate ShowsLast(x: Delivery) {
    && 1 <= |x.history| <= 100
    && x.history[|x.history| - 1] == Event(x.state, x.error, x.updated)
    && !x.state.Other?
  }

  ghost predicate AllShow(ms: map<string, Message>) {
    forall id, i :: id in ms && 0 <= i < |ms[id].deliveries| ==> ShowsLast(ms[id].deliveries[i])
  }

  lemma {:induction false} DeliverShows(b: Box, id: string, i: nat, state: State, error: string, at: string)
    requires AllShow(b.messages)
    ensures AllShow(UpdateDelivery(b, id, i, state, error, at).messages)
  {
    var u := UpdateDelivery(b, id, i, state, error, at);
    if id in b.messages && i < |b.messages[id].deliveries| {
      assert ShowsLast(b.messages[id].deliveries[i]);
      UpdateIs(b, id, i, state, error, at);
      forall x, j | x in u.messages && 0 <= j < |u.messages[x].deliveries|
        ensures ShowsLast(u.messages[x].deliveries[j])
      {
        if x != id || j != i { assert ShowsLast(b.messages[x].deliveries[j]); }
      }
    }
  }

  /** Besides the new message nothing in the store changes but what is deleted. */
  lemma {:induction false} CreateKeepsRest(b: Box, d: Draft, mark: string)
    ensures forall x :: x in Create(b, d, mark).0.messages && (x != d.id || !Fresh(Create(b, d, mark).1)) ==>
            x in b.messages && Create(b, d, mark).0.messages[x] == b.messages[x]
  {
    if !Fresh(Create(b, d, mark).1) { UnchangedUnlessCreated(b, d, mark); }
  }

  lemma {:induction false} CreateShows(b: Box, d: Draft, mark: string)
    requires AllShow(b.messages)
    ensures AllShow(Create(b, d, mark).0.messages)
  {
    var u := Create(b, d, mark).0;
    CreateKeepsRest(b, d, mark);
    if Fresh(Create(b, d, mark).1) { CreatedAsDrafted(b, d, mark); }
    forall x, j | x in u.messages && 0 <= j < |u.messages[x].deliveries|
      ensures ShowsLast(u.messages[x].deliveries[j])
    {
      if x == d.id && Fresh(Create(b, d, mark).1) {
        assert IsUntouched(u.messages[x].deliveries[j]);
      } else {
        assert ShowsLast(b.messages[x].deliveries[j]);
      }
    }
  }

  lemma {:induction false} DeliverStep(ws: seq<World>, ops: seq<Op>, n: nat)
    requires IsHistory(ws, ops) && n + 1 < |ws| && ops[n].DeliverOp?
    ensures var op := ops[n];
            ws[n + 1].box == UpdateDelivery(ws[n].box, op.id, op.i, op.state, op.error, op.at)
    ensures ws[n + 1].box.messages.Keys == ws[n].box.messages.Keys
  {
    var op := ops[n];
    DeliverKeepsRequests(ws[n].box, op.id, op.i, op.state, op.error, op.at);
  }

  lemma {:induction false} CreateStep(ws: seq<World>, ops: seq<Op>, n: nat)
    requires IsHistory(ws, ops) && n + 1 < |ws| && ops[n].CreateOp?
    ensures ws[n + 1].box == Create(ws[n].box, ops[n].draft, ops[n].mark).0
  {
  }

  /** At any time every delivery of every message shows its last event. */
  lemma {:induction false} DeliveriesShowLastEvent(ws: seq<World>, ops: seq<Op>, n: nat)
    requires IsHistory(ws, ops) && n < |ws|
    ensures AllShow(ws[n].box.messages)
  {
    if n > 0 {
      DeliveriesShowLastEvent(ws, ops, n - 1);
      var op := ops[n - 1];
      if op.CreateOp? {
        CreateStep(ws, ops, n - 1);
        CreateShows(ws[n - 1].box, op.draft, op.mark);
      } else {
        DeliverStep(ws, ops, n - 1);
        DeliverShows(ws[n - 1].box, op.id, op.i, op.state, op.error, op.at);
      }
    }
  }

  lemma {:induction false} StillDrafted(m: Message, u: Message, d: Draft, mark: string)
    requires IsDrafted(m, d, mark) && u == m.(deliveries := u.deliveries) && |u.deliveries| == |m.deliveries|
    requires forall i :: 0 <= i < |m.deliveries| ==>
             u.deliveries[i].recipient == m.deliveries[i].recipient
               && u.deliveries[i].created == m.deliveries[i].created
    ensures IsDrafted(u, d, mark)
  {
  }

  lemma {:induction false} DeliverKeepsHeader(b: Box, x: string, j: nat, state: State, error: string, at: string,
          id: string)
    requires AllShow(b.messages) && id in b.messages
    ensures var u := UpdateDelivery(b, x, j, state, error, at);
            && id in u.messages && u.messages[id] == b.messages[id].(deliveries := u.messages[id].deliveries)
            && |u.messages[id].deliveries| == |b.messages[id].deliveries|
            && forall i :: 0 <= i < |b.messages[id].deliveries| ==>
                 u.messages[id].deliveries[i].recipient == b.messages[id].deliveries[i].recipient
                   && u.messages[id].deliveries[i].created == b.messages[id].deliveries[i].created
  {
    if x in b.messages && j < |b.messages[x].deliveries| {
      assert ShowsLast(b.messages[x].deliveries[j]);
      UpdateIs(b, x, j, state, error, at);
    }
  }

  lemma {:induction false} DeliverKeepsDrafted(b: Box, x: string, j: nat, state: State, error: string, at: string,
          id: string, d: Draft, mark: string)
    requires AllShow(b.messages) && id in b.messages && IsDrafted(b.messages[id], d, mark)
    ensures id in UpdateDelivery(b, x, j, state, error, at).messages
    ensures IsDrafted(UpdateDelivery(b, x, j, state, error, at).messages[id], d, mark)
  {
    DeliverKeepsHeader(b, x, j, state, error, at, id);
    StillDrafted(b.messages[id], UpdateDelivery(b, x, j, state, error, at).messages[id], d, mark);
  }

  /** At any time every message is what some request, answered with its creation, drafted under its ID. */
  lemma {:induction false} MessagesAreAsDrafted(ws: seq<World>, ops: seq<Op>, n: nat, id: string) returns (i: nat)
    requires IsHistory(ws, ops) && n < |ws| && id in ws[n].box.messages
    ensures i < n && ops[i].CreateOp? && ops[i].draft.id == id
    ensures Fresh(Create(ws[i].box, ops[i].draft, ops[i].mark).1)
    ensures IsDrafted(ws[n].box.messages[id], ops[i].draft, ops[i].mark)
  {
    var op := ops[n - 1];
    if op.CreateOp? {
      CreateStep(ws, ops, n - 1);
      CreateKeepsRest(ws[n - 1].box, op.draft, op.mark);
      i := n - 1;
      if id == op.draft.id && Fresh(Create(ws[i].box, op.draft, op.mark).1) {
        CreatedAsDrafted(ws[i].box, op.draft, op.mark);
      } else {
        i := MessagesAreAsDrafted(ws, ops, n - 1, id);
      }
    } else {
      DeliverStep(ws, ops, n - 1);
      DeliveriesShowLastEvent(ws, ops, n - 1);
      i := MessagesAreAsDrafted(ws, ops, n - 1, id);
      DeliverKeepsDrafted(ws[n - 1].box, op.id, op.i, op.state, op.error, op.at, id, ops[i].draft, ops[i].mark);
    }
  }

  // ---- replay records ----

  /** The records of messages stored as newer, or equally old under a later request ID. */
  function Younger(replays: map<string, Replay>, r: string): set<string>
    requires r in replays
  {
    var at := replays[r].message.created;
    set q | q in replays
            && (Less(at, replays[q].message.created) || (at == replays[q].message.created && Less(r, q)))
  }

  /** A replay record is forgotten iff 1000 younger ones exist, and kept as it is otherwise. */
  lemma {:induction false} ForgottenIff(replays: map<string, Replay>, r: string)
    requires r in replays
    ensures r !in KeepNewest(replays, REPLAY_CAP) <==> |Younger(replays, r)| >= 1000
    ensures r in KeepNewest(replays, REPLAY_CAP) ==> KeepNewest(replays, REPLAY_CAP)[r] == replays[r]
  {
    assert NewerThan(replays, r) == Younger(replays, r);
  }

  /** A message disappears only when a creation makes room, and only if each of its deliveries is delivered. */
  lemma {:induction false} OnlyDeliveredIsDeleted(ws: seq<World>, ops: seq<Op>, n: nat, id: string)
    requires IsHistory(ws, ops) && n + 1 < |ws| && id in ws[n].box.messages && id !in ws[n + 1].box.messages
    ensures ops[n].CreateOp? && Fresh(Create(ws[n].box, ops[n].draft, ops[n].mark).1)
    ensures !Pending(ws[n].box.messages[id])
  {
    match ops[n]
    case CreateOp(d, mark) =>
      var k := CreateDeletesShortestPrefix(ws[n].box, d, mark);
      DraftAnswers(ws[n].box, d, mark);
    case DeliverOp(x, i, state, error, at) => DeliverKeepsRequests(ws[n].box, x, i, state, error, at);
  }
}
