/** Pruning is safe, minimal and keeps replays: what creating a message guarantees, and what every history keeps. */
module MessagePruning {
  import opened Basics
  import opened Listing
  import opened Messages

  // ---- the shortest prefix ----

  lemma {:induction false} RoomTestIs(ms: map<string, Message>, list: seq<(string, string)>, incoming: nat, j: nat)
    ensures RoomTest(ms, list, incoming)(j) == RoomAt(ms, list, incoming, j)
  {
  }

  lemma {:induction false} EnoughIsShortest(ms: map<string, Message>, list: seq<(string, string)>, incoming: nat)
    ensures var r := Enough(ms, list, incoming, 0);
            && (r.Some? ==> RoomAt(ms, list, incoming, r.value) && forall j: nat :: j < r.value ==>
                 !RoomAt(ms, list, incoming, j))
            && (r.None? ==> forall j: nat :: j <= |list| ==> !RoomAt(ms, list, incoming, j))
  {
    forall j: nat ensures RoomTest(ms, list, incoming)(j) == RoomAt(ms, list, incoming, j) {
      RoomTestIs(ms, list, incoming, j);
    }
  }

  lemma {:induction false} FewerIsRoomier(ms: map<string, Message>, us: map<string, Message>, incoming: nat)
    requires Roomy(ms, incoming) && us.Keys <= ms.Keys && forall id :: id in us ==> us[id] == ms[id]
    ensures Roomy(us, incoming)
  {
    SubsetSize(us.Keys, ms.Keys);
    assert |us.Keys| == |us| && |ms.Keys| == |ms|;
    SubsetSize(Slots(us), Slots(ms));
  }

  lemma {:induction false} LongerPrefixIsRoomier(ms: map<string, Message>, list: seq<(string, string)>, j: nat,
          incoming: nat)
    requires j <= |list| && Roomy(Messages.Without(ms, list[..j]), incoming)
    ensures Roomy(Messages.Without(ms, list), incoming)
  {
    var a, b := Messages.Without(ms, list[..j]), Messages.Without(ms, list);
    forall id | id in b ensures id in a && b[id] == a[id] {
      assert !Among(list, id);
      assert !Among(list[..j], id);
    }
    FewerIsRoomier(a, b, incoming);
  }

  /** Creation fails on quota exactly when deleting every fully delivered message would still leave too little room. */
  lemma {:induction false} QuotaIff(b: Box, d: Draft, mark: string)
    requires DraftError(d).None? && Known(b, d.request, mark).None?
    ensures var n := |UniqueNonEmpty(d.recipients)|;
            Create(b, d, mark).1 == Failed(Quota) <==>
              (n > DELIVERY_CAP || !Roomy(Messages.Without(b.messages, PruneOrder(b.messages)), n))
  {
    RefusedUnlessPruned(b, d, mark);
    PrunesUnlessFull(b, |UniqueNonEmpty(d.recipients)|);
  }

  lemma {:induction false} RefusedUnlessPruned(b: Box, d: Draft, mark: string)
    requires DraftError(d).None? && Known(b, d.request, mark).None?
    ensures Create(b, d, mark).1 == Failed(Quota) <==> Prune(b, |UniqueNonEmpty(d.recipients)|).None?
  {
  }

  lemma {:induction false} PrunesUnlessFull(b: Box, n: nat)
    ensures Prune(b, n).None? <==>
              (n > DELIVERY_CAP || !Roomy(Messages.Without(b.messages, PruneOrder(b.messages)), n))
  {
    var list := PruneOrder(b.messages);
    EnoughIsShortest(b.messages, list, n);
    var k := Enough(b.messages, list, n, 0);
    if k.Some? {
      LongerPrefixIsRoomier(b.messages, list, k.value, n);
    } else {
      assert list[..|list|] == list;
      assert !RoomAt(b.messages, list, n, |list|);
    }
  }

  // ---- limits after creation ----

  lemma {:induction false} OneMoreMessage(ms: map<string, Message>, id: string, m: Message)
    requires id !in ms
    ensures |ms[id := m]| == |ms| + 1 && |Slots(ms[id := m])| == |Slots(ms)| + |m.deliveries|
  {
    assert ms[id := m].Keys == ms.Keys + {id};
    assert |ms.Keys| == |ms| && |ms[id := m].Keys| == |ms[id := m]|;
    OneMoreSlots(ms, id, m);
  }

  lemma {:induction false} SlotAdded(ms: map<string, Message>, id: string, m: Message, s: (string, nat))
    requires id !in ms
    ensures s in Slots(ms[id := m]) <==> s in Slots(ms) || (s.0 == id && s.1 < |m.deliveries|)
    ensures s in Slots(ms) ==> s.0 != id
  {
  }

  lemma {:induction false} OneMoreSlots(ms: map<string, Message>, id: string, m: Message)
    requires id !in ms
    ensures |Slots(ms[id := m])| == |Slots(ms)| + |m.deliveries|
  {
    var before, after := Slots(ms), Slots(ms[id := m]);
    var mine := set i: nat | i < |m.deliveries| :: (id, i);
    forall s: (string, nat) ensures s in after <==> s in before + mine {
      SlotAdded(ms, id, m, s);
    }
    forall s | s in before ensures s !in mine {
      SlotAdded(ms, id, m, s);
    }
    JoinedSize(before, mine, after);
    PairsCount(id, |m.deliveries|);
  }

  lemma {:induction false} JoinedSize(a: set<(string, nat)>, b: set<(string, nat)>, c: set<(string, nat)>)
    requires (forall s :: s in c <==> s in a + b) && (forall s :: s in a ==> s !in b)
    ensures |c| == |a| + |b|
  {
    assert c == a + b && a * b == {};
  }

  lemma {:induction false} PairsCount(id: string, n: nat)
    ensures |set i: nat | i < n :: (id, i)| == n
  {
    if n == 0 {
      assert (set i: nat | i < n :: (id, i)) == {};
    } else {
      PairsCount(id, n - 1);
      assert (set i: nat | i < n :: (id, i)) == (set i: nat | i < n - 1 :: (id, i)) + {(id, n - 1)};
    }
  }

  lemma {:induction false} KeptAreFew(replays: map<string, Replay>, cap: nat)
    ensures |KeepNewest(replays, cap)| <= cap
  {
    var kept := KeepNewest(replays, cap);
    var places := set r | r in kept :: (replays[r].message.created, r);
    SamePlaces(replays, kept.Keys, places);
    assert |kept.Keys| == |kept|;
    if kept.Keys != {} {
      OlderTextIsStrict();
      var x := Least(OlderText, places);
      var oldest := x.1;
      forall r | r in kept.Keys - {oldest} ensures r in NewerThan(replays, oldest) {
        assert (replays[r].message.created, r) in places;
      }
      SubsetSize(kept.Keys - {oldest}, NewerThan(replays, oldest));
    }
  }

  lemma {:induction false} SamePlaces(replays: map<string, Replay>, s: set<string>, places: set<(string, string)>)
    requires s <= replays.Keys && places == set r | r in s :: (replays[r].message.created, r)
    ensures s != {} ==> places != {}
  {
    if s != {} {
      var r :| r in s;
      assert (replays[r].message.created, r) in places;
    }
  }

  /** A message was created, not replayed. */
  predicate Fresh(r: Result) {
    r.Sent? && !r.replayed
  }

  /** After a successful creation messages, deliveries and replay records are within their limits. */
  lemma {:induction false} CreateKeepsLimits(b: Box, d: Draft, mark: string)
    ensures var (u, r) := Create(b, d, mark);
            Fresh(r) ==> |u.messages| <= MESSAGE_CAP && |Slots(u.messages)| <= DELIVERY_CAP && |u.replays| <= REPLAY_CAP
  {
    if Fresh(Create(b, d, mark).1) {
      NotKnownWhenCreated(b, d, mark);
      var n := |UniqueNonEmpty(d.recipients)|;
      var pruned := Prune(b, n).value;
      EnoughIsShortest(b.messages, PruneOrder(b.messages), n);
      LessIsStrict();
      var m := Message(d.request, d.kind, d.from, d.body, mark, d.created,
        NewDeliveries(Recipients(d.recipients), d.created));
      OneMoreMessage(pruned.messages, d.id, m);
      KeptAreFew(pruned.replays[d.request := Replay(mark, d.id, m)], REPLAY_CAP);
    }
  }

  lemma {:induction false} NotKnownWhenCreated(b: Box, d: Draft, mark: string)
    requires Fresh(Create(b, d, mark).1)
    ensures DraftError(d).None? && Known(b, d.request, mark).None? && Prune(b, |UniqueNonEmpty(d.recipients)|).Some?
    ensures var p := Prune(b, |UniqueNonEmpty(d.recipients)|).value;
            d.id !in p.messages && Create(b, d, mark) == Insert(p, d, mark)
  {
  }

  lemma {:induction false} ListedIsDelivered(ms: map<string, Message>, k: nat, id: string)
    requires k <= |PruneOrder(ms)| && Among(PruneOrder(ms)[..k], id)
    ensures id in ms && FullyDelivered(ms[id])
  {
    var list := PruneOrder(ms);
    var i :| 0 <= i < k && list[..k][i].1 == id;
    assert list[i] in Prunable(ms);
  }

  /** The messages deleted are the shortest oldest prefix of the fully delivered ones that makes room; everything else
      stays. */
  lemma {:induction false} CreateDeletesShortestPrefix(b: Box, d: Draft, mark: string) returns (k: nat)
    ensures Fresh(Create(b, d, mark).1) ==>
              var list := PruneOrder(b.messages);
              var n := |UniqueNonEmpty(d.recipients)|;
              var u := Create(b, d, mark);
              && k <= |list| && u.0.messages == Messages.Without(b.messages, list[..k])[d.id := u.1.message]
              && RoomAt(b.messages, list, n, k) && (forall j: nat :: j < k ==> !RoomAt(b.messages, list, n, j))
    ensures forall id :: id in b.messages && !FullyDelivered(b.messages[id]) ==>
              id in Create(b, d, mark).0.messages && Create(b, d, mark).0.messages[id] == b.messages[id]
  {
    k := 0;
    if Fresh(Create(b, d, mark).1) {
      NotKnownWhenCreated(b, d, mark);
      var n, list := |UniqueNonEmpty(d.recipients)|, PruneOrder(b.messages);
      EnoughIsShortest(b.messages, list, n);
      k := Enough(b.messages, list, n, 0).value;
      var kept := Messages.Without(b.messages, list[..k]);
      forall id | id in b.messages && !FullyDelivered(b.messages[id]) ensures id in kept {
        if Among(list[..k], id) { ListedIsDelivered(b.messages, k, id); }
      }
    } else {
      UnchangedUnlessCreated(b, d, mark);
    }
  }

  // ---- replays of pruned messages ----

  ghost predicate DistinctRequests(ms: map<string, Message>) {
    forall a, b :: a in ms && b in ms && ms[a].request == ms[b].request ==> a == b
  }

  /** The snapshot taken of a deleted message is the message as it stood. */
  lemma {:induction false} SnapshotIsMessage(ms: map<string, Message>, replays: map<string, Replay>,
          list: seq<(string, string)>, id: string)
    requires DistinctRequests(ms) && id in ms && Among(list, id)
    ensures ms[id].request in Snapshots(ms, replays, list)
    ensures Snapshots(ms, replays, list)[ms[id].request] == Replay(ms[id].mark, id, ms[id])
  {
    var last, rest := list[|list| - 1].1, list[..|list| - 1];
    if last != id {
      var i :| 0 <= i < |list| && list[i].1 == id;
      assert rest[i].1 == id;
      SnapshotIsMessage(ms, replays, rest, id);
    }
  }

  /** Other records are left alone. */
  lemma {:induction false} SnapshotOnlyListed(ms: map<string, Message>, replays: map<string, Replay>,
          list: seq<(string, string)>, request: string)
    requires forall id :: Among(list, id) && id in ms ==> ms[id].request != request
    ensures request in Snapshots(ms, replays, list) <==> request in replays
    ensures request in replays ==> Snapshots(ms, replays, list)[request] == replays[request]
  {
    if list != [] {
      var last, rest := list[|list| - 1].1, list[..|list| - 1];
      forall id | Among(rest, id) && id in ms ensures ms[id].request != request {
        var i :| 0 <= i < |rest| && rest[i].1 == id;
        assert list[i].1 == id;
      }
      SnapshotOnlyListed(ms, replays, rest, request);
      assert list[|list| - 1].1 == last && Among(list, last);
    }
  }

  /** `gone` remembers, for the proofs only, each pruned request's message as it stood just before deletion. */
  datatype World = World(box: Box, gone: map<string, (string, Message)>)

  ghost predicate ReplayOk(w: World, request: string)
    requires request in w.box.replays
  {
    var r := w.box.replays[request];
    && r.mark == r.message.mark
    && (WithRequest(w.box.messages, request) == {} ==>
          request in w.gone && r.id == w.gone[request].0 && r.message == w.gone[request].1)
    && (forall id :: id in WithRequest(w.box.messages, request) ==> r.mark == w.box.messages[id].mark)
  }

  ghost predicate ReplayInv(w: World) {
    DistinctRequests(w.box.messages) && forall r :: r in w.box.replays ==> ReplayOk(w, r)
  }

  datatype Op =
    | CreateOp(draft: Draft, mark: string)
    | DeliverOp(id: string, i: nat, state: State, error: string, at: string)

  /** Messages that are no longer there; a pruned message's ID may have been taken by the new one. */
  function Victims(before: map<string, Message>, after: map<string, Message>): set<string> {
    set id | id in before && (id !in after || after[id].request != before[id].request)
  }

  function RequestsOf(ms: map<string, Message>, ids: set<string>): set<string> {
    set id | id in ids && id in ms :: ms[id].request
  }

  ghost function NowGone(before: map<string, Message>, after: map<string, Message>): map<string, (string, Message)> {
    map r | r in RequestsOf(before, Victims(before, after)) ::
      var id :| id in Victims(before, after) && before[id].request == r; (id, before[id])
  }

  ghost function Next(w: World, op: Op): World {
    match op
    case CreateOp(d, mark) =>
      var box := Create(w.box, d, mark).0;
      World(box, w.gone + NowGone(w.box.messages, box.messages))
    case DeliverOp(id, i, state, error, at) => w.(box := UpdateDelivery(w.box, id, i, state, error, at))
  }

  /** Any requests and delivery updates, one after the other, from an empty store. */
  ghost predicate IsHistory(ws: seq<World>, ops: seq<Op>) {
    && |ws| == |ops| + 1 && ws[0] == World(Box(map[], map[]), map[])
    && forall i {:trigger ops[i]} :: 0 <= i < |ops| ==> ws[i + 1] == Next(ws[i], ops[i])
  }

  lemma {:induction false} NothingGone(ms: map<string, Message>)
    ensures NowGone(ms, ms) == map[]
  {
    assert Victims(ms, ms) == {};
  }

  // ---- deliveries do not touch replays ----

  lemma {:induction false} DeliverKeepsRequests(b: Box, id: string, i: nat, state: State, error: string, at: string)
    ensures var u := UpdateDelivery(b, id, i, state, error, at);
            && u.replays == b.replays && u.messages.Keys == b.messages.Keys
            && forall x :: x in b.messages ==>
                 u.messages[x].request == b.messages[x].request && u.messages[x].mark == b.messages[x].mark
  {
  }

  lemma {:induction false} SameRequestsKeepReplay(w: World, u: World, r: string)
    requires r in w.box.replays && ReplayOk(w, r) && u.gone == w.gone && u.box.replays == w.box.replays
    requires u.box.messages.Keys == w.box.messages.Keys
    requires forall x :: x in w.box.messages ==>
             u.box.messages[x].request == w.box.messages[x].request && u.box.messages[x].mark == w.box.messages[x].mark
    ensures ReplayOk(u, r)
  {
    assert WithRequest(u.box.messages, r) == WithRequest(w.box.messages, r);
  }

  lemma {:induction false} DeliverKeepsInv(w: World, id: string, i: nat, state: State, error: string, at: string)
    requires ReplayInv(w)
    ensures ReplayInv(Next(w, DeliverOp(id, i, state, error, at)))
  {
    var u := Next(w, DeliverOp(id, i, state, error, at));
    DeliverKeepsRequests(w.box, id, i, state, error, at);
    forall r | r in u.box.replays ensures ReplayOk(u, r) { SameRequestsKeepReplay(w, u, r); }
  }

  // ---- creation keeps replays true ----

  /** A creation after pruning the prefix `list`. */
  ghost predicate Created(b: Box, u: Box, list: seq<(string, string)>, d: Draft, m: Message) {
    && m.request == d.request && WithRequest(b.messages, d.request) == {}
    && (forall id :: Among(list, id) ==> id in b.messages)
    && d.id !in Messages.Without(b.messages, list)
    && u.messages == Messages.Without(b.messages, list)[d.id := m]
    && u.replays == KeepNewest(Snapshots(b.messages, b.replays, list)[d.request := Replay(m.mark, d.id, m)], REPLAY_CAP)
  }

  lemma {:induction false} CreateIsCreated(b: Box, d: Draft, mark: string)
    returns (list: seq<(string, string)>, m: Message)
    requires Fresh(Create(b, d, mark).1)
    ensures Created(b, Create(b, d, mark).0, list, d, m) && m.mark == mark
  {
    NotKnownWhenCreated(b, d, mark);
    var k := CreateDeletesShortestPrefix(b, d, mark);
    var n := |UniqueNonEmpty(d.recipients)|;
    list := PruneOrder(b.messages)[..Enough(b.messages, PruneOrder(b.messages), n, 0).value];
    m := Message(d.request, d.kind, d.from, d.body, mark, d.created,
      NewDeliveries(Recipients(d.recipients), d.created));
    forall id | Among(list, id) ensures id in b.messages { ListedIsDelivered(b.messages, |list|, id); }
  }

  lemma {:induction false} CreatedStaysDistinct(b: Box, u: Box, list: seq<(string, string)>, d: Draft, m: Message)
    requires DistinctRequests(b.messages) && Created(b, u, list, d, m)
    ensures DistinctRequests(u.messages)
  {
    forall x | x in b.messages ensures b.messages[x].request != d.request {
      assert x !in WithRequest(b.messages, d.request);
    }
  }

  lemma {:induction false} WithoutUnlisted(ms: map<string, Message>, list: seq<(string, string)>, id: string)
    requires id in ms
    ensures id in Messages.Without(ms, list) <==> !Among(list, id)
  {
  }

  /** A request whose message was just pruned: its record is the snapshot, and its message is what is gone. */
  lemma {:induction false} PrunedRecord(w: World, u: Box, list: seq<(string, string)>, d: Draft, m: Message, id: string)
    requires ReplayInv(w) && Created(w.box, u, list, d, m) && Among(list, id)
    requires w.box.messages[id].request in u.replays
    ensures ReplayOk(World(u, w.gone + NowGone(w.box.messages, u.messages)), w.box.messages[id].request)
  {
    var ms, r := w.box.messages, w.box.messages[id].request;
    SnapshotIsMessage(ms, w.box.replays, list, id);
    assert id !in WithRequest(ms, d.request);
    assert id in Victims(ms, u.messages);
    assert r in RequestsOf(ms, Victims(ms, u.messages));
    assert NowGone(ms, u.messages)[r] == (id, ms[id]);
    assert WithRequest(u.messages, r) == {} by {
      forall x | x in u.messages ensures u.messages[x].request != r {
        if x in ms && x != d.id { WithoutUnlisted(ms, list, x); }
      }
    }
  }

  lemma {:induction false} SameLive(ms: map<string, Message>, us: map<string, Message>, list: seq<(string, string)>,
          id: string, m: Message, r: string)
    requires us == Messages.Without(ms, list)[id := m] && m.request != r && id !in Messages.Without(ms, list)
    requires forall x :: Among(list, x) && x in ms ==> ms[x].request != r
    ensures forall x :: x in WithRequest(us, r) <==> x in WithRequest(ms, r)
    ensures forall x :: x in WithRequest(ms, r) ==> us[x] == ms[x]
    ensures r !in RequestsOf(ms, Victims(ms, us))
  {
    forall x ensures x in WithRequest(us, r) <==> x in WithRequest(ms, r) {
      if x in ms { WithoutUnlisted(ms, list, x); }
    }
    forall x | x in Victims(ms, us) ensures ms[x].request != r { WithoutUnlisted(ms, list, x); }
  }

  /** Any other request keeps its record and its live message. */
  lemma {:induction false} KeptRecord(w: World, u: Box, list: seq<(string, string)>, d: Draft, m: Message, r: string)
    requires ReplayInv(w) && Created(w.box, u, list, d, m) && r in u.replays && r != d.request
    requires forall id :: Among(list, id) && id in w.box.messages ==> w.box.messages[id].request != r
    ensures ReplayOk(World(u, w.gone + NowGone(w.box.messages, u.messages)), r)
  {
    SnapshotOnlyListed(w.box.messages, w.box.replays, list, r);
    assert ReplayOk(w, r);
    SameLive(w.box.messages, u.messages, list, d.id, m, r);
  }

  lemma {:induction false} NewRecord(w: World, u: Box, list: seq<(string, string)>, d: Draft, m: Message)
    requires Created(w.box, u, list, d, m) && d.request in u.replays
    ensures ReplayOk(World(u, w.gone + NowGone(w.box.messages, u.messages)), d.request)
  {
    assert d.id in WithRequest(u.messages, d.request);
    forall id | id in WithRequest(u.messages, d.request) ensures u.messages[id].mark == m.mark {
      assert WithRequest(w.box.messages, d.request) == {}
        && (id in WithRequest(w.box.messages, d.request) || id == d.id);
    }
  }

  lemma {:induction false} CreateKeepsInv(w: World, d: Draft, mark: string)
    requires ReplayInv(w)
    ensures ReplayInv(Next(w, CreateOp(d, mark)))
  {
    var (box, r) := Create(w.box, d, mark);
    var u := Next(w, CreateOp(d, mark));
    if r.Sent? && !r.replayed {
      var list, m := CreateIsCreated(w.box, d, mark);
      CreatedStaysDistinct(w.box, box, list, d, m);
      forall q | q in box.replays ensures ReplayOk(u, q) {
        if q == d.request {
          NewRecord(w, box, list, d, m);
        } else if id :| Among(list, id) && id in w.box.messages && w.box.messages[id].request == q {
          PrunedRecord(w, box, list, d, m, id);
        } else {
          KeptRecord(w, box, list, d, m, q);
        }
      }
    } else {
      UnchangedUnlessCreated(w.box, d, mark);
      NothingGone(w.box.messages);
      assert u.gone == w.gone;
    }
  }

  lemma {:induction false} UnchangedUnlessCreated(b: Box, d: Draft, mark: string)
    ensures Fresh(Create(b, d, mark).1) || Create(b, d, mark).0 == b
  {
  }

  lemma {:induction false} NextKeepsInv(w: World, op: Op)
    requires ReplayInv(w)
    ensures ReplayInv(Next(w, op))
  {
    match op
    case CreateOp(d, mark) => CreateKeepsInv(w, d, mark);
    case DeliverOp(id, i, state, error, at) => DeliverKeepsInv(w, id, i, state, error, at);
  }

  lemma {:induction false} ReplaysAlwaysHold(ws: seq<World>, ops: seq<Op>, n: nat)
    requires IsHistory(ws, ops) && n < |ws|
    ensures ReplayInv(ws[n])
  {
    if n > 0 {
      ReplaysAlwaysHold(ws, ops, n - 1);
      NextKeepsInv(ws[n - 1], ops[n - 1]);
    }
  }

  /** At any time, repeating a request whose message was pruned and whose record is still kept returns that message and
      its deliveries exactly as they stood just before deletion, and changes nothing. */
  lemma {:induction false} PrunedReplayIsExact(ws: seq<World>, ops: seq<Op>, n: nat, d: Draft, mark: string)
    requires IsHistory(ws, ops) && n < |ws|
    requires DraftError(d).None? && WithRequest(ws[n].box.messages, d.request) == {} && d.request in ws[n].box.replays
    ensures var w := ws[n];
            && d.request in w.gone
            && Create(w.box, d, mark) ==
               (w.box, if mark == w.gone[d.request].1.mark then Sent(w.gone[d.request].0, w.gone[d.request].1, true)
                       else Failed(Mismatch))
  {
    ReplaysAlwaysHold(ws, ops, n);
    assert ReplayOk(ws[n], d.request);
  }

  /** Repeating a live request returns the message as it stands; other content is refused; neither changes anything. */
  lemma {:induction false} LiveReplayIsCurrent(ws: seq<World>, ops: seq<Op>, n: nat, d: Draft, mark: string, id: string)
    requires IsHistory(ws, ops) && n < |ws|
    requires DraftError(d).None? && id in ws[n].box.messages && ws[n].box.messages[id].request == d.request
    ensures var b := ws[n].box;
            Create(b, d, mark) == (b, if mark == b.messages[id].mark then Sent(id, b.messages[id], true)
                                      else Failed(Mismatch))
  {
    ReplaysAlwaysHold(ws, ops, n);
    assert id in WithRequest(ws[n].box.messages, d.request);
  }
}
