/** Is the oldest prefix the oldest in time? Messages are pruned in the order of their stored text. */
module PruningOrder {
  import opened Basics
  import opened Listing
  import opened TimeText
  import opened Messages
  import opened MessagePruning

  /** Every message's stored text is written from its time. */
  ghost predicate Written(ms: map<string, Message>, time: map<string, Civil>) {
    forall id :: id in ms ==> id in time && Printable(time[id]) && ms[id].created == NanoText(time[id])
  }

  /** Older by time, then by ID. */
  predicate OlderInTime(time: map<string, Civil>, a: string, b: string)
    requires a in time && b in time
  {
    Earlier(time[a], time[b]) || (time[a] == time[b] && Less(a, b))
  }

  ghost predicate InTimeOrder(ms: map<string, Message>, time: map<string, Civil>)
    requires Written(ms, time)
  {
    var list := PruneOrder(ms);
    forall i, j :: 0 <= i < j < |list| ==>
      list[i].1 in time && list[j].1 in time && OlderInTime(time, list[i].1, list[j].1)
  }

  /** Two fully delivered messages of one second, the earlier fraction beginning the later one. */
  ghost predicate Clash(ms: map<string, Message>, time: map<string, Civil>, a: string, b: string)
    requires Written(ms, time)
  {
    && a in ms && b in ms && FullyDelivered(ms[a]) && FullyDelivered(ms[b])
    && Earlier(time[a], time[b]) && Misordered(time[a], time[b])
  }

  lemma {:induction false} ListedPlace(ms: map<string, Message>, i: nat)
    requires i < |PruneOrder(ms)|
    ensures var p := PruneOrder(ms)[i]; p.1 in ms && FullyDelivered(ms[p.1]) && p.0 == ms[p.1].created
  {
    assert PruneOrder(ms)[i] in Prunable(ms);
  }

  /** Without a clash, text order is time order. */
  lemma {:induction false} TextOrderIsTimeOrder(ms: map<string, Message>, time: map<string, Civil>, a: string,
          b: string)
    requires Written(ms, time) && a in ms && b in ms && !Clash(ms, time, a, b) && !Clash(ms, time, b, a)
    requires FullyDelivered(ms[a]) && FullyDelivered(ms[b])
    requires OlderText((ms[a].created, a), (ms[b].created, b))
    ensures OlderInTime(time, a, b)
  {
    LessIrreflexive(ms[a].created);
    EarlierIsTotal(time[a], time[b]);
    if Earlier(time[a], time[b]) {
      NanoOrdersAsTimeIff(time[a], time[b]);
    } else if Earlier(time[b], time[a]) {
      NanoOrdersAsTimeIff(time[b], time[a]);
      LessAsymmetric(ms[b].created, ms[a].created);
    }
  }

  lemma {:induction false} ListedBefore(ms: map<string, Message>, a: string, b: string) returns (i: nat, j: nat)
    requires a in ms && b in ms && FullyDelivered(ms[a]) && FullyDelivered(ms[b]) && Less(ms[b].created, ms[a].created)
    ensures i < j < |PruneOrder(ms)| && PruneOrder(ms)[i].1 == b && PruneOrder(ms)[j].1 == a
  {
    var p, r := (ms[b].created, b), (ms[a].created, a);
    assert p in Prunable(ms) && r in Prunable(ms);
    i :| 0 <= i < |PruneOrder(ms)| && PruneOrder(ms)[i] == p;
    j :| 0 <= j < |PruneOrder(ms)| && PruneOrder(ms)[j] == r;
    OlderTextIsStrict();
    PlacesInOrder(OlderText, PruneOrder(ms), i, j);
  }

  /** A clash puts the younger message first. */
  lemma {:induction false} ClashPrunesYounger(ms: map<string, Message>, time: map<string, Civil>, a: string, b: string)
      returns (i: nat, j: nat)
    requires Written(ms, time) && Clash(ms, time, a, b)
    ensures i < j < |PruneOrder(ms)| && PruneOrder(ms)[i].1 == b && PruneOrder(ms)[j].1 == a
    ensures !OlderInTime(time, b, a)
  {
    NanoOrdersAsTimeIff(time[a], time[b]);
    EarlierIsTotal(time[a], time[b]);
    i, j := ListedBefore(ms, a, b);
  }

  lemma {:induction false} ClashBreaksOrder(ms: map<string, Message>, time: map<string, Civil>, a: string, b: string)
    requires Written(ms, time) && Clash(ms, time, a, b)
    ensures !InTimeOrder(ms, time)
  {
    var i, j := ClashPrunesYounger(ms, time, a, b);
    var list := PruneOrder(ms);
    assert !OlderInTime(time, list[i].1, list[j].1);
  }

  ghost predicate NoClash(ms: map<string, Message>, time: map<string, Civil>)
    requires Written(ms, time)
  {
    forall a, b :: !Clash(ms, time, a, b)
  }

  lemma {:induction false} NoClashInOrder(ms: map<string, Message>, time: map<string, Civil>)
    requires Written(ms, time) && NoClash(ms, time)
    ensures InTimeOrder(ms, time)
  {
    var list := PruneOrder(ms);
    forall i, j | 0 <= i < j < |list|
      ensures list[i].1 in time && list[j].1 in time && OlderInTime(time, list[i].1, list[j].1)
    {
      ListedPlace(ms, i);
      ListedPlace(ms, j);
      assert OlderText(list[i], list[j]);
      TextOrderIsTimeOrder(ms, time, list[i].1, list[j].1);
    }
  }

  /** Messages are pruned in the order of their times exactly when no two fully delivered ones clash. */
  lemma {:induction false} PrunesInTimeOrderIff(ms: map<string, Message>, time: map<string, Civil>)
    requires Written(ms, time)
    ensures InTimeOrder(ms, time) <==> NoClash(ms, time)
  {
    if NoClash(ms, time) {
      NoClashInOrder(ms, time);
    } else {
      var a, b :| Clash(ms, time, a, b);
      ClashBreaksOrder(ms, time, a, b);
    }
  }

  // ---- an input on which the younger message is deleted ----

  /** Two messages, each delivered to one recipient; the text of `b` sorts first. */
  predicate IsPair(ms: map<string, Message>, a: string, b: string) {
    && a != b && ms.Keys == {a, b} && FullyDelivered(ms[a]) && FullyDelivered(ms[b])
    && |ms[a].deliveries| == 1 && |ms[b].deliveries| == 1 && Less(ms[b].created, ms[a].created)
  }

  lemma {:induction false} PairIsListed(ms: map<string, Message>, a: string, b: string)
    requires IsPair(ms, a, b)
    ensures PruneOrder(ms) == [(ms[b].created, b), (ms[a].created, a)]
  {
    OlderTextIsStrict();
    var list := [(ms[b].created, b), (ms[a].created, a)];
    forall p ensures p in list <==> p in PruneOrder(ms) {
      assert p in Prunable(ms) <==> p == list[0] || p == list[1];
    }
    SortedUnique(OlderText, list, PruneOrder(ms));
  }

  lemma {:induction false} PairSlots(ms: map<string, Message>, a: string, b: string)
    requires IsPair(ms, a, b)
    ensures |ms| == 2 && |Slots(ms)| == 2 && |map[a := ms[a]]| == 1 && |Slots(map[a := ms[a]])| == 1
  {
    var none: map<string, Message> := map[];
    OneMoreMessage(none, a, ms[a]);
    OneMoreMessage(none[a := ms[a]], b, ms[b]);
    assert Slots(none) == {};
    assert none[a := ms[a]] == map[a := ms[a]];
    assert none[a := ms[a]][b := ms[b]] == ms;
  }

  lemma {:induction false} PairRoom(ms: map<string, Message>, a: string, b: string, list: seq<(string, string)>)
    requires IsPair(ms, a, b) && list == [(ms[b].created, b), (ms[a].created, a)]
    ensures Messages.Without(ms, list[..1]) == map[a := ms[a]]
    ensures !RoomAt(ms, list, DELIVERY_CAP - 1, 0) && RoomAt(ms, list, DELIVERY_CAP - 1, 1)
  {
    PairSlots(ms, a, b);
    assert list[..1] == [(ms[b].created, b)] && list[..0] == [];
    assert Among(list[..1], b) by { assert list[..1][0].1 == b; }
    assert Messages.Without(ms, list[..1]) == map[a := ms[a]];
    assert Messages.Without(ms, list[..0]) == ms;
  }

  /** A draft that needs all but one of the delivery slots. */
  ghost predicate NeedsRoom(box: Box, d: Draft) {
    && DraftError(d).None? && |UniqueNonEmpty(d.recipients)| == DELIVERY_CAP - 1
    && d.id !in box.messages && box.replays == map[] && WithRequest(box.messages, d.request) == {}
  }

  lemma {:induction false} RoomIsMade(box: Box, d: Draft, mark: string, j: nat)
    requires NeedsRoom(box, d) && j <= |PruneOrder(box.messages)|
    requires RoomAt(box.messages, PruneOrder(box.messages), DELIVERY_CAP - 1, j)
    ensures Fresh(Create(box, d, mark).1)
  {
    var n, list := DELIVERY_CAP - 1, PruneOrder(box.messages);
    assert Known(box, d.request, mark).None?;
    EnoughIsShortest(box.messages, list, n);
    assert Enough(box.messages, list, n, 0).Some?;
  }

  /** Such a draft deletes the message whose text sorts first and keeps the other. */
  lemma {:induction false} PairPrunes(box: Box, a: string, b: string, d: Draft, mark: string)
    requires IsPair(box.messages, a, b) && NeedsRoom(box, d)
    ensures var (after, r) := Create(box, d, mark);
            Fresh(r) && after.messages == map[a := box.messages[a]][d.id := r.message]
  {
    var list := PruneOrder(box.messages);
    PairIsListed(box.messages, a, b);
    PairRoom(box.messages, a, b, list);
    RoomIsMade(box, d, mark, 1);
    var k := CreateDeletesShortestPrefix(box, d, mark);
    assert k == 1;
  }

  function Letters(n: nat): string {
    seq(n + 1, i => 'w')
  }

  lemma {:induction false} LettersStay(n: nat)
    ensures TrimSpace(Letters(n)) == Letters(n) && Letters(n) != ""
  {
  }

  function Names(n: nat): seq<string> {
    seq(n, i requires 0 <= i < n => Letters(i))
  }

  /** There are as many names as one likes. */
  lemma {:induction false} NamesCount(n: nat)
    ensures |UniqueNonEmpty(Names(n))| == n
  {
    if n == 0 {
      assert UniqueNonEmpty(Names(0)) == {};
    } else {
      var before, after, last := UniqueNonEmpty(Names(n - 1)), UniqueNonEmpty(Names(n)), Letters(n - 1);
      NamesCount(n - 1);
      forall v ensures v in after <==> v in before || v == last { NameAdded(n, v); }
      assert after == before + {last};
      NameIsNew(n);
    }
  }

  lemma {:induction false} IsName(n: nat, v: string)
    ensures v in UniqueNonEmpty(Names(n)) <==> exists i: nat :: i < n && v == Letters(i)
  {
    if v in UniqueNonEmpty(Names(n)) {
      var x :| x in Names(n) && TrimSpace(x) != "" && v == TrimSpace(x);
      var i: nat :| i < n && Names(n)[i] == x;
      LettersStay(i);
    }
    if i: nat :| i < n && v == Letters(i) {
      LettersStay(i);
      assert Names(n)[i] == v && v in Names(n);
    }
  }

  lemma {:induction false} NameAdded(n: nat, v: string)
    requires n > 0
    ensures v in UniqueNonEmpty(Names(n)) <==> v in UniqueNonEmpty(Names(n - 1)) || v == Letters(n - 1)
  {
    IsName(n, v);
    IsName(n - 1, v);
  }

  lemma {:induction false} NameIsNew(n: nat)
    requires n > 0
    ensures Letters(n - 1) !in UniqueNonEmpty(Names(n - 1))
  {
    IsName(n - 1, Letters(n - 1));
    forall i: nat | i < n - 1 ensures Letters(i) != Letters(n - 1) {
      assert |Letters(i)| == i + 1 && |Letters(n - 1)| == n;
    }
  }

  function DeliveredAt(request: string, created: string): Message {
    Message(request, "", "", "b", "", created, [Delivery("w", Delivered, "", created, created, [])])
  }

  /** Two delivered messages of these times. */
  function TwoAt(x: Civil, y: Civil): map<string, Message> {
    map["early" := DeliveredAt("q", NanoText(x)), "late" := DeliveredAt("r", NanoText(y))]
  }

  function TimesOf(x: Civil, y: Civil): map<string, Civil> {
    map["early" := x, "late" := y]
  }

  lemma {:induction false} TwoWritten(x: Civil, y: Civil)
    requires Printable(x) && Printable(y)
    ensures Written(TwoAt(x, y), TimesOf(x, y))
  {
  }

  lemma {:induction false} TwoDelivered(x: Civil, y: Civil)
    ensures var ms := TwoAt(x, y);
            && ms.Keys == {"early", "late"} && FullyDelivered(ms["early"]) && FullyDelivered(ms["late"])
            && |ms["early"].deliveries| == 1 && |ms["late"].deliveries| == 1
            && ms["early"].created == NanoText(x) && ms["late"].created == NanoText(y)
  {
  }

  lemma {:induction false} TwoClash(x: Civil, y: Civil)
    requires Printable(x) && Printable(y) && Earlier(x, y) && Misordered(x, y)
    ensures Written(TwoAt(x, y), TimesOf(x, y)) && IsPair(TwoAt(x, y), "early", "late")
    ensures Clash(TwoAt(x, y), TimesOf(x, y), "early", "late")
  {
    TwoWritten(x, y);
    TwoDelivered(x, y);
    NanoOrdersAsTimeIff(x, y);
  }

  function ManyRecipients(n: nat): Draft {
    Draft(Letters(2), Letters(0), "", "", Letters(0), "", Names(n))
  }

  lemma {:induction false} ManyNeedRoom(x: Civil, y: Civil)
    ensures NeedsRoom(Box(TwoAt(x, y), map[]), ManyRecipients(DELIVERY_CAP - 1))
  {
    NamesCount(DELIVERY_CAP - 1);
    LettersStay(0);
    LettersStay(2);
    assert Letters(2)[0] == 'w' && Letters(0)[0] == 'w';
  }

  /** And they can clash: of any two times that do, with a delivered message each, a request to 4999 recipients deletes
      the younger one and keeps the older. */
  lemma {:induction false} YoungerPrunedFirst(x: Civil, y: Civil, mark: string)
    requires Printable(x) && Printable(y) && Earlier(x, y) && Misordered(x, y)
    ensures Written(TwoAt(x, y), TimesOf(x, y)) && !InTimeOrder(TwoAt(x, y), TimesOf(x, y))
    ensures var (after, r) := Create(Box(TwoAt(x, y), map[]), ManyRecipients(DELIVERY_CAP - 1), mark);
            Fresh(r) && "late" !in after.messages && "early" in after.messages
  {
    TwoClash(x, y);
    ClashBreaksOrder(TwoAt(x, y), TimesOf(x, y), "early", "late");
    ManyNeedRoom(x, y);
    PairPrunes(Box(TwoAt(x, y), map[]), "early", "late", ManyRecipients(DELIVERY_CAP - 1), mark);
  }

  /** For one, 00:00:05 and 00:00:05.5. */
  lemma {:induction false} HalfSecondPrunedFirst(mark: string)
    ensures Earlier(FIVE, FIVE_AND_A_HALF)
    ensures var (after, r) := Create(Box(TwoAt(FIVE, FIVE_AND_A_HALF), map[]), ManyRecipients(DELIVERY_CAP - 1), mark);
            Fresh(r) && "late" !in after.messages && "early" in after.messages
  {
    NanoOrderFails();
    FiveMisorders();
    YoungerPrunedFirst(FIVE, FIVE_AND_A_HALF, mark);
  }

  lemma {:induction false} FiveMisorders()
    ensures Misordered(FIVE, FIVE_AND_A_HALF)
  {
    NoFraction(9);
  }
}
