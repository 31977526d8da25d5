/** The message store as a program: counting, pruning and inserting in place. */
module MessageStore {
  import opened Basics
  import opened Listing
  import opened Messages
  import opened MessagePruning

  // ---- running counts of the pruning loop ----

  ghost predicate IsPruneOrder(ms: map<string, Message>, list: seq<(string, string)>) {
    list == PruneOrder(ms)
  }

  lemma {:induction false} ListedOnce(ms: map<string, Message>, list: seq<(string, string)>, k: nat)
    requires IsPruneOrder(ms, list) && k < |list|
    ensures list[k].1 in ms && FullyDelivered(ms[list[k].1]) && !Among(list[..k], list[k].1)
  {
    assert list[k] in Prunable(ms);
    if Among(list[..k], list[k].1) {
      var i :| 0 <= i < k && list[..k][i].1 == list[k].1;
      assert list[i] in Prunable(ms) && list[i] == list[k];
      assert OlderText(list[i], list[k]);
      LessIrreflexive(list[k].0);
      LessIrreflexive(list[k].1);
    }
  }

  /** Every listed message exists and is listed once. */
  ghost predicate Orderly(ms: map<string, Message>, list: seq<(string, string)>) {
    forall k :: 0 <= k < |list| ==> list[k].1 in ms && !Among(list[..k], list[k].1)
  }

  lemma {:induction false} PruneOrderIsOrderly(ms: map<string, Message>, list: seq<(string, string)>)
    requires IsPruneOrder(ms, list)
    ensures Orderly(ms, list)
  {
    forall k | 0 <= k < |list| ensures list[k].1 in ms && !Among(list[..k], list[k].1) { ListedOnce(ms, list, k); }
  }

  lemma {:induction false} AmongOneMore(list: seq<(string, string)>, k: nat, x: string)
    requires k < |list|
    ensures Among(list[..k + 1], x) <==> Among(list[..k], x) || x == list[k].1
  {
    if Among(list[..k], x) {
      var i :| 0 <= i < k && list[..k][i].1 == x;
      assert list[..k + 1][i].1 == x;
    }
    assert list[..k + 1][k] == list[k];
    if Among(list[..k + 1], x) {
      var i :| 0 <= i < k + 1 && list[..k + 1][i].1 == x;
      if i < k { assert list[..k][i].1 == x; }
    }
  }

  lemma {:induction false} OneMoreGone(ms: map<string, Message>, list: seq<(string, string)>, k: nat)
    requires k < |list| && list[k].1 in ms && !Among(list[..k], list[k].1)
    ensures var a, b, id := Messages.Without(ms, list[..k]), Messages.Without(ms, list[..k + 1]), list[k].1;
            id in a && a[id] == ms[id] && b == a - {id} && a == b[id := ms[id]] && id !in b
  {
    var a, b, id := Messages.Without(ms, list[..k]), Messages.Without(ms, list[..k + 1]), list[k].1;
    forall x ensures x in b <==> x in a && x != id {
      AmongOneMore(list, k, x);
    }
  }

  lemma {:induction false} CountsDrop(ms: map<string, Message>, list: seq<(string, string)>, k: nat)
    requires k < |list| && list[k].1 in ms && !Among(list[..k], list[k].1)
    ensures var a, b, id := Messages.Without(ms, list[..k]), Messages.Without(ms, list[..k + 1]), list[k].1;
            |a| == |b| + 1 && |Slots(a)| == |Slots(b)| + |ms[id].deliveries|
  {
    OneMoreGone(ms, list, k);
    OneMoreMessage(Messages.Without(ms, list[..k + 1]), list[k].1, ms[list[k].1]);
  }

  lemma {:induction false} SnapshotStep(ms: map<string, Message>, rs: map<string, Replay>, list: seq<(string, string)>,
          k: nat)
    requires k < |list| && list[k].1 in ms
    ensures Snapshots(ms, rs, list[..k + 1]) ==
            Snapshots(ms, rs, list[..k])[ms[list[k].1].request := Replay(ms[list[k].1].mark, list[k].1, ms[list[k].1])]
  {
    assert list[..k + 1][..k] == list[..k] && list[..k + 1][k] == list[k];
  }

  lemma {:induction false} CreateStaysDistinct(b: Box, d: Draft, mark: string)
    requires DistinctRequests(b.messages)
    ensures DistinctRequests(Create(b, d, mark).0.messages)
  {
    UnchangedUnlessCreated(b, d, mark);
    var r := Create(b, d, mark).1;
    if r.Sent? && !r.replayed {
      var list, m := CreateIsCreated(b, d, mark);
      CreatedStaysDistinct(b, Create(b, d, mark).0, list, d, m);
    }
  }

  lemma {:induction false} NoneGone(ms: map<string, Message>, list: seq<(string, string)>)
    ensures Messages.Without(ms, list[..0]) == ms
  {
  }

  class Store {
    var messages: map<string, Message>
    var replays: map<string, Replay>

    constructor ()
      ensures Valid() && Contents() == Box(map[], map[])
    {
      messages, replays := map[], map[];
    }

    function Contents(): Box
      reads this
    {
      Box(messages, replays)
    }

    /** request_id is UNIQUE. */
    ghost predicate Valid()
      reads this
    {
      DistinctRequests(messages)
    }

    method CreateMessage(d: Draft, mark: string) returns (r: Result)
      requires Valid()
      modifies this
      ensures Valid()
      ensures (Contents(), r) == Create(old(Contents()), d, mark)
    {
      CreateStaysDistinct(Contents(), d, mark);
      var error := DraftError(d);
      if error.Some? {
        return Failed(error.value);
      }
      var live := WithRequest(messages, d.request);
      if live != {} {
        var id :| id in live;
        assert live == {id};
        return if messages[id].mark == mark then Sent(id, messages[id], true) else Failed(Mismatch);
      }
      if d.request in replays {
        var stored := replays[d.request];
        return if stored.mark == mark then Sent(stored.id, stored.message, true) else Failed(Mismatch);
      }
      r := PruneAndInsert(d, mark);
    }

    /** The rest of the transaction; an insert that fails also undoes the pruning. */
    method PruneAndInsert(d: Draft, mark: string) returns (r: Result)
      modifies this
      ensures var b := old(Contents());
              var pruned := Prune(b, |UniqueNonEmpty(d.recipients)|);
              (Contents(), r) == if pruned.None? then (b, Failed(Quota))
                                 else if Insert(pruned.value, d, mark).1.Sent? then Insert(pruned.value, d, mark)
                                 else (b, Insert(pruned.value, d, mark).1)
    {
      var before := (messages, replays);
      var ok := PruneDelivered(|UniqueNonEmpty(d.recipients)|);
      if !ok {
        return Failed(Quota);
      }
      r := InsertMessage(d, mark);
      if r.Failed? {
        messages, replays := before.0, before.1;
      }
    }

    method InsertMessage(d: Draft, mark: string) returns (r: Result)
      modifies this
      ensures (Contents(), r) == Insert(old(Contents()), d, mark)
    {
      if d.id in messages {
        return Failed(Conflict);
      }
      var recipients := SortedRecipients(d.recipients);
      var m := Message(d.request, d.kind, d.from, d.body, mark, d.created, NewDeliveries(recipients, d.created));
      messages := messages[d.id := m];
      replays := KeepNewest(replays[d.request := Replay(mark, d.id, m)], REPLAY_CAP);
      return Sent(d.id, m, false);
    }

    /** Choose how many of the oldest delivered messages must go, then snapshot and delete them. */
    method PruneDelivered(incoming: nat) returns (ok: bool)
      modifies this
      ensures var p := Prune(old(Contents()), incoming);
              ok == p.Some? && Contents() == if p.Some? then p.value else old(Contents())
    {
      if incoming > DELIVERY_CAP {
        return false;
      }
      var list := Oldest(messages);
      PruneOrderIsOrderly(messages, list);
      var k, enough := Choose(list, incoming);
      if !enough {
        return false;
      }
      Delete(list, k);
      return true;
    }

    /** The loop over the delivered messages, oldest first, with running counts. */
    method Choose(list: seq<(string, string)>, incoming: nat) returns (k: nat, enough: bool)
      requires Orderly(messages, list)
      ensures k <= |list|
      ensures Enough(messages, list, incoming, 0) == if enough then Some(k) else None
    {
      k := 0;
      var messageCount, deliveryCount := |messages|, |Slots(messages)|;
      NoneGone(messages, list);
      while k < |list| && (messageCount - k >= MESSAGE_CAP || deliveryCount + incoming > DELIVERY_CAP)
        invariant 0 <= k <= |list|
        invariant messageCount - k == |Messages.Without(messages, list[..k])|
        invariant deliveryCount == |Slots(Messages.Without(messages, list[..k]))|
        invariant Enough(messages, list, incoming, 0) == Enough(messages, list, incoming, k)
      {
        CountsDrop(messages, list, k);
        deliveryCount := deliveryCount - |messages[list[k].1].deliveries|;
        k := k + 1;
      }
      enough := messageCount - k < MESSAGE_CAP && deliveryCount + incoming <= DELIVERY_CAP;
    }

    method Delete(list: seq<(string, string)>, k: nat)
      requires Orderly(messages, list) && k <= |list|
      modifies this
      ensures messages == Messages.Without(old(messages), list[..k])
      ensures replays == Snapshots(old(messages), old(replays), list[..k])
    {
      ghost var ms, rs := messages, replays;
      NoneGone(ms, list);
      for i := 0 to k
        invariant messages == Messages.Without(ms, list[..i]) && replays == Snapshots(ms, rs, list[..i])
      {
        OneMoreGone(ms, list, i);
        SnapshotStep(ms, rs, list, i);
        var id := list[i].1;
        replays := replays[messages[id].request := Replay(messages[id].mark, id, messages[id])];
        messages := messages - {id};
      }
    }

    method UpdateDelivery(id: string, i: nat, state: State, error: string, at: string)
      requires Valid()
      modifies this`messages
      ensures Valid()
      ensures Contents() == Messages.UpdateDelivery(old(Contents()), id, i, state, error, at)
    {
      if state.Other? || id !in messages || i >= |messages[id].deliveries| {
        return;
      }
      var d := messages[id].deliveries[i];
      if d.state == state && d.error == error {
        return;
      }
      var updated := d.(state := state, error := error, updated := at,
        history := LastEvents(d.history + [Event(state, error, at)]));
      messages := messages[id := messages[id].(deliveries := messages[id].deliveries[i := updated])];
    }
  }

  method Oldest(ms: map<string, Message>) returns (list: seq<(string, string)>)
    ensures IsPruneOrder(ms, list)
  {
    OlderTextIsStrict();
    list := SelectFirst(OlderText, Prunable(ms), |Prunable(ms)|);
  }

  method SortedRecipients(values: seq<string>) returns (sorted: seq<string>)
    ensures sorted == Recipients(values)
  {
    LessIsStrict();
    sorted := SelectFirst(Less, UniqueNonEmpty(values), |UniqueNonEmpty(values)|);
  }
}
