/** Recovery in the whole system: whatever happened before, the next undisturbed cycle finishes what it can. */
module RelayRecovery {
  import opened Basics
  import opened RelayTables
  import opened RelayHandlers
  import opened RelayRunner
  import opened RelayWorld
  import opened RelaySafety
  import opened RelayReach
  import opened RelayProgress

  // ---- message IDs always fit the routes that take them ----

  lemma {:induction false} MessageIdFits(host: string, request: string)
    requires IsHost(host) && IsUuid(request)
    ensures IsText(MessageId(host, request), 110)
  {
    var id := MessageId(host, request);
    forall i | 0 <= i < |id| ensures id[i] < 0x80 as char {
      if i < |host| {
        assert id[i] == host[i] && IsHostChar(host[i]);
      } else if i > |host| {
        assert id[i] == request[i - |host| - 1];
        assert IsHex(request[i - |host| - 1]) || request[i - |host| - 1] == '-';
      }
    }
    AsciiLen(id);
  }

  ghost predicate IdsFit(w: World) {
    && (forall id :: id in w.t.messages ==> IsText(id, 110))
    && (forall h :: h in w.handlers ==> IsHost(w.handlers[h].0.host))
    && (forall k :: k in w.nodes ==> IsHost(w.nodes[k].host))
  }

  lemma {:induction false} BatchIds(t: Tables, q: Quota, c: Call, id: string)
    requires StageOk(c, Committing) && IsHost(c.host) && id in Batch(t, q, c).messages && id !in t.messages
    ensures IsText(id, 110)
  {
    if c.Send? { MessageIdFits(c.host, c.message.request); }
  }

  lemma {:induction false} NextIds(w: World, ev: Event, id: string)
    requires Inv(w) && IdsFit(w) && Enabled(w, ev) && id in Apply(w, ev).t.messages
    ensures IsText(id, 110)
  {
    if ev.Handle? {
      var (c, s) := w.handlers[ev.hid];
      assert HandlerOk(FactsOf(w), w.forged, w.handlers[ev.hid]);
      StepWritesOnlyItsBatch(w.t, w.q, c, s);
      if s == Committing && id !in w.t.messages { BatchIds(w.t, w.q, c, id); }
    }
  }

  lemma {:induction false} NextHosts(w: World, ev: Event)
    requires IdsFit(w) && Enabled(w, ev)
    ensures forall h :: h in Apply(w, ev).handlers ==> IsHost(Apply(w, ev).handlers[h].0.host)
    ensures forall k :: k in Apply(w, ev).nodes ==> IsHost(Apply(w, ev).nodes[k].host)
  {
  }

  lemma {:induction false} IdsAlwaysFit(ws: seq<World>, evs: seq<Event>, n: nat)
    requires IsRun(ws, evs) && Initial(ws[0]) && n < |ws|
    ensures IdsFit(ws[n])
  {
    if n > 0 {
      var w, ev := ws[n - 1], evs[n - 1];
      IdsAlwaysFit(ws, evs, n - 1);
      Reachable(ws, evs, n - 1);
      NextHosts(w, ev);
      forall id | id in ws[n].t.messages ensures IsText(id, 110) { NextIds(w, ev, id); }
    }
  }

  /** In every reachable world, one cycle without faults takes a host's pending entry to `done` iff the coordinator
      still allows what the entry's phase needs; it submits exactly when the message is deliverable and was not being
      submitted. */
  lemma {:induction false} RecoversIff(ws: seq<World>, evs: seq<Event>, n: nat, k: nat, env: Luck)
    requires IsRun(ws, evs) && Initial(ws[0]) && n < |ws| && k in ws[n].nodes
    requires Next(ws[n].nodes[k].journal.pending).Some? && GoodLuck(ws[n].t, ws[n].nodes[k].host, env)
    ensures var w, node := ws[n], ws[n].nodes[k];
            var e, o := Next(node.journal.pending).value, Drive(node.host, START, node.journal, w.t, w.q, env);
            && (Finished(o.j, e.id) <==> CanFinish(w.t, w.q, node.host, e))
            && o.submissions == if CycleSubmits(node.journal, w.t, w.q, node.host, e, env.now) then 1 else 0
  {
    Reachable(ws, evs, n);
    IdsAlwaysFit(ws, evs, n);
    assert NodeOk(FactsOf(ws[n]), k, ws[n].nodes[k]);
    CycleFinishes(ws[n].nodes[k].host, ws[n].nodes[k].journal, ws[n].t, ws[n].q, env);
  }
}
