/** What the relay promises, over every run of the whole system. */
module RelayPromises {
  import opened Basics
  import opened RelayTables
  import opened RelayLease
  import opened RelayReceipts
  import opened RelayHandlers
  import opened RelayRunner
  import opened RelayWorld
  import opened RelaySafety
  import opened RelayReach

  /** The sender reused a request ID after retention deleted the row: two lifetimes share one message ID. */
  ghost predicate Resent(w: World, message: string) {
    exists m, n :: 0 <= m < n < |w.t.born| && w.t.born[m].id == message && w.t.born[n].id == message
  }

  /** `Submit` runs at most once per journal entry and at most once per row lifetime, in every reachable world. */
  lemma {:induction false} AtMostOnce(ws: seq<World>, evs: seq<Event>, n: nat, i: nat, j: nat)
    requires IsRun(ws, evs) && Initial(ws[0]) && n < |ws|
    requires i < j < |ws[n].log|
    ensures ws[n].log[i].entry != ws[n].log[j].entry
    ensures ws[n].log[i].life != ws[n].log[j].life
    ensures ws[n].log[i].message == ws[n].log[j].message ==> Resent(ws[n], ws[n].log[i].message)
  {
    Reachable(ws, evs, n);
    var f := FactsOf(ws[n]);
    assert SubmissionOk(f, f.log[i]) && SubmissionOk(f, f.log[j]);
    var a, b := f.log[i].life, f.log[j].life;
    assert a != b;
    if f.log[i].message == f.log[j].message {
      assert f.born[if a < b then a else b].id == f.log[i].message
        && f.born[if a < b then b else a].id == f.log[i].message;
    }
  }

  /** A message in state `submitted` was submitted exactly once, with its own thread and prompt, and that call
      returned its submission ID - unless another client of its destination host reported it as submitted or its ID was
      reused. */
  lemma {:induction false} TruthfulReceipts(ws: seq<World>, evs: seq<Event>, n: nat, id: string) returns (i: nat)
    requires IsRun(ws, evs) && Initial(ws[0]) && n < |ws|
    requires id in ws[n].t.messages && ws[n].t.messages[id].state == Submitted
    requires (ws[n].t.messages[id].target, id) !in ws[n].forged && !Resent(ws[n], id)
    ensures i < |ws[n].log|
    ensures var s, row := ws[n].log[i], ws[n].t.messages[id];
            && s.outcome == Some(row.submission) && s.life == row.life && s.entry == row.attempt
            && s.message == id && s.thread == row.thread && s.prompt == row.prompt
    ensures forall k :: 0 <= k < |ws[n].log| && ws[n].log[k].message == id ==> k == i
  {
    Reachable(ws, evs, n);
    var w := ws[n];
    var row := w.t.messages[id];
    assert RowVouched(FactsOf(w), w.forged, id, row);
    i :| 0 <= i < |w.log| && w.log[i].message == id && w.log[i].outcome == Some(row.submission);
    assert RowBorn(w.t, id) && RowLeased(w.t, id) && SubmissionOk(FactsOf(w), w.log[i]);
    OneLife(w, id, w.log[i].life, row.life);
    forall k | 0 <= k < |w.log| && w.log[k].message == id ensures k == i {
      assert SubmissionOk(FactsOf(w), w.log[k]);
      OneLife(w, id, w.log[k].life, row.life);
    }
  }

  lemma {:induction false} OneLife(w: World, id: string, a: nat, b: nat)
    requires !Resent(w, id) && a < |w.t.born| && b < |w.t.born| && w.t.born[a].id == id && w.t.born[b].id == id
    ensures a == b
  {
  }

  /** Tables stay leased and receipted through every interleaving. */
  lemma {:induction false} LeasesAndReceiptsHold(ws: seq<World>, evs: seq<Event>, n: nat, id: string)
    requires IsRun(ws, evs) && Initial(ws[0]) && n < |ws| && id in ws[n].t.messages
    ensures ws[n].t.messages[id].state == Queued <==>
            forall k :: k in ws[n].t.attempts ==> ws[n].t.attempts[k].message != Some(id)
    ensures ws[n].t.messages[id].state != Queued ==>
              forall k :: k in ws[n].t.attempts ==>
                (ws[n].t.attempts[k].message == Some(id) <==>
                  k == (ws[n].t.messages[id].target, ws[n].t.messages[id].attempt))
    ensures PathTo(History(ws[n].t.receipts, id), ws[n].t.messages[id].state)
    ensures |History(ws[n].t.receipts, id)| <= 3
  {
    Reachable(ws, evs, n);
    ExclusiveLease(ws[n].t, id);
    HistoryIsState(ws[n].t, id);
  }

  /** No event, retention included, gives a row lifetime back to the queue or to another attempt. */
  lemma {:induction false} NothingIsRequeued(ws: seq<World>, evs: seq<Event>, n: nat, id: string)
    requires IsRun(ws, evs) && Initial(ws[0]) && n + 1 < |ws|
    requires id in ws[n].t.messages && id in ws[n + 1].t.messages
    requires ws[n].t.messages[id].life == ws[n + 1].t.messages[id].life
    ensures RowAdvances(ws[n].t.messages[id], ws[n + 1].t.messages[id])
  {
    Reachable(ws, evs, n);
    TablesAdvance(ws[n], evs[n]);
  }

  lemma {:induction false} TablesAdvance(w: World, ev: Event)
    requires Inv(w) && Enabled(w, ev)
    ensures Advances(w.t, Apply(w, ev).t)
  {
    if ev.Handle? {
      var h := w.handlers[ev.hid];
      assert HandlerOk(FactsOf(w), w.forged, h);
      StepKeepsInv(w.t, w.q, h.0, h.1);
    } else if ev.Retain? {
      CompactKeepsLease(w.t, ev.cutoff);
    } else {
      AdvancesReflexive(w.t);
    }
  }

  lemma {:induction false} DeletedIffExpired(w: World, ev: Event, id: string)
    requires Enabled(w, ev) && id in w.t.messages
    ensures id in Apply(w, ev).t.messages <==> !(ev.Retain? && Expired(w.t, ev.cutoff, id))
  {
    if ev.Handle? {
      var h := w.handlers[ev.hid];
      StepWritesOnlyItsBatch(w.t, w.q, h.0, h.1);
      RowSurvivesBatch(w.t, w.q, h.0, id);
    }
  }

  /** A message is only ever deleted by retention, once completed and old enough; its attempt and receipts go with
      it. */
  lemma {:induction false} OnlyFinishedIsDeleted(ws: seq<World>, evs: seq<Event>, n: nat, id: string)
    requires IsRun(ws, evs) && Initial(ws[0]) && n + 1 < |ws| && id in ws[n].t.messages
    ensures id !in ws[n + 1].t.messages <==>
              evs[n].Retain? && ws[n].t.messages[id].state == Completed && ws[n].t.messages[id].updated < evs[n].cutoff
    ensures var u := ws[n + 1].t;
            id !in u.messages ==>
              History(u.receipts, id) == [] && forall k :: k in u.attempts ==> u.attempts[k].message != Some(id)
  {
    Reachable(ws, evs, n + 1);
    DeletedIffExpired(ws[n], evs[n], id);
    var u := ws[n + 1].t;
    if id !in u.messages {
      HistoryOfNone(u.receipts, id);
      forall k | k in u.attempts ensures u.attempts[k].message != Some(id) { assert AttemptOk(u, k); }
    }
  }

  /** The journal never holds two entries that are not done, and a submission is running only for the one
      it durably calls `dispatching`. */
  lemma {:induction false} JournalLeadsSubmission(ws: seq<World>, evs: seq<Event>, n: nat, k: nat)
    requires IsRun(ws, evs) && Initial(ws[0]) && n < |ws| && k in ws[n].nodes
    ensures OneOpen(ws[n].nodes[k].journal.pending)
    ensures ws[n].nodes[k].proc.Some? && ws[n].nodes[k].proc.value.Receiver?
            && ws[n].nodes[k].proc.value.l.pc == DoSubmit ==>
              var l := ws[n].nodes[k].proc.value.l;
              && Find(ws[n].nodes[k].journal.pending, l.e.id) == Some(l.e) && l.e.phase == Submitting
              && !Logged(ws[n].log, l.e.id)
  {
    Reachable(ws, evs, n);
    assert NodeOk(FactsOf(ws[n]), k, ws[n].nodes[k]);
  }

  // ---- a crash after the submission may have begun ----

  predicate InFlight(n: Node, id: string) {
    n.proc.Some? && n.proc.value.Receiver? && n.proc.value.l.e.id == id && n.proc.value.l.pc in {DoSubmit, SaveOutcome}
  }

  predicate Recovering(n: Node, id: string) {
    n.proc.Some? && n.proc.value.Receiver? && n.proc.value.l.e.id == id
    && n.proc.value.l.pc in {SaveRecovered, CallReport, AwaitReport, SaveDone}
  }

  /** The entry may have been submitted, and nobody is left who knows the answer. */
  ghost predicate Stranded(n: Node, id: string) {
    var e := Find(n.journal.pending, id);
    && e.Some?
    && (e.value.phase == Submitting || (e.value.phase in {Reporting, Done} && e.value.receipt.state == Uncertain))
    && (e.value.phase == Submitting ==> !InFlight(n, id))
    && (Recovering(n, id) ==> n.proc.value.l.e.receipt.state == Uncertain)
  }

  lemma {:induction false} StrandedSaveOther(n: Node, a: Answer, minted: string, id: string)
    requires n.proc.Some? && n.proc.value.Receiver? && Stranded(n, id) && IsSave(n.proc.value.l.pc)
    requires n.proc.value.l.e.id != id
    requires Find(Save(n.journal.pending, n.proc.value.l.e), id) == Find(n.journal.pending, id)
    ensures Stranded(AfterCycle(n, a, minted), id)
  {
    SavedNode(n, a, minted);
  }

  /** After a save the cycle stops or goes on with the same entry. */
  lemma {:induction false} SavedNode(n: Node, a: Answer, minted: string)
    requires n.proc.Some? && n.proc.value.Receiver? && IsSave(n.proc.value.l.pc)
    ensures var m := AfterCycle(n, a, minted);
            && m.proc.value.l.e == n.proc.value.l.e
            && m.journal.pending in {n.journal.pending, Save(n.journal.pending, n.proc.value.l.e)}
            && (m.proc.value.l.pc == Stopped || m.proc.value.l.pc == AfterSave(n.proc.value.l.pc))
  {
  }

  lemma {:induction false} OwnSaves(f: Facts, k: nat, n: Node, id: string)
    requires NodeOk(f, k, n) && n.proc.Some? && n.proc.value.Receiver? && Stranded(n, id) && IsSave(n.proc.value.l.pc)
    requires n.proc.value.l.e.id == id
    ensures n.proc.value.l.pc in {SaveRecovered, SaveDone} && n.proc.value.l.e.receipt.state == Uncertain
    ensures n.proc.value.l.e.phase == if n.proc.value.l.pc == SaveDone then Done else Reporting
  {
    assert EntryHeld(f, k, n.host, n.journal, n.proc.value.l);
  }

  lemma {:induction false} StrandedSaveOwn(f: Facts, k: nat, n: Node, a: Answer, minted: string, id: string)
    requires NodeOk(f, k, n) && n.proc.Some? && n.proc.value.Receiver? && Stranded(n, id) && IsSave(n.proc.value.l.pc)
    requires n.proc.value.l.e.id == id
    requires Find(Save(n.journal.pending, n.proc.value.l.e), id) == Some(n.proc.value.l.e)
    ensures Stranded(AfterCycle(n, a, minted), id)
  {
    OwnSaves(f, k, n, id);
    SavedNode(n, a, minted);
  }

  lemma {:induction false} StrandedSave(f: Facts, k: nat, n: Node, a: Answer, minted: string, id: string)
    requires NodeOk(f, k, n) && n.proc.Some? && n.proc.value.Receiver? && Stranded(n, id) && IsSave(n.proc.value.l.pc)
    ensures Stranded(AfterCycle(n, a, minted), id)
  {
    SaveFind(n.journal.pending, n.proc.value.l.e, id);
    if n.proc.value.l.e.id == id {
      StrandedSaveOwn(f, k, n, a, minted, id);
    } else {
      StrandedSaveOther(n, a, minted, id);
    }
  }

  lemma {:induction false} StrandedBegin(f: Facts, k: nat, n: Node, a: Answer, minted: string, id: string)
    requires NodeOk(f, k, n) && n.proc.Some? && n.proc.value.Receiver? && Stranded(n, id) && n.proc.value.l.pc == Begin
    ensures Stranded(AfterCycle(n, a, minted), id)
  {
    NextIsFirstOpen(n.journal.pending);
  }

  function AfterCycle(n: Node, a: Answer, minted: string): Node
    requires n.proc.Some? && n.proc.value.Receiver?
  {
    Node(n.host, JournalAfter(n.proc.value.l, n.journal, a),
      Some(Receiver(Advance(n.host, n.proc.value.l, n.journal, a, minted))))
  }

  lemma {:induction false} StrandedCycle(f: Facts, k: nat, n: Node, a: Answer, minted: string, id: string)
    requires NodeOk(f, k, n) && n.proc.Some? && n.proc.value.Receiver? && Stranded(n, id)
    requires n.proc.value.l.pc == AskReady ==> minted != id
    ensures Stranded(AfterCycle(n, a, minted), id)
  {
    if IsSave(n.proc.value.l.pc) {
      StrandedSave(f, k, n, a, minted, id);
    } else if n.proc.value.l.pc == Begin {
      StrandedBegin(f, k, n, a, minted, id);
    } else {
      StrandedOther(f, k, n, a, minted, id);
    }
  }

  lemma {:induction false} StrandedOther(f: Facts, k: nat, n: Node, a: Answer, minted: string, id: string)
    requires NodeOk(f, k, n) && n.proc.Some? && n.proc.value.Receiver? && Stranded(n, id)
    requires !IsSave(n.proc.value.l.pc) && n.proc.value.l.pc != Begin
    requires n.proc.value.l.pc == AskReady ==> minted != id
    ensures Stranded(AfterCycle(n, a, minted), id)
  {
    assert AfterCycle(n, a, minted).journal == n.journal;
  }

  lemma {:induction false} CycleNode(w: World, k: nat, a: Answer, minted: string, hid: nat, now: int)
    requires Enabled(w, Cycle(k, a, minted, hid, now))
    ensures var n := CycleStep(w, k, a, minted, hid, now).nodes[k];
            n == AfterCycle(w.nodes[k], a, minted)
            || n == AfterCycle(w.nodes[k], a, minted).(
                      proc := Some(Receiver(AfterCycle(w.nodes[k], a, minted).proc.value.l.(call := hid))))
  {
  }

  lemma {:induction false} StrandedIgnoresCall(n: Node, id: string, hid: nat)
    requires Stranded(n, id) && n.proc.Some? && n.proc.value.Receiver?
    ensures Stranded(n.(proc := Some(Receiver(n.proc.value.l.(call := hid)))), id)
  {
  }

  lemma {:induction false} StrandedStep(w: World, k: nat, a: Answer, minted: string, hid: nat, now: int, id: string)
    requires Inv(w) && Enabled(w, Cycle(k, a, minted, hid, now)) && Stranded(w.nodes[k], id)
    ensures Stranded(CycleStep(w, k, a, minted, hid, now).nodes[k], id)
  {
    var n := w.nodes[k];
    assert NodeOk(FactsOf(w), k, n);
    FindIsMember(n.journal.pending, id);
    assert EntryOk(FactsOf(w), k, Find(n.journal.pending, id).value);
    StrandedCycle(FactsOf(w), k, n, a, minted, id);
    StrandedIgnoresCall(AfterCycle(n, a, minted), id, hid);
    CycleNode(w, k, a, minted, hid, now);
  }

  lemma {:induction false} StrandedNext(w: World, ev: Event, k: nat, id: string)
    requires Inv(w) && Enabled(w, ev) && k in w.nodes && Stranded(w.nodes[k], id)
    ensures k in Apply(w, ev).nodes && Stranded(Apply(w, ev).nodes[k], id)
  {
    if ev.Cycle? && ev.node == k {
      StrandedStep(w, k, ev.answer, ev.minted, ev.hid, ev.now, id);
    } else {
      OtherEvent(w, ev, k);
      StrandedStays(w.nodes[k], Apply(w, ev).nodes[k], id);
    }
  }

  /** Only its own cycle writes a journal's entries or moves a cycle on; other events leave it, end it or start one. */
  ghost predicate LeftAlone(n: Node, m: Node) {
    && m.journal.pending == n.journal.pending
    && (m.proc == n.proc || m.proc.None? || !m.proc.value.Receiver? || m.proc.value.l == START)
  }

  lemma {:induction false} OtherEvent(w: World, ev: Event, k: nat)
    requires Enabled(w, ev) && k in w.nodes && !(ev.Cycle? && ev.node == k)
    ensures k in Apply(w, ev).nodes && LeftAlone(w.nodes[k], Apply(w, ev).nodes[k])
  {
  }

  lemma {:induction false} StrandedStays(n: Node, m: Node, id: string)
    requires Stranded(n, id) && LeftAlone(n, m)
    ensures Stranded(m, id)
  {
  }

  /** If the process dies with the entry durably `dispatching`, every later receipt for it says `uncertain`. */
  lemma {:induction false} CrashSurfacesAsUncertain(ws: seq<World>, evs: seq<Event>, i: nat, j: nat, k: nat, id: string)
    requires IsRun(ws, evs) && Initial(ws[0]) && i <= j < |ws| && k in ws[i].nodes
    requires Find(ws[i].nodes[k].journal.pending, id).Some?
    requires Find(ws[i].nodes[k].journal.pending, id).value.phase == Submitting
    requires ws[i].nodes[k].proc == None
    ensures k in ws[j].nodes && Stranded(ws[j].nodes[k], id)
    ensures Recovering(ws[j].nodes[k], id) ==> ws[j].nodes[k].proc.value.l.e.receipt.state == Uncertain
  {
    if i < j {
      CrashSurfacesAsUncertain(ws, evs, i, j - 1, k, id);
      Reachable(ws, evs, j - 1);
      StrandedNext(ws[j - 1], evs[j - 1], k, id);
    }
  }

  // ---- revocation ----

  ghost predicate Revoked(n: Node, thread: string) {
    && thread in n.journal.enrolled && !n.journal.enrolled[thread]
    && !(n.proc.Some? && n.proc.value.Registrar? && n.proc.value.thread == thread && n.proc.value.enabled)
  }

  /** An operator starts registering the thread as enabled on this host. */
  predicate Reinstates(ev: Event, k: nat, thread: string) {
    ev.Open? && ev.node == k && ev.proc.Registrar? && ev.proc.thread == thread && ev.proc.enabled
  }

  lemma {:induction false} RevokedNext(w: World, ev: Event, k: nat, thread: string)
    requires Inv(w) && Enabled(w, ev) && k in w.nodes && Revoked(w.nodes[k], thread) && !Reinstates(ev, k, thread)
    ensures k in Apply(w, ev).nodes && Revoked(Apply(w, ev).nodes[k], thread)
  {
    assert NodeOk(FactsOf(w), k, w.nodes[k]);
  }

  lemma {:induction false} RevokedNeverSubmits(w: World, ev: Event, k: nat, thread: string)
    requires Inv(w) && Enabled(w, ev) && k in w.nodes && Revoked(w.nodes[k], thread)
    ensures |w.log| <= |Apply(w, ev).log|
    ensures forall i :: |w.log| <= i < |Apply(w, ev).log| ==>
            Apply(w, ev).log[i].node != k || Apply(w, ev).log[i].thread != thread
  {
    assert NodeOk(FactsOf(w), k, w.nodes[k]);
  }

  /** Once local enrolment is disabled, no receiving cycle submits to the thread and no automatic enrolment
      re-enables it, until an operator registers it again. */
  lemma {:induction false} DurableRevocation(ws: seq<World>, evs: seq<Event>, i: nat, j: nat, k: nat, thread: string)
    requires IsRun(ws, evs) && Initial(ws[0]) && i <= j < |ws| && k in ws[i].nodes && Revoked(ws[i].nodes[k], thread)
    requires forall n :: i <= n < j ==> !Reinstates(evs[n], k, thread)
    ensures k in ws[j].nodes && Revoked(ws[j].nodes[k], thread)
    ensures |ws[i].log| <= |ws[j].log|
    ensures forall n :: |ws[i].log| <= n < |ws[j].log| ==> ws[j].log[n].node != k || ws[j].log[n].thread != thread
  {
    if i < j {
      DurableRevocation(ws, evs, i, j - 1, k, thread);
      Reachable(ws, evs, j - 1);
      RevokedNext(ws[j - 1], evs[j - 1], k, thread);
      RevokedNeverSubmits(ws[j - 1], evs[j - 1], k, thread);
      LogOnlyGrows(ws[j - 1], evs[j - 1]);
    }
  }

  lemma {:induction false} LogOnlyGrows(w: World, ev: Event)
    requires Enabled(w, ev)
    ensures |w.log| <= |Apply(w, ev).log| && forall i :: 0 <= i < |w.log| ==> Apply(w, ev).log[i] == w.log[i]
  {
  }
}
