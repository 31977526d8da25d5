/** What a crash in mid-submission can look like to the coordinator: never as `submitted`. */
module RelayCrash {
  import opened Basics
  import opened RelayTables
  import opened RelayHandlers
  import opened RelayRunner
  import opened RelayWorld
  import opened RelaySafety
  import opened RelayReach
  import opened RelayPromises

  // ---- entries that may have been submitted hold a lease on their message ----

  /** The entry's attempt holds a lifetime of its message's row. */
  ghost predicate HoldsLife(f: Facts, e: Entry, life: nat) {
    && e.message.Some? && life in f.leases && f.leases[life].1 == e.id && life < |f.born|
    && f.born[life].id == e.message.value.id
  }

  ghost predicate EntryLeased(f: Facts, e: Entry) {
    && (e.phase in {Claiming, Leased} ==> e.receipt.state != Submitted)
    && (e.receipt.state == Submitted ==> e.message.Some? && e.receipt.message == e.message.value.id)
    && (e.phase == Submitting || e.receipt.state == Submitted ==> exists life: nat :: HoldsLife(f, e, life))
  }

  ghost predicate NodeLeased(f: Facts, n: Node) {
    && (forall e :: e in n.journal.pending ==> EntryLeased(f, e))
    && (n.proc.Some? && n.proc.value.Receiver? && HasEntry(n.proc.value.l.pc) ==> EntryLeased(f, n.proc.value.l.e))
  }

  lemma {:induction false} LeasedGrows(f: Facts, g: Facts, e: Entry)
    requires Extends(f, g) && EntryLeased(f, e)
    ensures EntryLeased(g, e)
  {
    if life: nat :| HoldsLife(f, e, life) {
      assert HoldsLife(g, e, life);
    }
  }

  lemma {:induction false} SameLease(f: Facts, e: Entry, d: Entry)
    requires EntryLeased(f, e) && d.id == e.id && d.message == e.message && d.receipt == e.receipt
    requires d.phase in {Reporting, Done}
    ensures EntryLeased(f, d)
  {
    if life: nat :| HoldsLife(f, e, life) {
      assert HoldsLife(f, d, life);
    }
  }

  lemma {:induction false} SubmittedIsLeased(f: Facts, k: nat, n: Node, a: Answer)
    requires NodeOk(f, k, n) && n.proc.Some? && n.proc.value.Receiver? && n.proc.value.l.pc in {CheckAllowed, DoSubmit}
    ensures n.proc.value.l.pc == CheckAllowed ==> EntryLeased(f, AllowedStep(n.proc.value.l, n.journal, a).e)
    ensures n.proc.value.l.pc == DoSubmit ==>
              EntryLeased(f, SubmitAnswer(n.proc.value.l, if a.Returned? then a.submission else None).e)
  {
    var l := n.proc.value.l;
    assert Holds(f, n.host, l);
    assert HoldsLife(f, AllowedStep(l, n.journal, a).e, l.life);
    assert HoldsLife(f, SubmitAnswer(l, if a.Returned? then a.submission else None).e, l.life);
  }

  lemma {:induction false} BeginIsLeased(f: Facts, k: nat, n: Node, a: Answer, minted: string)
    requires NodeOk(f, k, n) && NodeLeased(f, n) && n.proc.Some? && n.proc.value.Receiver? && n.proc.value.l.pc == Begin
    ensures HasEntry(BeginStep(n.proc.value.l, n.journal.pending, a, minted).pc) ==>
              EntryLeased(f, BeginStep(n.proc.value.l, n.journal.pending, a, minted).e)
  {
    NextIsFirstOpen(n.journal.pending);
  }

  /** Where the entry goes next, without the journal. */
  lemma {:induction false} LocalStaysLeased(f: Facts, k: nat, n: Node, a: Answer, minted: string)
    requires NodeOk(f, k, n) && NodeLeased(f, n) && n.proc.Some? && n.proc.value.Receiver?
    ensures HasEntry(Advance(n.host, n.proc.value.l, n.journal, a, minted).pc) ==>
              EntryLeased(f, Advance(n.host, n.proc.value.l, n.journal, a, minted).e)
  {
    var l := n.proc.value.l;
    match l.pc
    case Begin => BeginIsLeased(f, k, n, a, minted);
    case CheckAllowed => SubmittedIsLeased(f, k, n, a);
    case DoSubmit => SubmittedIsLeased(f, k, n, a);
    case AwaitReport => SameLease(f, l.e, l.e.(phase := Done));
    case _ =>
  }

  lemma {:induction false} CycleStaysLeased(f: Facts, k: nat, n: Node, a: Answer, minted: string)
    requires NodeOk(f, k, n) && NodeLeased(f, n) && n.proc.Some? && n.proc.value.Receiver?
    ensures NodeLeased(f, AfterCycle(n, a, minted))
  {
    LocalStaysLeased(f, k, n, a, minted);
    if IsSave(n.proc.value.l.pc) { SaveMembers(n.journal.pending, n.proc.value.l.e); }
  }

  ghost predicate AllLeased(w: World) {
    forall k :: k in w.nodes ==> NodeLeased(FactsOf(w), w.nodes[k])
  }

  lemma {:induction false} NodeLeasedGrows(f: Facts, g: Facts, n: Node)
    requires Extends(f, g) && NodeLeased(f, n)
    ensures NodeLeased(g, n)
  {
    forall e | e in n.journal.pending ensures EntryLeased(g, e) { LeasedGrows(f, g, e); }
    if n.proc.Some? && n.proc.value.Receiver? && HasEntry(n.proc.value.l.pc) { LeasedGrows(f, g, n.proc.value.l.e); }
  }

  lemma {:induction false} FactsExtend(w: World, ev: Event)
    requires Inv(w) && Enabled(w, ev)
    ensures Extends(FactsOf(w), FactsOf(Apply(w, ev)))
  {
    TablesAdvance(w, ev);
    LogOnlyGrows(w, ev);
    if ev.Cycle? { OwnerGrows(w, ev.node, ev.answer, ev.minted, ev.hid, ev.now); }
  }

  lemma {:induction false} OwnerGrows(w: World, k: nat, a: Answer, minted: string, hid: nat, now: int)
    requires Enabled(w, Cycle(k, a, minted, hid, now))
    ensures forall x :: x in w.owner ==>
            x in CycleStep(w, k, a, minted, hid, now).owner
              && CycleStep(w, k, a, minted, hid, now).owner[x] == w.owner[x]
  {
  }

  lemma {:induction false} CallIsIrrelevant(f: Facts, n: Node, hid: nat)
    requires NodeLeased(f, n) && n.proc.Some? && n.proc.value.Receiver?
    ensures NodeLeased(f, n.(proc := Some(Receiver(n.proc.value.l.(call := hid)))))
  {
  }

  lemma {:induction false} CycledNodeLeased(w: World, k: nat, a: Answer, minted: string, hid: nat, now: int)
    requires Inv(w) && AllLeased(w) && Enabled(w, Cycle(k, a, minted, hid, now))
    ensures NodeLeased(FactsOf(w), CycleStep(w, k, a, minted, hid, now).nodes[k])
  {
    assert NodeOk(FactsOf(w), k, w.nodes[k]);
    CycleStaysLeased(FactsOf(w), k, w.nodes[k], a, minted);
    CycleNode(w, k, a, minted, hid, now);
    CallIsIrrelevant(FactsOf(w), AfterCycle(w.nodes[k], a, minted), hid);
  }

  lemma {:induction false} NextLeased(w: World, ev: Event, k: nat)
    requires Inv(w) && AllLeased(w) && Enabled(w, ev) && k in Apply(w, ev).nodes
    ensures NodeLeased(FactsOf(w), Apply(w, ev).nodes[k])
  {
    if ev.Cycle? && ev.node == k {
      CycledNodeLeased(w, k, ev.answer, ev.minted, ev.hid, ev.now);
    } else {
      assert k in w.nodes && NodeLeased(FactsOf(w), w.nodes[k]);
      OtherEvent(w, ev, k);
      LeasedStays(FactsOf(w), w.nodes[k], Apply(w, ev).nodes[k]);
    }
  }

  lemma {:induction false} LeasedStays(f: Facts, n: Node, m: Node)
    requires NodeLeased(f, n) && LeftAlone(n, m)
    ensures NodeLeased(f, m)
  {
  }

  lemma {:induction false} NextAllLeased(w: World, ev: Event)
    requires Inv(w) && AllLeased(w) && Enabled(w, ev)
    ensures AllLeased(Apply(w, ev))
  {
    FactsExtend(w, ev);
    forall k | k in Apply(w, ev).nodes ensures NodeLeased(FactsOf(Apply(w, ev)), Apply(w, ev).nodes[k]) {
      NextLeased(w, ev, k);
      NodeLeasedGrows(FactsOf(w), FactsOf(Apply(w, ev)), Apply(w, ev).nodes[k]);
    }
  }

  // ---- a report of success rests on a durable receipt ----

  /** The journal keeps this receipt for good. */
  ghost predicate Kept(n: Node, id: string, message: string, submission: string) {
    var e := Find(n.journal.pending, id);
    && e.Some? && e.value.phase in {Reporting, Done} && e.value.receipt.state == Submitted
    && e.value.receipt.message == message && e.value.receipt.submission == submission
    && (n.proc.Some? && n.proc.value.Receiver? && n.proc.value.l.pc == SaveDone && n.proc.value.l.e.id == id ==>
          n.proc.value.l.e.receipt == e.value.receipt)
  }

  ghost predicate Durable(w: World, message: string, submission: string) {
    exists k, id :: k in w.nodes && Kept(w.nodes[k], id, message, submission)
  }

  /** A cycle that saves over a kept receipt is closing that very entry. */
  lemma {:induction false} OnlyCloses(f: Facts, k: nat, n: Node, id: string, message: string, submission: string)
    requires NodeOk(f, k, n) && n.proc.Some? && n.proc.value.Receiver? && IsSave(n.proc.value.l.pc)
    requires Kept(n, id, message, submission)
    requires n.proc.value.l.e.id == id
    ensures n.proc.value.l.pc == SaveDone && n.proc.value.l.e.phase == Done
  {
    assert EntryHeld(f, k, n.host, n.journal, n.proc.value.l);
  }

  lemma {:induction false} SaveMoves(n: Node, a: Answer, minted: string)
    requires n.proc.Some? && n.proc.value.Receiver? && IsSave(n.proc.value.l.pc)
    ensures AfterCycle(n, a, minted).proc.value.l.pc != SaveDone
    ensures var p := AfterCycle(n, a, minted).journal.pending;
            p == n.journal.pending || p == Save(n.journal.pending, n.proc.value.l.e)
  {
  }

  lemma {:induction false} KeptSave(f: Facts, k: nat, n: Node, a: Answer, minted: string, id: string, message: string,
          submission: string)
    requires NodeOk(f, k, n) && n.proc.Some? && n.proc.value.Receiver? && IsSave(n.proc.value.l.pc)
    requires Kept(n, id, message, submission)
    ensures Kept(AfterCycle(n, a, minted), id, message, submission)
  {
    SaveFind(n.journal.pending, n.proc.value.l.e, id);
    SaveMoves(n, a, minted);
    if n.proc.value.l.e.id == id { OnlyCloses(f, k, n, id, message, submission); }
  }

  lemma {:induction false} KeptCycle(f: Facts, k: nat, n: Node, a: Answer, minted: string, id: string, message: string,
          submission: string)
    requires NodeOk(f, k, n) && n.proc.Some? && n.proc.value.Receiver? && Kept(n, id, message, submission)
    ensures Kept(AfterCycle(n, a, minted), id, message, submission)
  {
    if IsSave(n.proc.value.l.pc) {
      KeptSave(f, k, n, a, minted, id, message, submission);
    } else {
      assert AfterCycle(n, a, minted).journal == n.journal;
      if n.proc.value.l.pc != AwaitReport { NotSaveDone(n, a, minted); }
    }
  }

  lemma {:induction false} NotSaveDone(n: Node, a: Answer, minted: string)
    requires n.proc.Some? && n.proc.value.Receiver? && n.proc.value.l.pc != AwaitReport && !IsSave(n.proc.value.l.pc)
    ensures AfterCycle(n, a, minted).proc.value.l.pc != SaveDone
  {
  }

  lemma {:induction false} KeptIgnoresCall(n: Node, hid: nat, id: string, message: string, submission: string)
    requires Kept(n, id, message, submission) && n.proc.Some? && n.proc.value.Receiver?
    ensures Kept(n.(proc := Some(Receiver(n.proc.value.l.(call := hid)))), id, message, submission)
  {
  }

  lemma {:induction false} KeptStep(w: World, k: nat, a: Answer, minted: string, hid: nat, now: int, id: string,
          message: string, submission: string)
    requires Inv(w) && Enabled(w, Cycle(k, a, minted, hid, now)) && Kept(w.nodes[k], id, message, submission)
    ensures Kept(CycleStep(w, k, a, minted, hid, now).nodes[k], id, message, submission)
  {
    assert NodeOk(FactsOf(w), k, w.nodes[k]);
    KeptCycle(FactsOf(w), k, w.nodes[k], a, minted, id, message, submission);
    KeptIgnoresCall(AfterCycle(w.nodes[k], a, minted), hid, id, message, submission);
    CycleNode(w, k, a, minted, hid, now);
  }

  lemma {:induction false} KeptNext(w: World, ev: Event, k: nat, id: string, message: string, submission: string)
    requires Inv(w) && Enabled(w, ev) && k in w.nodes && Kept(w.nodes[k], id, message, submission)
    ensures k in Apply(w, ev).nodes && Kept(Apply(w, ev).nodes[k], id, message, submission)
  {
    if ev.Cycle? && ev.node == k {
      KeptStep(w, k, ev.answer, ev.minted, ev.hid, ev.now, id, message, submission);
    } else {
      OtherEvent(w, ev, k);
      KeptStays(w.nodes[k], Apply(w, ev).nodes[k], id, message, submission);
    }
  }

  lemma {:induction false} KeptStays(n: Node, m: Node, id: string, message: string, submission: string)
    requires Kept(n, id, message, submission) && LeftAlone(n, m)
    ensures Kept(m, id, message, submission)
  {
  }

  lemma {:induction false} DurableNext(w: World, ev: Event, message: string, submission: string)
    requires Inv(w) && Enabled(w, ev) && Durable(w, message, submission)
    ensures Durable(Apply(w, ev), message, submission)
  {
    var k, id :| k in w.nodes && Kept(w.nodes[k], id, message, submission);
    KeptNext(w, ev, k, id, message, submission);
  }

  /** Another client's claims aside, every report of success in flight is backed by a journal. */
  ghost predicate CallBacked(w: World, c: Call) {
    (c.Report? && c.receipt.state == Submitted && (c.host, c.receipt.message) !in w.forged) ==>
      Durable(w, c.receipt.message, c.receipt.submission)
  }

  ghost predicate RowBacked(w: World, id: string)
    requires id in w.t.messages
  {
    (w.t.messages[id].state == Submitted && (w.t.messages[id].target, id) !in w.forged) ==>
      Durable(w, id, w.t.messages[id].submission)
  }

  ghost predicate Backed(w: World) {
    && (forall h :: h in w.handlers ==> CallBacked(w, w.handlers[h].0))
    && (forall id :: id in w.t.messages ==> RowBacked(w, id))
  }

  /** A cycle reports only what its journal already holds. */
  lemma {:induction false} RequestBacked(w: World, k: nat, a: Answer, minted: string, hid: nat, now: int)
    requires Inv(w) && Enabled(w, Cycle(k, a, minted, hid, now))
    requires Request(w.nodes[k].host, w.nodes[k].proc.value.l, now).Some?
    ensures CallBacked(w, Request(w.nodes[k].host, w.nodes[k].proc.value.l, now).value)
  {
    var n := w.nodes[k];
    assert NodeOk(FactsOf(w), k, n);
    var l := n.proc.value.l;
    if l.pc == CallReport && l.e.receipt.state == Submitted {
      assert Kept(n, l.e.id, l.e.receipt.message, l.e.receipt.submission);
    }
  }

  lemma {:induction false} HandlersBacked(w: World, ev: Event, h: nat)
    requires Inv(w) && Backed(w) && Enabled(w, ev) && h in Apply(w, ev).handlers
    ensures CallBacked(Apply(w, ev), Apply(w, ev).handlers[h].0)
  {
    var c := Apply(w, ev).handlers[h].0;
    if h in w.handlers && w.handlers[h].0 == c {
      assert CallBacked(w, c);
    } else if ev.Cycle? {
      RequestBacked(w, ev.node, ev.answer, ev.minted, ev.hid, ev.now);
    }
    if c.Report? && c.receipt.state == Submitted && (c.host, c.receipt.message) !in Apply(w, ev).forged {
      DurableNext(w, ev, c.receipt.message, c.receipt.submission);
    }
  }

  /** A row becomes `submitted` only by a report in flight. */
  lemma {:induction false} BatchRowFrom(t: Tables, q: Quota, c: Call, id: string)
    requires StageOk(c, Committing) && id in Batch(t, q, c).messages && Batch(t, q, c).messages[id].state == Submitted
    ensures var row := Batch(t, q, c).messages[id];
            (id in t.messages && t.messages[id] == row)
            || (c.Report? && c.host == row.target && c.receipt.state == Submitted && c.receipt.message == id
                 && c.receipt.submission == row.submission)
  {
    var row := Batch(t, q, c).messages[id];
    if !(id in t.messages && row == t.messages[id]) && c.Report? {
      assert row == Reported(t.messages[id], c.receipt, c.now) && id == c.receipt.message;
    }
  }

  lemma {:induction false} RowComesFrom(w: World, hid: nat, id: string)
    requires Inv(w) && Enabled(w, Handle(hid)) && id in Apply(w, Handle(hid)).t.messages
    requires Apply(w, Handle(hid)).t.messages[id].state == Submitted
    ensures var row, c := Apply(w, Handle(hid)).t.messages[id], w.handlers[hid].0;
            (id in w.t.messages && w.t.messages[id] == row)
            || (c.Report? && c.host == row.target && c.receipt.state == Submitted && c.receipt.message == id
                 && c.receipt.submission == row.submission)
  {
    var (c, s) := w.handlers[hid];
    assert HandlerOk(FactsOf(w), w.forged, w.handlers[hid]);
    StepWritesOnlyItsBatch(w.t, w.q, c, s);
    if s == Committing { BatchRowFrom(w.t, w.q, c, id); }
  }

  lemma {:induction false} RowsBacked(w: World, ev: Event, id: string)
    requires Inv(w) && Backed(w) && Enabled(w, ev) && id in Apply(w, ev).t.messages
    ensures RowBacked(Apply(w, ev), id)
  {
    var row := Apply(w, ev).t.messages[id];
    if row.state == Submitted && (row.target, id) !in Apply(w, ev).forged {
      RowWasBacked(w, ev, id);
      DurableNext(w, ev, id, row.submission);
    }
  }

  lemma {:induction false} RowWasBacked(w: World, ev: Event, id: string)
    requires Inv(w) && Backed(w) && Enabled(w, ev) && id in Apply(w, ev).t.messages
    requires Apply(w, ev).t.messages[id].state == Submitted
    requires (Apply(w, ev).t.messages[id].target, id) !in Apply(w, ev).forged
    ensures Durable(w, id, Apply(w, ev).t.messages[id].submission)
  {
    var row := Apply(w, ev).t.messages[id];
    if ev.Handle? { RowComesFrom(w, ev.hid, id); }
    if id in w.t.messages && w.t.messages[id] == row {
      assert RowBacked(w, id);
    } else {
      assert CallBacked(w, w.handlers[ev.hid].0);
    }
  }

  lemma {:induction false} NextBacked(w: World, ev: Event)
    requires Inv(w) && Backed(w) && Enabled(w, ev)
    ensures Backed(Apply(w, ev))
  {
    var u := Apply(w, ev);
    forall h | h in u.handlers ensures CallBacked(u, u.handlers[h].0) { HandlersBacked(w, ev, h); }
    forall id | id in u.t.messages ensures RowBacked(u, id) { RowsBacked(w, ev, id); }
  }

  lemma {:induction false} CrashInv(ws: seq<World>, evs: seq<Event>, n: nat)
    requires IsRun(ws, evs) && Initial(ws[0]) && n < |ws|
    ensures Inv(ws[n]) && AllLeased(ws[n]) && Backed(ws[n])
  {
    Reachable(ws, evs, n);
    if n > 0 {
      CrashInv(ws, evs, n - 1);
      var w, ev := ws[n - 1], evs[n - 1];
      NextAllLeased(w, ev);
      NextBacked(w, ev);
    }
  }

  // ---- the crash ----

  lemma {:induction false} ExtendsTransitive(f: Facts, g: Facts, h: Facts)
    requires Extends(f, g) && Extends(g, h)
    ensures Extends(f, h)
  {
  }

  lemma {:induction false} FactsExtendAt(ws: seq<World>, evs: seq<Event>, j: nat)
    requires IsRun(ws, evs) && Initial(ws[0]) && j + 1 < |ws|
    ensures Extends(FactsOf(ws[j]), FactsOf(ws[j + 1]))
  {
    Reachable(ws, evs, j);
    FactsExtend(ws[j], evs[j]);
  }

  lemma {:induction false} FactsExtendAlong(ws: seq<World>, evs: seq<Event>, i: nat, j: nat)
    requires IsRun(ws, evs) && Initial(ws[0]) && i <= j < |ws|
    ensures Extends(FactsOf(ws[i]), FactsOf(ws[j]))
  {
    if i == j {
      ExtendsReflexive(FactsOf(ws[i]));
    } else {
      FactsExtendAlong(ws, evs, i, j - 1);
      FactsExtendAt(ws, evs, j - 1);
      ExtendsTransitive(FactsOf(ws[i]), FactsOf(ws[j - 1]), FactsOf(ws[j]));
    }
  }

  /** Two entries that hold lifetimes of one message that was never sent again are the same entry. */
  lemma {:induction false} OneEntry(w: World, a: Entry, b: Entry, x: nat, y: nat)
    requires HoldsLife(FactsOf(w), a, x) && HoldsLife(FactsOf(w), b, y) && a.message.value.id == b.message.value.id
    requires !Resent(w, a.message.value.id)
    ensures a.id == b.id
  {
    OneLife(w, a.message.value.id, x, y);
  }

  /** If the process dies with the entry durably `dispatching`, its message never becomes `submitted` at the coordinator
      - unless another client of the destination host reports it as submitted or the sender reuses the ID. */
  lemma {:induction false} CrashIsNeverSubmitted(ws: seq<World>, evs: seq<Event>, i: nat, j: nat, k: nat, id: string)
    requires IsRun(ws, evs) && Initial(ws[0]) && i <= j < |ws| && k in ws[i].nodes && ws[i].nodes[k].proc == None
    requires Find(ws[i].nodes[k].journal.pending, id).Some?
    requires var e := Find(ws[i].nodes[k].journal.pending, id).value;
             && e.phase == Submitting && e.message.Some? && e.message.value.id in ws[j].t.messages
             && (ws[j].t.messages[e.message.value.id].target, e.message.value.id) !in ws[j].forged
             && !Resent(ws[j], e.message.value.id)
    ensures ws[j].t.messages[Find(ws[i].nodes[k].journal.pending, id).value.message.value.id].state != Submitted
  {
    var e := Find(ws[i].nodes[k].journal.pending, id).value;
    var m := e.message.value.id;
    CrashInv(ws, evs, i);
    CrashInv(ws, evs, j);
    FindIsMember(ws[i].nodes[k].journal.pending, id);
    assert NodeLeased(FactsOf(ws[i]), ws[i].nodes[k]) && EntryLeased(FactsOf(ws[i]), e);
    var x: nat :| HoldsLife(FactsOf(ws[i]), e, x);
    FactsExtendAlong(ws, evs, i, j);
    assert HoldsLife(FactsOf(ws[j]), e, x);
    CrashSurfacesAsUncertain(ws, evs, i, j, k, id);
    assert NodeOk(FactsOf(ws[i]), k, ws[i].nodes[k]) && EntryOk(FactsOf(ws[i]), k, e);
    assert RowBacked(ws[j], m);
    NotDurable(ws[j], k, e, x, ws[j].t.messages[m].submission);
  }

  lemma {:induction false} NotDurable(w: World, k: nat, e: Entry, x: nat, submission: string)
    requires Inv(w) && AllLeased(w) && k in w.nodes && Stranded(w.nodes[k], e.id) && HoldsLife(FactsOf(w), e, x)
    requires e.id in w.owner && w.owner[e.id] == k && !Resent(w, e.message.value.id)
    ensures !Durable(w, e.message.value.id, submission)
  {
    forall k2, id2 | k2 in w.nodes && Kept(w.nodes[k2], id2, e.message.value.id, submission)
      ensures k2 == k && id2 == e.id
    {
      KeptEntryIs(w, k2, id2, e, x, submission);
    }
  }

  lemma {:induction false} KeptEntryIs(w: World, k2: nat, id2: string, e: Entry, x: nat, submission: string)
    requires Inv(w) && AllLeased(w) && HoldsLife(FactsOf(w), e, x) && !Resent(w, e.message.value.id) && e.id in w.owner
    requires k2 in w.nodes && Kept(w.nodes[k2], id2, e.message.value.id, submission)
    ensures id2 == e.id && k2 == w.owner[e.id]
  {
    var p := w.nodes[k2].journal.pending;
    var e2 := Find(p, id2).value;
    FindIsMember(p, id2);
    assert NodeOk(FactsOf(w), k2, w.nodes[k2]) && EntryOk(FactsOf(w), k2, e2);
    assert NodeLeased(FactsOf(w), w.nodes[k2]) && EntryLeased(FactsOf(w), e2);
    var y: nat :| HoldsLife(FactsOf(w), e2, y);
    OneEntry(w, e, e2, x, y);
  }
}
