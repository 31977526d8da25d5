/** The invariant holds in every reachable world; the relay's promises follow from it. */
module RelayReach {
  import opened Basics
  import opened RelayTables
  import opened RelayLease
  import opened RelayReceipts
  import opened RelayHandlers
  import opened RelayRunner
  import opened RelayWorld
  import opened RelaySafety
  import opened RelayCycle

  // ---- the coordinator's side ----

  lemma {:induction false} SeenInTables(f: Facts, t: Tables, id: string)
    requires LeaseInv(t) && id in t.messages && f.born == t.born && f.leases == t.leases
    ensures Seen(f, View(id, t.messages[id]))
  {
    assert RowBorn(t, id) && RowLeased(t, id);
  }

  lemma {:induction false} ResponseFromTables(f: Facts, t: Tables, q: Quota, c: Call, s: Stage)
    requires LeaseInv(t) && f.born == t.born && f.leases == t.leases
    requires !s.Answered? && Step(t, q, c, s).1.Answered?
    ensures ResponseOk(f, Step(t, q, c, s).1.response)
  {
    var r := Step(t, q, c, s).1.response;
    if r.Shown? { SeenInTables(f, t, r.view.id); }
    if r.Delivered? && r.message.Some? { SeenInTables(f, t, r.message.value.id); }
  }

  /** A row becomes `submitted` only through a validated report, and then carries its submission ID. */
  lemma {:induction false} BatchRowVouched(f: Facts, forged: set<(string, string)>, t: Tables, q: Quota, c: Call,
          id: string)
    requires forall x :: x in t.messages ==> RowVouched(f, forged, x, t.messages[x])
    requires CallOk(f, forged, c) && StageOk(c, Committing) && id in Batch(t, q, c).messages
    ensures RowVouched(f, forged, id, Batch(t, q, c).messages[id])
  {
    var row := Batch(t, q, c).messages[id];
    if id in t.messages && row == t.messages[id] {
      assert RowVouched(f, forged, id, t.messages[id]);
    } else if c.Report? {
      assert row == Reported(t.messages[id], c.receipt, c.now) && id == c.receipt.message;
    }
  }

  lemma {:induction false} FactsGrow(w: World, u: World)
    requires Grows(w.t, u.t) && u.log == w.log && u.owner == w.owner
    ensures Extends(FactsOf(w), FactsOf(u))
  {
  }

  lemma {:induction false} OthersGrow(w: World, u: World, k: nat)
    requires Extends(FactsOf(w), FactsOf(u)) && QuietFor(FactsOf(w), FactsOf(u), k)
    requires k in w.nodes && NodeOk(FactsOf(w), k, w.nodes[k])
    ensures NodeOk(FactsOf(u), k, w.nodes[k])
  {
    NodeGrows(FactsOf(w), FactsOf(u), k, w.nodes[k]);
  }

  lemma {:induction false} HandleKeepsInv(w: World, hid: nat)
    requires Inv(w) && Enabled(w, Handle(hid))
    ensures Inv(Apply(w, Handle(hid)))
  {
    var u := Apply(w, Handle(hid));
    var (c, s) := w.handlers[hid];
    var f, g := FactsOf(w), FactsOf(u);
    assert HandlerOk(f, w.forged, w.handlers[hid]);
    StepKeepsInv(w.t, w.q, c, s);
    FactsGrow(w, u);
    forall h | h in u.handlers ensures HandlerOk(g, u.forged, u.handlers[h]) {
      HandlerGrows(f, g, w.forged, u.forged, w.handlers[h]);
      if h == hid { HandledOk(w, hid); }
    }
    forall id | id in u.t.messages ensures RowVouched(g, u.forged, id, u.t.messages[id]) {
      HandledRow(w, hid, id);
    }
    forall k | k in u.nodes ensures NodeOk(g, k, u.nodes[k]) { OthersGrow(w, u, k); }
    LogGrows(f, g);
  }

  lemma {:induction false} HandledOk(w: World, hid: nat)
    requires Inv(w) && Enabled(w, Handle(hid))
    ensures HandlerOk(FactsOf(Apply(w, Handle(hid))), w.forged, Apply(w, Handle(hid)).handlers[hid])
  {
    var u := Apply(w, Handle(hid));
    var (c, s) := w.handlers[hid];
    assert HandlerOk(FactsOf(w), w.forged, w.handlers[hid]);
    StepKeepsInv(w.t, w.q, c, s);
    StepWritesOnlyItsBatch(w.t, w.q, c, s);
    FactsGrow(w, u);
    HandlerGrows(FactsOf(w), FactsOf(u), w.forged, w.forged, (c, s));
    if Step(w.t, w.q, c, s).1.Answered? && !s.Answered? {
      AnswersWriteNothing(w.t, w.q, c, s);
      ResponseFromTables(FactsOf(u), u.t, w.q, c, s);
    } else if s.Answered? {
      AnsweredStays(w.t, w.q, c, s);
    }
  }

  lemma {:induction false} AnswersWriteNothing(t: Tables, q: Quota, c: Call, s: Stage)
    requires Step(t, q, c, s).1.Answered?
    ensures Step(t, q, c, s).0 == t
  {
  }

  lemma {:induction false} AnsweredStays(t: Tables, q: Quota, c: Call, s: Stage)
    requires s.Answered?
    ensures Step(t, q, c, s) == (t, s)
  {
  }

  lemma {:induction false} HandledRow(w: World, hid: nat, id: string)
    requires Inv(w) && Enabled(w, Handle(hid)) && id in Apply(w, Handle(hid)).t.messages
    ensures RowVouched(FactsOf(Apply(w, Handle(hid))), w.forged, id, Apply(w, Handle(hid)).t.messages[id])
  {
    var (c, s) := w.handlers[hid];
    assert HandlerOk(FactsOf(w), w.forged, w.handlers[hid]);
    StepWritesOnlyItsBatch(w.t, w.q, c, s);
    if s == Committing {
      BatchRowVouched(FactsOf(w), w.forged, w.t, w.q, c, id);
    } else {
      assert RowVouched(FactsOf(w), w.forged, id, w.t.messages[id]);
    }
  }

  lemma {:induction false} RetainKeepsInv(w: World, cutoff: int)
    requires Inv(w)
    ensures Inv(Apply(w, Retain(cutoff)))
  {
    var u := Apply(w, Retain(cutoff));
    CompactKeepsLease(w.t, cutoff);
    CompactKeepsReceipts(w.t, cutoff);
    assert FactsOf(u) == FactsOf(w);
    forall id | id in u.t.messages ensures RowVouched(FactsOf(u), u.forged, id, u.t.messages[id]) {
      assert RowVouched(FactsOf(w), w.forged, id, w.t.messages[id]);
    }
  }

  lemma {:induction false} ArriveKeepsInv(w: World, hid: nat, call: Call)
    requires Inv(w) && Enabled(w, Arrive(hid, call))
    ensures Inv(Apply(w, Arrive(hid, call)))
  {
    var u := Apply(w, Arrive(hid, call));
    var f := FactsOf(w);
    assert FactsOf(u) == f;
    ExtendsReflexive(f);
    forall h | h in u.handlers ensures HandlerOk(f, u.forged, u.handlers[h]) {
      if h != hid { HandlerGrows(f, f, w.forged, u.forged, w.handlers[h]); }
    }
    forall id | id in u.t.messages ensures RowVouched(f, u.forged, id, u.t.messages[id]) {
      RowVouchedGrows(f, f, w.forged, u.forged, id, w.t.messages[id]);
    }
  }

  // ---- processes starting, ending and enrolling ----

  lemma {:induction false} NodeChangeKeepsInv(w: World, k: nat, n: Node)
    requires Inv(w) && k in w.nodes && NodeOk(FactsOf(w), k, n)
    ensures Inv(w.(nodes := w.nodes[k := n]))
  {
    var u := w.(nodes := w.nodes[k := n]);
    assert FactsOf(u) == FactsOf(w);
  }

  lemma {:induction false} EnrolKeepsNode(f: Facts, k: nat, n: Node, a: Answer, found: Option<bool>)
    requires NodeOk(f, k, n) && n.proc.Some? && !n.proc.value.Receiver?
    ensures NodeOk(f, k, EnrolStep(n, a, found))
  {
  }

  // ---- the receiver's side ----

  lemma {:induction false} FitsMeansOk(w: World, l: Local, a: Answer, minted: string, hid: nat)
    requires Inv(w) && AnswerFits(w, l, a, minted, hid) && l.pc in {AwaitClaim, AwaitInspect, AwaitReport}
    ensures a.Told? ==> ResponseOk(FactsOf(w), a.response)
  {
    if a.Told? { assert HandlerOk(FactsOf(w), w.forged, w.handlers[l.call]); }
  }

  /** A report is only sent once its receipt is durable, so it is as honest as the journal. */
  lemma {:induction false} RequestOk(f: Facts, forged: set<(string, string)>, k: nat, host: string, j: Journal,
          l: Local, now: int)
    requires LocalOk(f, k, host, j, l) && Request(host, l, now).Some?
    ensures HandlerOk(f, forged, (Request(host, l, now).value, Arrived))
  {
  }

  lemma {:induction false} QuietCycle(w: World, k: nat, a: Answer, minted: string, hid: nat, now: int)
    requires Inv(w) && Enabled(w, Cycle(k, a, minted, hid, now))
    requires w.nodes[k].proc.value.l.pc !in {AskReady, DoSubmit}
    ensures Inv(CycleStep(w, k, a, minted, hid, now))
  {
    var n := w.nodes[k];
    var l := n.proc.value.l;
    var u := CycleStep(w, k, a, minted, hid, now);
    var f := FactsOf(w);
    assert FactsOf(u) == f;
    assert NodeOk(f, k, n);
    QuietNode(w, k, a, minted, hid, now);
    forall i | i in u.nodes ensures NodeOk(f, i, u.nodes[i]) {
      if i != k { assert NodeOk(f, i, w.nodes[i]); }
    }
    forall h | h in u.handlers ensures HandlerOk(f, u.forged, u.handlers[h]) {
      if h in w.handlers && u.handlers[h] == w.handlers[h] {
        assert HandlerOk(f, w.forged, w.handlers[h]);
      } else {
        RequestOk(f, u.forged, k, n.host, n.journal, l, now);
      }
    }
  }

  lemma {:induction false} QuietNode(w: World, k: nat, a: Answer, minted: string, hid: nat, now: int)
    requires Inv(w) && Enabled(w, Cycle(k, a, minted, hid, now))
    requires w.nodes[k].proc.value.l.pc !in {AskReady, DoSubmit}
    ensures NodeOk(FactsOf(w), k, CycleStep(w, k, a, minted, hid, now).nodes[k])
  {
    var n := w.nodes[k];
    var l := n.proc.value.l;
    var f := FactsOf(w);
    assert NodeOk(f, k, n);
    if l.pc in {AwaitClaim, AwaitInspect, AwaitReport} {
      FitsMeansOk(w, l, a, minted, hid);
      QuietStep(f, k, n.host, n.journal, l, a, minted);
    } else {
      IgnoresAnswerBody(n.host, l, n.journal, a, minted);
      QuietStep(f, k, n.host, n.journal, l, if a.Told? then Failed else a, minted);
    }
    LocalIgnoresCall(f, k, n.host, JournalAfter(l, n.journal, a), Advance(n.host, l, n.journal, a, minted), hid);
  }

  /** Only the awaiting points read a response. */
  lemma {:induction false} IgnoresAnswerBody(host: string, l: Local, j: Journal, a: Answer, minted: string)
    requires l.pc !in {AskReady, AwaitClaim, AwaitInspect, AwaitReport, DoSubmit}
    ensures a.Told? ==> Advance(host, l, j, a, minted) == Advance(host, l, j, Failed, minted)
    ensures a.Told? ==> JournalAfter(l, j, a) == JournalAfter(l, j, Failed)
  {
  }

  lemma {:induction false} MintShape(w: World, k: nat, a: Answer, minted: string, hid: nat, now: int)
    requires Enabled(w, Cycle(k, a, minted, hid, now)) && w.nodes[k].proc.value.l.pc == AskReady
    ensures var n := w.nodes[k];
            var l' := ReadyAnswer(n.proc.value.l, a, minted);
            CycleStep(w, k, a, minted, hid, now)
            == w.(nodes := w.nodes[k := Node(n.host, n.journal, Some(Receiver(l')))],
                  owner := if l'.pc == SaveNew then w.owner[minted := k] else w.owner)
  {
  }

  lemma {:induction false} MintNode(w: World, k: nat, a: Answer, minted: string, hid: nat, now: int)
    requires Inv(w) && Enabled(w, Cycle(k, a, minted, hid, now))
    requires w.nodes[k].proc.value.l.pc == AskReady
    ensures var u := CycleStep(w, k, a, minted, hid, now);
            NodeOk(FactsOf(u), k, u.nodes[k]) && LogOk(FactsOf(u)) && Extends(FactsOf(w), FactsOf(u)) && u.log == w.log
  {
    var n := w.nodes[k];
    var l := n.proc.value.l;
    var f := FactsOf(w);
    assert NodeOk(f, k, n);
    MintShape(w, k, a, minted, hid, now);
    if ReadyAnswer(l, a, minted).pc == SaveNew {
      var g := f.(owner := f.owner[minted := k]);
      NewEntryOk(f, k, n.host, n.journal, l, a, minted);
      PendingGrows(f, g, k, n.journal.pending);
      LogGrows(f, g);
      assert FactsOf(CycleStep(w, k, a, minted, hid, now)) == g;
    } else {
      assert FactsOf(CycleStep(w, k, a, minted, hid, now)) == f;
    }
  }

  lemma {:induction false} MintCycle(w: World, k: nat, a: Answer, minted: string, hid: nat, now: int)
    requires Inv(w) && Enabled(w, Cycle(k, a, minted, hid, now))
    requires w.nodes[k].proc.value.l.pc == AskReady
    ensures Inv(CycleStep(w, k, a, minted, hid, now))
  {
    MintShape(w, k, a, minted, hid, now);
    MintNode(w, k, a, minted, hid, now);
    GrownOk(w, CycleStep(w, k, a, minted, hid, now), k);
  }

  /** Everything but node `k` carries over to a world that grew without changing the tables. */
  lemma {:induction false} GrownOk(w: World, u: World, k: nat)
    requires Inv(w) && u.t == w.t && u.handlers == w.handlers && u.forged == w.forged
    requires Extends(FactsOf(w), FactsOf(u))
    requires (forall i :: i in w.nodes && i != k ==> QuietFor(FactsOf(w), FactsOf(u), i))
    requires u.nodes.Keys == w.nodes.Keys && (forall i :: i in w.nodes && i != k ==> u.nodes[i] == w.nodes[i])
    requires k in u.nodes && NodeOk(FactsOf(u), k, u.nodes[k]) && LogOk(FactsOf(u))
    ensures Inv(u)
  {
    var f, g := FactsOf(w), FactsOf(u);
    forall h | h in u.handlers ensures HandlerOk(g, u.forged, u.handlers[h]) {
      HandlerGrows(f, g, w.forged, u.forged, w.handlers[h]);
    }
    forall id | id in u.t.messages ensures RowVouched(g, u.forged, id, u.t.messages[id]) {
      RowVouchedGrows(f, g, w.forged, u.forged, id, w.t.messages[id]);
    }
    forall i | i in u.nodes ensures NodeOk(g, i, u.nodes[i]) {
      if i != k { OthersGrow(w, u, i); }
    }
  }

  lemma {:induction false} SubmitShape(w: World, k: nat, a: Answer, minted: string, hid: nat, now: int)
    requires Enabled(w, Cycle(k, a, minted, hid, now))
    requires w.nodes[k].proc.value.l.pc == DoSubmit && w.nodes[k].proc.value.l.e.message.Some?
    ensures var n := w.nodes[k];
            var l := n.proc.value.l;
            var m := l.e.message.value;
            CycleStep(w, k, a, minted, hid, now)
            == w.(nodes := w.nodes[k := Node(n.host, n.journal,
              Some(Receiver(SubmitAnswer(l, if a.Returned? then a.submission else None))))],
                  log := w.log + [Submission(k, l.e.id, l.life, m.id, m.row.thread, m.row.prompt, ValidSubmission(a))])
  {
  }

  lemma {:induction false} LogsOneOwn(f: Facts, s: Submission, k: nat, i: nat)
    requires s.entry in f.owner && f.owner[s.entry] == k
    ensures Extends(f, f.(log := f.log + [s]))
    ensures i != k ==> QuietFor(f, f.(log := f.log + [s]), i)
  {
  }

  lemma {:induction false} SubmitCycle(w: World, k: nat, a: Answer, minted: string, hid: nat, now: int)
    requires Inv(w) && Enabled(w, Cycle(k, a, minted, hid, now))
    requires w.nodes[k].proc.value.l.pc == DoSubmit
    ensures Inv(CycleStep(w, k, a, minted, hid, now))
  {
    var n := w.nodes[k];
    var l := n.proc.value.l;
    var f := FactsOf(w);
    assert NodeOk(f, k, n);
    var m := l.e.message.value;
    var s := Submission(k, l.e.id, l.life, m.id, m.row.thread, m.row.prompt, ValidSubmission(a));
    SubmitOk(f, k, n.host, n.journal, l, if a.Returned? then a.submission else None);
    SubmitLogOk(f, k, n.host, n.journal, l, ValidSubmission(a));
    SubmitPendingOk(f, k, n.host, n.journal, l, s);
    SubmitShape(w, k, a, minted, hid, now);
    SubmitGrown(w, k, s, Node(n.host, n.journal,
      Some(Receiver(SubmitAnswer(l, if a.Returned? then a.submission else None)))));
  }

  lemma {:induction false} SubmitGrown(w: World, k: nat, s: Submission, n: Node)
    requires Inv(w) && k in w.nodes && s.entry in w.owner && w.owner[s.entry] == k
    requires NodeOk(FactsOf(w).(log := w.log + [s]), k, n) && LogOk(FactsOf(w).(log := w.log + [s]))
    ensures Inv(w.(nodes := w.nodes[k := n], log := w.log + [s]))
  {
    var u := w.(nodes := w.nodes[k := n], log := w.log + [s]);
    assert FactsOf(u) == FactsOf(w).(log := w.log + [s]);
    forall i | i in w.nodes && i != k ensures QuietFor(FactsOf(w), FactsOf(u), i) { LogsOneOwn(FactsOf(w), s, k, i); }
    LogsOneOwn(FactsOf(w), s, k, k);
    GrownOk(w, u, k);
  }

  // ---- reachability ----

  lemma {:induction false} NextKeepsInv(w: World, ev: Event)
    requires Inv(w) && Enabled(w, ev)
    ensures Inv(Apply(w, ev))
  {
    match ev
    case Arrive(hid, call) => ArriveKeepsInv(w, hid, call);
    case Handle(hid) => HandleKeepsInv(w, hid);
    case Retain(cutoff) => RetainKeepsInv(w, cutoff);
    case Open(k, p) =>
      assert NodeOk(FactsOf(w), k, w.nodes[k]);
      NodeChangeKeepsInv(w, k, w.nodes[k].(proc := Some(p)));
    case Exit(k) =>
      assert NodeOk(FactsOf(w), k, w.nodes[k]);
      NodeChangeKeepsInv(w, k, w.nodes[k].(proc := None));
    case Enrol(k, a, found) =>
      EnrolKeepsNode(FactsOf(w), k, w.nodes[k], a, found);
      NodeChangeKeepsInv(w, k, EnrolStep(w.nodes[k], a, found));
    case Cycle(k, a, minted, hid, now) =>
      var pc := w.nodes[k].proc.value.l.pc;
      if pc == AskReady { MintCycle(w, k, a, minted, hid, now); }
      else if pc == DoSubmit { SubmitCycle(w, k, a, minted, hid, now); }
      else { QuietCycle(w, k, a, minted, hid, now); }
  }

  lemma {:induction false} InitialInv(w: World)
    requires Initial(w)
    ensures Inv(w)
  {
    forall k | k in w.nodes ensures NodeOk(FactsOf(w), k, w.nodes[k]) {}
  }

  lemma {:induction false} Reachable(ws: seq<World>, evs: seq<Event>, i: nat)
    requires IsRun(ws, evs) && Initial(ws[0]) && i < |ws|
    ensures Inv(ws[i])
  {
    if i == 0 {
      InitialInv(ws[0]);
    } else {
      Reachable(ws, evs, i - 1);
      NextKeepsInv(ws[i - 1], evs[i - 1]);
    }
  }
}
