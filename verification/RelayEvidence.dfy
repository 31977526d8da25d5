/** A receiver's receipt tells what happened: whether the thread was refused, the submission returned, its outcome was
    lost, or the host restarted in between. */
module RelayEvidence {
  import opened Basics
  import opened RelayTables
  import opened RelayHandlers
  import opened RelayRunner
  import opened RelayWorld
  import opened RelaySafety
  import opened RelayCycle
  import opened RelayReach
  import opened RelayPromises

  /** Exactly one submission was made for this entry, and it ended like this. */
  ghost predicate Once(log: seq<Submission>, id: string, outcome: Option<string>) {
    exists i :: 0 <= i < |log| && log[i].entry == id && log[i].outcome == outcome
                && forall j :: 0 <= j < |log| && log[j].entry == id ==> j == i
  }

  /** The receipt is about the entry's message, and agrees with the submission log. */
  ghost predicate IsTrue(log: seq<Submission>, e: Entry) {
    var r := e.receipt;
    && e.message.Some? && r.message == e.message.value.id
    && match r.state
       case Submitted => r.evidence == "" && Once(log, e.id, Some(r.submission))
       case Uncertain =>
         && r.submission == "" && r.evidence in {NOT_ENABLED, UNCERTAIN, RESTARTED}
         && (r.evidence == NOT_ENABLED ==> !Logged(log, e.id))
         && (r.evidence == UNCERTAIN ==> Once(log, e.id, None))
       case _ => false
  }

  /** The receipt before the submission. */
  predicate IsDraft(e: Entry) {
    && e.message.Some? && e.receipt.message == e.message.value.id
    && e.receipt.state == Uncertain && e.receipt.submission == "" && e.receipt.evidence == ""
  }

  ghost predicate Speaks(log: seq<Submission>, e: Entry) {
    match e.phase
    case Claiming => e.receipt == NO_RECEIPT
    case Leased => e.receipt == NO_RECEIPT
    case Submitting => IsDraft(e)
    case Reporting => IsTrue(log, e)
    case Done => IsTrue(log, e) || (e.receipt == NO_RECEIPT && !Logged(log, e.id))
  }

  ghost predicate LocalSpeaks(log: seq<Submission>, l: Local) {
    HasEntry(l.pc) ==> if l.pc == CheckAllowed then IsDraft(l.e) else Speaks(log, l.e)
  }

  ghost predicate NodeSpeaks(log: seq<Submission>, n: Node) {
    && (forall e :: e in n.journal.pending ==> Speaks(log, e))
    && (n.proc.Some? && n.proc.value.Receiver? ==> LocalSpeaks(log, n.proc.value.l))
  }

  ghost predicate AllSpeak(w: World) {
    forall k :: k in w.nodes ==> NodeSpeaks(w.log, w.nodes[k])
  }

  // ---- a submission speaks for its own entry only ----

  lemma {:induction false} OthersUnmoved(log: seq<Submission>, s: Submission, e: Entry)
    requires Speaks(log, e) && e.id != s.entry
    ensures Speaks(log + [s], e)
  {
    var more := log + [s];
    if e.phase in {Reporting, Done} && IsTrue(log, e) {
      var o := if e.receipt.state == Submitted then Some(e.receipt.submission) else None;
      if Once(log, e.id, o) { OnceStays(log, s, e.id, o); }
      if !Logged(log, e.id) { assert !Logged(more, e.id); }
    }
  }

  lemma {:induction false} OnceStays(log: seq<Submission>, s: Submission, id: string, outcome: Option<string>)
    requires Once(log, id, outcome) && id != s.entry
    ensures Once(log + [s], id, outcome)
  {
    var more := log + [s];
    var i :| 0 <= i < |log| && log[i].entry == id && log[i].outcome == outcome
             && forall j :: 0 <= j < |log| && log[j].entry == id ==> j == i;
    assert more[i] == log[i];
  }

  lemma {:induction false} OnceAdded(log: seq<Submission>, s: Submission)
    requires !Logged(log, s.entry)
    ensures Once(log + [s], s.entry, s.outcome)
  {
    var more := log + [s];
    assert more[|log|] == s;
  }

  // ---- one step of a cycle ----

  lemma {:induction false} SavedEntrySpeaks(log: seq<Submission>, l: Local)
    requires LocalSpeaks(log, l) && IsSave(l.pc)
    ensures Speaks(log, l.e) && LocalSpeaks(log, l.(pc := AfterSave(l.pc))) && LocalSpeaks(log, Stop(l))
  {
  }

  lemma {:induction false} SavedSpeaks(log: seq<Submission>, n: Node, a: Answer, minted: string)
    requires NodeSpeaks(log, n) && n.proc.Some? && n.proc.value.Receiver? && IsSave(n.proc.value.l.pc)
    ensures NodeSpeaks(log, AfterCycle(n, a, minted))
  {
    SavedEntrySpeaks(log, n.proc.value.l);
    SaveMembers(n.journal.pending, n.proc.value.l.e);
    var m := AfterCycle(n, a, minted);
    assert m.proc.value.l == if a == Saved(Stored) then n.proc.value.l.(pc := AfterSave(n.proc.value.l.pc))
                             else Stop(n.proc.value.l);
  }

  lemma {:induction false} BegunSpeaks(log: seq<Submission>, p: seq<Entry>, l: Local, a: Answer, minted: string)
    requires Distinct(p) && forall e :: e in p ==> Speaks(log, e)
    ensures LocalSpeaks(log, BeginStep(l, p, a, minted))
  {
    NextIsFirstOpen(p);
  }

  lemma {:induction false} AnsweredSpeaks(f: Facts, k: nat, host: string, j: Journal, l: Local, a: Answer,
          minted: string)
    requires LocalOk(f, k, host, j, l) && LocalSpeaks(f.log, l)
    requires l.pc !in {Begin, DoSubmit} && !IsSave(l.pc)
    ensures LocalSpeaks(f.log, Advance(host, l, j, a, minted))
  {
  }

  lemma {:induction false} QuietSpeaks(f: Facts, k: nat, n: Node, a: Answer, minted: string)
    requires NodeOk(f, k, n) && NodeSpeaks(f.log, n) && n.proc.Some? && n.proc.value.Receiver?
    requires n.proc.value.l.pc != DoSubmit
    ensures NodeSpeaks(f.log, AfterCycle(n, a, minted))
  {
    var l := n.proc.value.l;
    if IsSave(l.pc) {
      SavedSpeaks(f.log, n, a, minted);
    } else if l.pc == Begin {
      BegunSpeaks(f.log, n.journal.pending, l, a, minted);
    } else {
      AnsweredSpeaks(f, k, n.host, n.journal, l, a, minted);
    }
  }

  // ---- the submission ----

  lemma {:induction false} AnswerSpeaks(log: seq<Submission>, l: Local, s: Submission, a: Answer)
    requires IsDraft(l.e) && !Logged(log, l.e.id) && s.entry == l.e.id && s.outcome == ValidSubmission(a)
    ensures LocalSpeaks(log + [s], SubmitAnswer(l, if a.Returned? then a.submission else None))
  {
    OnceAdded(log, s);
  }

  /** The journal still holds the draft, and speaks for no other entry. */
  lemma {:induction false} PendingAfterSubmission(f: Facts, k: nat, j: Journal, host: string, l: Local, s: Submission)
    requires PendingOk(f, k, j.pending) && LocalOk(f, k, host, j, l) && l.pc == DoSubmit && s.entry == l.e.id
    requires (forall e :: e in j.pending ==> Speaks(f.log, e)) && IsDraft(l.e)
    ensures forall e :: e in j.pending ==> Speaks(f.log + [s], e)
  {
    forall e | e in j.pending ensures Speaks(f.log + [s], e) {
      if e.id == l.e.id { SameEntry(j.pending, e); } else { OthersUnmoved(f.log, s, e); }
    }
  }

  lemma {:induction false} OtherNodeSpeaks(f: Facts, i: nat, n: Node, s: Submission)
    requires NodeOk(f, i, n) && NodeSpeaks(f.log, n) && s.entry in f.owner && f.owner[s.entry] != i
    ensures NodeSpeaks(f.log + [s], n)
  {
    forall e | e in n.journal.pending ensures Speaks(f.log + [s], e) {
      assert EntryOk(f, i, e);
      OthersUnmoved(f.log, s, e);
    }
    if n.proc.Some? && n.proc.value.Receiver? && HasEntry(n.proc.value.l.pc) && n.proc.value.l.pc != CheckAllowed {
      OthersUnmoved(f.log, s, n.proc.value.l.e);
    }
  }

  lemma {:induction false} OwnNodeSpeaks(f: Facts, k: nat, n: Node, s: Submission, a: Answer)
    requires NodeOk(f, k, n) && NodeSpeaks(f.log, n) && n.proc.Some? && n.proc.value.Receiver?
    requires n.proc.value.l.pc == DoSubmit && s.entry == n.proc.value.l.e.id && s.outcome == ValidSubmission(a)
    ensures var l := n.proc.value.l;
            NodeSpeaks(f.log + [s],
              n.(proc := Some(Receiver(SubmitAnswer(l, if a.Returned? then a.submission else None)))))
  {
    var l := n.proc.value.l;
    PendingAfterSubmission(f, k, n.journal, n.host, l, s);
    AnswerSpeaks(f.log, l, s, a);
  }

  /** The node that submitted, and the log after it. */
  lemma {:induction false} LogsIt(w: World, k: nat, a: Answer, minted: string, hid: nat, now: int)
    returns (s: Submission)
    requires Inv(w) && Enabled(w, Cycle(k, a, minted, hid, now)) && w.nodes[k].proc.value.l.pc == DoSubmit
    ensures var l, u := w.nodes[k].proc.value.l, CycleStep(w, k, a, minted, hid, now);
            && s.entry == l.e.id && s.outcome == ValidSubmission(a) && u.log == w.log + [s]
            && s.entry in w.owner && w.owner[s.entry] == k && NodeOk(FactsOf(w), k, w.nodes[k])
            && u.nodes == w.nodes[k := w.nodes[k].(
                            proc := Some(Receiver(SubmitAnswer(l, if a.Returned? then a.submission else None))))]
  {
    var l := w.nodes[k].proc.value.l;
    assert NodeOk(FactsOf(w), k, w.nodes[k]);
    assert HasMessage(DoSubmit);
    var m := l.e.message.value;
    s := Submission(k, l.e.id, l.life, m.id, m.row.thread, m.row.prompt, ValidSubmission(a));
    SubmitShape(w, k, a, minted, hid, now);
  }

  lemma {:induction false} SubmitSpeaks(w: World, k: nat, a: Answer, minted: string, hid: nat, now: int)
    requires Inv(w) && AllSpeak(w) && Enabled(w, Cycle(k, a, minted, hid, now))
    requires w.nodes[k].proc.value.l.pc == DoSubmit
    ensures AllSpeak(CycleStep(w, k, a, minted, hid, now))
  {
    var s := LogsIt(w, k, a, minted, hid, now);
    var u := CycleStep(w, k, a, minted, hid, now);
    forall i | i in u.nodes ensures NodeSpeaks(u.log, u.nodes[i]) {
      assert NodeSpeaks(w.log, w.nodes[i]);
      if i == k {
        OwnNodeSpeaks(FactsOf(w), k, w.nodes[k], s, a);
      } else {
        assert NodeOk(FactsOf(w), i, w.nodes[i]);
        OtherNodeSpeaks(FactsOf(w), i, w.nodes[i], s);
      }
    }
  }

  // ---- every event ----

  lemma {:induction false} IgnoresCall(log: seq<Submission>, n: Node, hid: nat)
    requires NodeSpeaks(log, n) && n.proc.Some? && n.proc.value.Receiver?
    ensures NodeSpeaks(log, n.(proc := Some(Receiver(n.proc.value.l.(call := hid)))))
  {
  }

  lemma {:induction false} QuietLog(w: World, k: nat, a: Answer, minted: string, hid: nat, now: int)
    requires Enabled(w, Cycle(k, a, minted, hid, now)) && w.nodes[k].proc.value.l.pc != DoSubmit
    ensures var u := CycleStep(w, k, a, minted, hid, now);
            && u.log == w.log && u.nodes.Keys == w.nodes.Keys
            && forall i :: i in w.nodes && i != k ==> u.nodes[i] == w.nodes[i]
  {
  }

  lemma {:induction false} CycleSpeaks(w: World, k: nat, a: Answer, minted: string, hid: nat, now: int)
    requires Inv(w) && AllSpeak(w) && Enabled(w, Cycle(k, a, minted, hid, now))
    ensures AllSpeak(CycleStep(w, k, a, minted, hid, now))
  {
    if w.nodes[k].proc.value.l.pc == DoSubmit {
      SubmitSpeaks(w, k, a, minted, hid, now);
    } else {
      var n, u := w.nodes[k], CycleStep(w, k, a, minted, hid, now);
      assert NodeOk(FactsOf(w), k, n) && NodeSpeaks(w.log, n);
      QuietLog(w, k, a, minted, hid, now);
      QuietSpeaks(FactsOf(w), k, n, a, minted);
      IgnoresCall(w.log, AfterCycle(n, a, minted), hid);
      CycleNode(w, k, a, minted, hid, now);
      forall i | i in u.nodes ensures NodeSpeaks(u.log, u.nodes[i]) {
        if i != k { assert NodeSpeaks(w.log, w.nodes[i]); }
      }
    }
  }

  lemma {:induction false} OtherEventSpeaks(w: World, ev: Event)
    requires AllSpeak(w) && Enabled(w, ev) && !ev.Cycle?
    ensures AllSpeak(Apply(w, ev))
  {
    var u := Apply(w, ev);
    forall k | k in u.nodes ensures NodeSpeaks(u.log, u.nodes[k]) {
      assert NodeSpeaks(w.log, w.nodes[k]);
      OtherEvent(w, ev, k);
    }
  }

  lemma {:induction false} NextSpeaks(w: World, ev: Event)
    requires Inv(w) && AllSpeak(w) && Enabled(w, ev)
    ensures AllSpeak(Apply(w, ev))
  {
    if ev.Cycle? {
      CycleSpeaks(w, ev.node, ev.answer, ev.minted, ev.hid, ev.now);
    } else {
      OtherEventSpeaks(w, ev);
    }
  }

  lemma {:induction false} AlwaysSpeak(ws: seq<World>, evs: seq<Event>, n: nat)
    requires IsRun(ws, evs) && Initial(ws[0]) && n < |ws|
    ensures AllSpeak(ws[n])
  {
    if n > 0 {
      AlwaysSpeak(ws, evs, n - 1);
      Reachable(ws, evs, n - 1);
      NextSpeaks(ws[n - 1], evs[n - 1]);
    }
  }

  // ---- what was restarted ----

  /** A cycle of this host starts while its journal calls the entry `dispatching`. */
  ghost predicate PicksUp(w: World, ev: Event, k: nat, id: string) {
    && ev.Cycle? && ev.node == k && k in w.nodes && w.nodes[k].proc.Some? && w.nodes[k].proc.value.Receiver?
    && w.nodes[k].proc.value.l.pc == Begin
    && Find(w.nodes[k].journal.pending, id).Some? && Find(w.nodes[k].journal.pending, id).value.phase == Submitting
  }

  predicate Restarted(e: Entry, ids: set<string>) {
    e.receipt.evidence == RESTARTED ==> e.id in ids
  }

  ghost predicate NodeRestarted(n: Node, ids: set<string>) {
    && (forall e :: e in n.journal.pending ==> Restarted(e, ids))
    && (n.proc.Some? && n.proc.value.Receiver? && HasEntry(n.proc.value.l.pc) ==> Restarted(n.proc.value.l.e, ids))
  }

  /** The entry a cycle of this node picks up. */
  ghost function PickedAt(n: Node): set<string> {
    if n.proc.Some? && n.proc.value.Receiver? && n.proc.value.l.pc == Begin && Next(n.journal.pending).Some?
       && Next(n.journal.pending).value.phase == Submitting
    then {Next(n.journal.pending).value.id} else {}
  }

  /** The entries that node k ever picked up in the first n steps. */
  ghost function Picked(ws: seq<World>, evs: seq<Event>, k: nat, n: nat): set<string>
    requires |ws| == |evs| + 1 && n < |ws|
  {
    if n == 0 then {}
    else
      var cycles := evs[n - 1].Cycle? && evs[n - 1].node == k && k in ws[n - 1].nodes;
      Picked(ws, evs, k, n - 1) + (if cycles then PickedAt(ws[n - 1].nodes[k]) else {})
  }

  lemma {:induction false} PickedMeans(ws: seq<World>, evs: seq<Event>, k: nat, n: nat, id: string) returns (i: nat)
    requires |ws| == |evs| + 1 && n < |ws| && id in Picked(ws, evs, k, n)
    ensures i < n && evs[i].Cycle? && evs[i].node == k && k in ws[i].nodes && id in PickedAt(ws[i].nodes[k])
  {
    if id in Picked(ws, evs, k, n - 1) {
      i := PickedMeans(ws, evs, k, n - 1, id);
    } else {
      i := n - 1;
    }
  }

  lemma {:induction false} PickedIsFound(w: World, ev: Event, k: nat, id: string)
    requires Inv(w) && ev.Cycle? && ev.node == k && k in w.nodes && id in PickedAt(w.nodes[k])
    ensures PicksUp(w, ev, k, id)
  {
    assert NodeOk(FactsOf(w), k, w.nodes[k]);
    NextIsFirstOpen(w.nodes[k].journal.pending);
    SameEntry(w.nodes[k].journal.pending, Next(w.nodes[k].journal.pending).value);
  }

  lemma {:induction false} SaveRestarted(n: Node, a: Answer, minted: string, ids: set<string>)
    requires NodeRestarted(n, ids) && n.proc.Some? && n.proc.value.Receiver? && IsSave(n.proc.value.l.pc)
    ensures NodeRestarted(AfterCycle(n, a, minted), ids)
  {
    SaveMembers(n.journal.pending, n.proc.value.l.e);
  }

  lemma {:induction false} BeginRestarted(p: seq<Entry>, l: Local, a: Answer, minted: string, ids: set<string>)
    requires Distinct(p) && forall e :: e in p ==> Restarted(e, ids)
    requires Next(p).Some? && Next(p).value.phase == Submitting ==> Next(p).value.id in ids
    ensures var m := BeginStep(l, p, a, minted); HasEntry(m.pc) ==> Restarted(m.e, ids)
  {
    NextIsFirstOpen(p);
  }

  lemma {:induction false} StepRestarted(host: string, l: Local, j: Journal, a: Answer, minted: string,
          ids: set<string>)
    requires HasEntry(l.pc) ==> Restarted(l.e, ids)
    requires l.pc != Begin && !IsSave(l.pc)
    ensures var m := Advance(host, l, j, a, minted); HasEntry(m.pc) ==> Restarted(m.e, ids)
  {
  }

  lemma {:induction false} CycleRestarted(n: Node, a: Answer, minted: string, ids: set<string>)
    requires NodeRestarted(n, ids) && n.proc.Some? && n.proc.value.Receiver? && Distinct(n.journal.pending)
    ensures NodeRestarted(AfterCycle(n, a, minted), ids + PickedAt(n))
  {
    var l, more := n.proc.value.l, ids + PickedAt(n);
    if IsSave(l.pc) {
      SaveRestarted(n, a, minted, more);
    } else if l.pc == Begin {
      BeginRestarted(n.journal.pending, l, a, minted, more);
    } else {
      StepRestarted(n.host, l, n.journal, a, minted, more);
    }
  }

  lemma {:induction false} NextRestarted(w: World, ev: Event, k: nat, ids: set<string>)
    requires Inv(w) && Enabled(w, ev) && k in w.nodes && NodeRestarted(w.nodes[k], ids)
    ensures k in Apply(w, ev).nodes
    ensures var more := if ev.Cycle? && ev.node == k then PickedAt(w.nodes[k]) else {};
            NodeRestarted(Apply(w, ev).nodes[k], ids + more)
  {
    if ev.Cycle? && ev.node == k {
      assert NodeOk(FactsOf(w), k, w.nodes[k]);
      CycleRestarted(w.nodes[k], ev.answer, ev.minted, ids);
      CycleNode(w, k, ev.answer, ev.minted, ev.hid, ev.now);
    } else {
      OtherEvent(w, ev, k);
    }
  }

  lemma {:induction false} NodesStay(ws: seq<World>, evs: seq<Event>, n: nat, k: nat)
    requires IsRun(ws, evs) && n + 1 < |ws| && k in ws[n + 1].nodes
    ensures k in ws[n].nodes
  {
    assert Enabled(ws[n], evs[n]);
  }

  lemma {:induction false} RestartsAccounted(ws: seq<World>, evs: seq<Event>, n: nat, k: nat)
    requires IsRun(ws, evs) && Initial(ws[0]) && n < |ws| && k in ws[n].nodes
    ensures NodeRestarted(ws[n].nodes[k], Picked(ws, evs, k, n))
  {
    if n > 0 {
      NodesStay(ws, evs, n - 1, k);
      RestartsAccounted(ws, evs, n - 1, k);
      Reachable(ws, evs, n - 1);
      NextRestarted(ws[n - 1], evs[n - 1], k, Picked(ws, evs, k, n - 1));
    }
  }

  // ---- the promises ----

  /** In every reachable world, the receipt of a journal entry is about the entry's message and says what happened:
      `submitted` with the ID that its one submission returned; that the thread was not enabled, and then nothing was
      submitted; that the outcome is uncertain, and then its one submission returned no ID; or that the host restarted,
      and then a cycle did start with the entry in `dispatching`. An entry done without a receipt was not submitted. */
  lemma {:induction false} ReceiptsTellTheTruth(ws: seq<World>, evs: seq<Event>, n: nat, k: nat, e: Entry)
    requires IsRun(ws, evs) && Initial(ws[0]) && n < |ws| && k in ws[n].nodes && e in ws[n].nodes[k].journal.pending
    ensures e.phase == Reporting || (e.phase == Done && e.receipt != NO_RECEIPT) ==> IsTrue(ws[n].log, e)
    ensures e.phase == Done && e.receipt == NO_RECEIPT ==> !Logged(ws[n].log, e.id)
    ensures e.receipt.evidence == RESTARTED ==> exists i :: 0 <= i < n && PicksUp(ws[i], evs[i], k, e.id)
  {
    AlwaysSpeak(ws, evs, n);
    assert NodeSpeaks(ws[n].log, ws[n].nodes[k]);
    RestartsAccounted(ws, evs, n, k);
    if e.receipt.evidence == RESTARTED {
      var i := PickedMeans(ws, evs, k, n, e.id);
      Reachable(ws, evs, i);
      PickedIsFound(ws[i], evs[i], k, e.id);
    }
  }

  /** A receiver reports nothing but the receipt its journal holds. */
  lemma {:induction false} ReportsWhatItSaved(ws: seq<World>, evs: seq<Event>, n: nat, hid: nat) returns (e: Entry)
    requires IsRun(ws, evs) && Initial(ws[0]) && n + 1 < |ws| && evs[n].Cycle?
    requires hid in ws[n + 1].handlers && hid !in ws[n].handlers && ws[n + 1].handlers[hid].0.Report?
    ensures evs[n].node in ws[n].nodes
    ensures var k, c := evs[n].node, ws[n + 1].handlers[hid].0;
            && e in ws[n].nodes[k].journal.pending && e.phase == Reporting
            && c.host == ws[n].nodes[k].host && c.receipt == e.receipt
  {
    Reachable(ws, evs, n);
    var k := evs[n].node;
    var l := ws[n].nodes[k].proc.value.l;
    assert NodeOk(FactsOf(ws[n]), k, ws[n].nodes[k]);
    e := l.e;
    FindIsMember(ws[n].nodes[k].journal.pending, e.id);
  }
}
