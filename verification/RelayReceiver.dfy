/** The receiving host as a program: its journal object and the delivery/recovery cycle, effect by effect.
    What the network, the disk and the queue answer is arbitrary. */
module RelayReceiver {
  import opened Basics
  import opened RelayTables
  import opened RelayHandlers
  import opened RelayRunner

  /** One effect of a cycle: what the environment answered, and the ID minted there, if any. */
  datatype Turn = Turn(answer: Answer, minted: string)

  datatype Cycle = Cycle(l: Local, j: Journal, sent: seq<(string, string)>)

  ghost function AfterTurn(host: string, c: Cycle, t: Turn): Cycle {
    Cycle(Advance(host, c.l, c.j, t.answer, t.minted), JournalAfter(c.l, c.j, t.answer),
          if c.l.pc == DoSubmit && c.l.e.message.Some?
          then c.sent + [(c.l.e.message.value.row.thread, c.l.e.message.value.row.prompt)] else c.sent)
  }

  /** A run of the step machine that the joint machine takes one effect at a time. */
  ghost predicate IsTrail(host: string, j: Journal, trail: seq<Cycle>, turns: seq<Turn>) {
    && |trail| == |turns| + 1 && trail[0] == Cycle(START, j, [])
    && forall i {:trigger turns[i]} :: 0 <= i < |turns| ==> trail[i + 1] == AfterTurn(host, trail[i], turns[i])
  }

  // ---- what any cycle keeps ----

  /** How often a submission can still happen from a program point. */
  predicate MaySubmit(pc: Pc) {
    pc in {Begin, AskReady, SaveNew, CallClaim, AwaitClaim, SaveReady, CallInspect, AwaitInspect, CheckAllowed,
      SaveDispatching, DoSubmit}
  }

  ghost predicate CycleOk(c: Cycle) {
    && |c.sent| <= 1 && (c.sent != [] ==> !MaySubmit(c.l.pc))
    && (c.l.pc == DoSubmit ==> Find(c.j.pending, c.l.e.id) == Some(c.l.e) && c.l.e.phase == Submitting)
    && (c.l.pc == SaveDispatching ==> c.l.e.phase == Submitting)
  }

  lemma {:induction false} TurnKeepsOk(host: string, c: Cycle, t: Turn)
    requires CycleOk(c)
    ensures CycleOk(AfterTurn(host, c, t))
  {
    if IsSave(c.l.pc) {
      SaveFind(c.j.pending, c.l.e, c.l.e.id);
    } else {
      assert AfterTurn(host, c, t).l.pc != DoSubmit;
    }
  }

  /** A cycle submits at most once, and then its entry is durably `dispatching`. */
  lemma {:induction false} CycleSubmitsOnce(host: string, j: Journal, trail: seq<Cycle>, turns: seq<Turn>, i: nat)
    requires IsTrail(host, j, trail, turns) && i < |trail|
    ensures CycleOk(trail[i])
  {
    if i > 0 {
      CycleSubmitsOnce(host, j, trail, turns, i - 1);
      TurnKeepsOk(host, trail[i - 1], turns[i - 1]);
    }
  }

  /** The durable journal; a save or a read may fail. */
  class JournalStore {
    var enrolled: map<string, bool>
    var pending: seq<Entry>

    constructor ()
      ensures Rows() == Journal(map[], [])
    {
      enrolled, pending := map[], [];
    }

    function Rows(): Journal
      reads this
    {
      Journal(enrolled, pending)
    }

    method Save(e: Entry) returns (result: SaveResult)
      modifies this`pending
      ensures pending == if result == NotStored then old(pending) else RelayRunner.Save(old(pending), e)
      ensures result == NotStored || Find(pending, e.id) == Some(e)
    {
      result := *;
      SaveFind(pending, e, e.id);
      if result != NotStored {
        pending := RelayRunner.Save(pending, e);
      }
    }

    method Enroll(thread: string, enabled: bool) returns (result: SaveResult)
      modifies this`enrolled
      ensures enrolled == if result == NotStored then old(enrolled) else old(enrolled)[thread := enabled]
      ensures !IsUuid(thread) ==> result == NotStored
    {
      result := *;
      if !IsUuid(thread) {
        result := NotStored;
      }
      if result != NotStored {
        enrolled := enrolled[thread := enabled];
      }
    }

    /** The enrolment row, read fail-closed: an error counts as not enabled. */
    method Allowed(thread: string) returns (ok: bool, read: bool)
      ensures ok == (read && RelayRunner.Allowed(Rows(), thread))
    {
      read := *;
      ok := read && thread in enrolled && enrolled[thread];
    }
  }

  class Runner {
    const host: string
    const journal: JournalStore
    /** Submissions made: thread and prompt. */
    var sent: seq<(string, string)>

    /** The effects of the current cycle, and where the step machine stands after them. */
    ghost var began: Journal
    ghost var turns: seq<Turn>
    ghost var trail: seq<Cycle>
    ghost var cycle: Cycle

    constructor (host: string, journal: JournalStore)
      ensures this.host == host && this.journal == journal && sent == []
    {
      this.host, this.journal, sent := host, journal, [];
    }

    ghost predicate Recorded()
      reads this
    {
      IsTrail(host, began, trail, turns) && cycle == trail[|turns|]
    }

    /** The program has done exactly what the step machine did. */
    ghost predicate Tracks(before: seq<(string, string)>)
      reads this, journal
    {
      Recorded() && cycle.j == journal.Rows() && sent == before + cycle.sent
    }

    ghost predicate Stands(pc: Pc, e: Entry, before: seq<(string, string)>)
      reads this, journal
    {
      Tracks(before) && cycle.l.pc == pc && cycle.l.e == e
    }

    ghost method Turned(a: Answer, minted: string)
      requires Recorded()
      modifies this`turns, this`trail, this`cycle
      ensures Recorded() && cycle == AfterTurn(host, old(cycle), Turn(a, minted))
    {
      cycle := AfterTurn(host, cycle, Turn(a, minted));
      turns, trail := turns + [Turn(a, minted)], trail + [cycle];
    }

    // ---- one effect each: what the step machine does with the answer ----

    ghost method RequestSent(before: seq<(string, string)>)
      requires Tracks(before) && cycle.l.pc in {CallClaim, CallInspect, CallReport}
      modifies this`turns, this`trail, this`cycle
      ensures Tracks(before)
      ensures cycle == old(cycle).(l := old(cycle.l).(pc :=
                match old(cycle.l.pc)
                case CallClaim => AwaitClaim
                case CallInspect => if old(cycle.l.e.message).Some? then AwaitInspect else Stopped
                case _ => AwaitReport))
    {
      Turned(Proceed, "");
    }

    ghost method NextRead(a: Answer, minted: string, before: seq<(string, string)>)
      requires Tracks(before) && cycle.l.pc == Begin
      modifies this`turns, this`trail, this`cycle
      ensures Tracks(before) && cycle == old(cycle).(l := BeginStep(old(cycle.l), journal.pending, a, minted))
    {
      Turned(a, minted);
    }

    ghost method ReadyTold(a: Answer, minted: string, before: seq<(string, string)>)
      requires Tracks(before) && cycle.l.pc == AskReady
      modifies this`turns, this`trail, this`cycle
      ensures Tracks(before) && cycle == old(cycle).(l := ReadyAnswer(old(cycle.l), a, minted))
    {
      Turned(a, minted);
    }

    ghost method ClaimTold(e: Entry, reached: bool, message: Option<View>, before: seq<(string, string)>)
      requires Stands(AwaitClaim, e, before)
      modifies this`turns, this`trail, this`cycle
      ensures Tracks(before) && cycle.sent == old(cycle.sent)
      ensures !reached ==> cycle.l.pc == Stopped
      ensures reached && message.None? ==> Stands(SaveEmpty, e.(message := None, phase := Done), before)
      ensures reached && message.Some? && ClaimMatches(host, e, message.value) ==>
                Stands(SaveReady, e.(message := message, phase := Leased), before)
      ensures reached && message.Some? && !ClaimMatches(host, e, message.value) ==> cycle.l.pc == Stopped
    {
      Turned(if reached then Told(Delivered(message)) else Failed, "");
    }

    ghost method InspectTold(e: Entry, m: View, reached: bool, current: View, minted: string,
            before: seq<(string, string)>)
      requires Stands(AwaitInspect, e, before) && e.message == Some(m)
      modifies this`turns, this`trail, this`cycle
      ensures Tracks(before) && cycle.sent == old(cycle.sent)
      ensures !reached || !StillMine(host, e, current) || current.row.state == Queued ==> cycle.l.pc == Stopped
      ensures reached && StillMine(host, e, current) && current.row.state == Dispatching ==>
                Stands(CheckAllowed, e.(receipt := ReceiptBody(minted, m.id, Uncertain, "", "")), before)
      ensures reached && StillMine(host, e, current) && current.row.state !in {Queued, Dispatching} ==>
                Stands(SaveSkip, e.(phase := Done), before)
    {
      Turned(if reached then Told(Shown(current)) else Failed, minted);
    }

    ghost method SaveTold(e: Entry, result: SaveResult, before: seq<(string, string)>)
      requires IsSave(cycle.l.pc) && Recorded() && cycle.l.e == e && sent == before + cycle.sent
      requires journal.Rows() == JournalAfter(cycle.l, cycle.j, Saved(result))
      modifies this`turns, this`trail, this`cycle
      ensures Stands(if result == Stored then AfterSave(old(cycle.l.pc)) else Stopped, e, before)
      ensures cycle.l == old(cycle.l).(pc := cycle.l.pc) && cycle.sent == old(cycle.sent)
    {
      Turned(Saved(result), "");
    }

    ghost method AllowedRead(e: Entry, read: bool, before: seq<(string, string)>)
      requires e.message.Some? && Stands(CheckAllowed, e, before)
      modifies this`turns, this`trail, this`cycle
      ensures Tracks(before) && cycle.sent == old(cycle.sent)
      ensures if read && RelayRunner.Allowed(journal.Rows(), e.message.value.row.thread)
              then cycle.l.pc == SaveDispatching && cycle.l.e == e.(phase := Submitting)
              else
                && cycle.l.pc == SaveRefused
                && cycle.l.e == e.(phase := Reporting, receipt := e.receipt.(evidence := NOT_ENABLED))
    {
      Turned(if read then Proceed else Failed, "");
    }

    ghost method ReportTold(a: Answer, before: seq<(string, string)>)
      requires Tracks(before) && cycle.l.pc == AwaitReport
      modifies this`turns, this`trail, this`cycle
      ensures Tracks(before)
      ensures if a.Told? && a.response.Receipted?
              then cycle.l.pc == SaveDone && cycle.l.e == old(cycle.l.e).(phase := Done) else cycle.l.pc == Stopped
    {
      Turned(a, "");
    }

    /** A durable save; the cycle goes on only if it reports success. */
    method Store(e: Entry, ghost before: seq<(string, string)>) returns (ok: bool)
      requires IsSave(cycle.l.pc) && Stands(cycle.l.pc, e, before)
      modifies this`turns, this`trail, this`cycle, journal`pending
      ensures Stands(if ok then AfterSave(old(cycle.l.pc)) else Stopped, e, before)
      ensures cycle.l == old(cycle.l).(pc := cycle.l.pc) && cycle.sent == old(cycle.sent)
    {
      var result := journal.Save(e);
      SaveTold(e, result, before);
      ok := result == Stored;
    }

    /** One delivery and recovery cycle. The IDs it may mint are given by the caller. */
    method Once(ids: (string, string)) returns (ok: bool)
      modifies this, journal`pending
      ensures journal.enrolled == old(journal.enrolled)
      ensures began == old(journal.Rows())
      ensures Recorded() && cycle.l.pc == Stopped && cycle.j == journal.Rows()
      ensures sent == old(sent) + cycle.sent && |cycle.sent| <= 1
    {
      ghost var before := sent;
      began, cycle := journal.Rows(), Cycle(START, journal.Rows(), []);
      turns, trail := [], [cycle];
      ok := Run(ids, before);
      CycleSubmitsOnce(host, began, trail, turns, |turns|);
    }

    method Run(ids: (string, string), ghost before: seq<(string, string)>) returns (ok: bool)
      requires Tracks(before) && cycle.l == START && cycle.sent == []
      modifies this`sent, this`turns, this`trail, this`cycle, journal`pending
      ensures Tracks(before) && cycle.l.pc == Stopped
    {
      var e, go := Pick(ids, before);
      if !go {
        return false;
      }
      if e.phase == Claiming {
        e, go, ok := Obtain(e, before);
        if !go {
          return;
        }
      }
      if e.phase == Submitting {
        e, go := Recover(e, ids.1, before);
        if !go {
          return false;
        }
      }
      ok := Finish(e, ids.1, before);
    }

    method Finish(ready: Entry, id: string, ghost before: seq<(string, string)>) returns (ok: bool)
      requires cycle.sent == []
      requires (ready.phase == Leased && Stands(CallInspect, ready, before))
               || (ready.phase == Reporting && Stands(CallReport, ready, before))
      modifies this`sent, this`turns, this`trail, this`cycle, journal`pending
      ensures Tracks(before) && cycle.l.pc == Stopped
    {
      var e := ready;
      if e.phase == Leased {
        var go;
        e, go, ok := Deliver(e, id, before);
        if !go {
          return;
        }
      }
      ok := Settle(e, before);
    }

    /** The pending entry, or a new one when the coordinator has something queued. */
    method Pick(ids: (string, string), ghost before: seq<(string, string)>) returns (e: Entry, go: bool)
      requires Tracks(before) && cycle.l == START
      modifies this`turns, this`trail, this`cycle, journal`pending
      ensures Tracks(before) && cycle.sent == old(cycle.sent)
      ensures if go then e.phase != Done && cycle.l == Resume(START, e, ids.1) else cycle.l.pc == Stopped
    {
      var readable: bool := *;
      e := START.e;
      if !readable {
        NextRead(Failed, "", before);
        return e, false;
      }
      NextIsOpen(journal.pending);
      match Next(journal.pending) {
        case Some(open) =>
          NextRead(Proceed, ids.1, before);
          return open, true;
        case None =>
          NextRead(Proceed, "", before);
      }
      var ready: Option<bool> := *;
      ReadyTold(if ready.Some? then Told(IsReady(ready.value)) else Failed, ids.0, before);
      if ready != Some(true) {
        return e, false;
      }
      e := Entry(ids.0, Claiming, None, NO_RECEIPT);
      go := Store(e, before);
    }

    /** Claim under the entry's own ID, so that a lost response is replayed and never leases twice. */
    method Obtain(claiming: Entry, ghost before: seq<(string, string)>) returns (e: Entry, go: bool, ok: bool)
      requires claiming.phase == Claiming && Stands(CallClaim, claiming, before)
      modifies this`turns, this`trail, this`cycle, journal`pending
      ensures Tracks(before) && (go ==> ok) && cycle.sent == old(cycle.sent)
      ensures if go then e.phase == Leased && Stands(CallInspect, e, before) else cycle.l.pc == Stopped
    {
      e := claiming;
      RequestSent(before);
      var reached: bool := *;
      var message: Option<View> := *;
      ClaimTold(e, reached, message, before);
      if !reached {
        return e, false, false;
      }
      match message {
        case None =>
          e := e.(message := None, phase := Done);
          ok := Store(e, before);
          return e, false, ok;
        case Some(m) =>
          e, go := Accept(e, m, before);
          ok := go;
      }
    }

    /** The claimed message, if it is what this attempt asked for, becomes durable before anything else. */
    method Accept(claiming: Entry, m: View, ghost before: seq<(string, string)>) returns (e: Entry, go: bool)
      requires Tracks(before)
      requires if ClaimMatches(host, claiming, m)
               then Stands(SaveReady, claiming.(message := Some(m), phase := Leased), before)
               else cycle.l.pc == Stopped
      modifies this`turns, this`trail, this`cycle, journal`pending
      ensures Tracks(before) && cycle.sent == old(cycle.sent)
      ensures if go then e.phase == Leased && Stands(CallInspect, e, before) else cycle.l.pc == Stopped
    {
      e := claiming;
      if m.row.target != host || m.row.attempt != e.id || !IsUuid(m.row.thread) || m.id == ""
         || Utf8Len(m.row.prompt) > 16384
      {
        return e, false;
      }
      e := e.(message := Some(m), phase := Leased);
      go := Store(e, before);
    }

    /** The host restarted after a submission began: report it as uncertain. */
    method Recover(submitting: Entry, id: string, ghost before: seq<(string, string)>) returns (e: Entry, go: bool)
      requires submitting.phase == Submitting && Tracks(before) && cycle.l == Resume(START, submitting, id)
      modifies this`turns, this`trail, this`cycle, journal`pending
      ensures Tracks(before) && cycle.sent == old(cycle.sent)
      ensures if go then e.phase == Reporting && Stands(CallReport, e, before) else cycle.l.pc == Stopped
    {
      e := submitting;
      if !e.message.Some? {
        return e, false;
      }
      e := e.(phase := Reporting, receipt := ReceiptBody(id, e.message.value.id, Uncertain, "", RESTARTED));
      go := Store(e, before);
    }

    /** Inspect, check local enrolment, journal `dispatching`, submit, journal the outcome. */
    method Deliver(leased: Entry, id: string, ghost before: seq<(string, string)>)
      returns (e: Entry, go: bool, ok: bool)
      requires leased.phase == Leased && Stands(CallInspect, leased, before) && cycle.sent == []
      modifies this`sent, this`turns, this`trail, this`cycle, journal`pending
      ensures Tracks(before) && (go ==> ok)
      ensures if go then e.phase == Reporting && Stands(CallReport, e, before) else cycle.l.pc == Stopped
    {
      e, go, ok := Look(leased, id, before);
      if go {
        e, go := Authorize(e, e.message.value, before);
        if go {
          go := StoreOutcome(e, before);
        }
        ok := go;
      }
    }

    method StoreOutcome(e: Entry, ghost before: seq<(string, string)>) returns (go: bool)
      requires cycle.l.pc == SaveRefused || cycle.l.pc == SaveOutcome
      requires Stands(cycle.l.pc, e, before)
      modifies this`turns, this`trail, this`cycle, journal`pending
      ensures Stands(if go then CallReport else Stopped, e, before)
    {
      go := Store(e, before);
    }

    /** Is the message still this attempt's, and still undelivered? */
    method Look(leased: Entry, id: string, ghost before: seq<(string, string)>) returns (e: Entry, go: bool, ok: bool)
      requires leased.phase == Leased && Stands(CallInspect, leased, before)
      modifies this`turns, this`trail, this`cycle, journal`pending
      ensures Tracks(before) && (go ==> ok) && cycle.sent == old(cycle.sent)
      ensures if go then e.message.Some? && Stands(CheckAllowed, e, before) else cycle.l.pc == Stopped
    {
      e := leased;
      RequestSent(before);
      if !e.message.Some? {
        return e, false, false;
      }
      var m := e.message.value;
      var reached: bool := *;
      var current: View := *;
      InspectTold(e, m, reached, current, id, before);
      if !reached {
        return e, false, false;
      }
      if current.id != m.id || current.row.thread != m.row.thread || current.row.target != host
         || current.row.attempt != e.id || current.row.prompt != m.row.prompt
      {
        return e, false, false;
      }
      if current.row.state == Queued {
        return e, false, false;
      }
      if current.row.state != Dispatching {
        e := e.(phase := Done);
        ok := Store(e, before);
        return e, false, ok;
      }
      return e.(receipt := ReceiptBody(id, m.id, Uncertain, "", "")), true, true;
    }

    /** Submit only to a task that local enrolment allows, after journalling `dispatching`; then journal the outcome. */
    method Authorize(leased: Entry, m: View, ghost before: seq<(string, string)>) returns (e: Entry, go: bool)
      requires leased.message == Some(m) && Stands(CheckAllowed, leased, before) && cycle.sent == []
      modifies this`sent, this`turns, this`trail, this`cycle, journal`pending
      ensures Tracks(before)
      ensures if go then e.phase == Reporting && (cycle.l.pc == SaveRefused || cycle.l.pc == SaveOutcome)
              && Stands(cycle.l.pc, e, before)
              else cycle.l.pc == Stopped
    {
      e, go := leased, true;
      var allowed, read := journal.Allowed(m.row.thread);
      AllowedRead(e, read, before);
      if !allowed {
        e := e.(phase := Reporting, receipt := e.receipt.(evidence := NOT_ENABLED));
      } else {
        e, go := Commit(e.(phase := Submitting), m, before);
      }
    }

    /** The journal says `dispatching` before anything is submitted. */
    method Commit(submitting: Entry, m: View, ghost before: seq<(string, string)>) returns (e: Entry, go: bool)
      requires submitting.message == Some(m) && Stands(SaveDispatching, submitting, before) && cycle.sent == []
      modifies this`sent, this`turns, this`trail, this`cycle, journal`pending
      ensures Tracks(before)
      ensures if go then e.phase == Reporting && Stands(SaveOutcome, e, before) else cycle.l.pc == Stopped
    {
      e := submitting;
      go := Store(e, before);
      if go {
        e := Dispatch(e, m, before);
      }
    }

    /** The submission itself: a missing or malformed submission ID leaves the outcome uncertain. */
    method Dispatch(submitting: Entry, m: View, ghost before: seq<(string, string)>) returns (e: Entry)
      requires Stands(DoSubmit, submitting, before) && submitting.message == Some(m) && cycle.sent == []
      modifies this`sent, this`turns, this`trail, this`cycle
      ensures e.phase == Reporting && Stands(SaveOutcome, e, before)
      ensures sent == old(sent) + [(m.row.thread, m.row.prompt)]
    {
      var submission: Option<string> := *;
      sent := sent + [(m.row.thread, m.row.prompt)];
      Turned(Returned(submission), "");
      e := submitting.(phase := Reporting);
      if submission.Some? && IsUuid(submission.value) {
        e := e.(receipt := e.receipt.(state := Submitted, submission := submission.value));
      } else {
        e := e.(receipt := e.receipt.(evidence := UNCERTAIN));
      }
    }

    /** Report the stored receipt, then close the entry. */
    method Settle(reporting: Entry, ghost before: seq<(string, string)>) returns (ok: bool)
      requires reporting.phase == Reporting && Stands(CallReport, reporting, before)
      modifies this`turns, this`trail, this`cycle, journal`pending
      ensures Stands(Stopped, cycle.l.e, before)
    {
      RequestSent(before);
      var response: Option<Receipt> := *;
      ReportTold(if response.Some? then Told(Receipted(response.value)) else Failed, before);
      if !response.Some? {
        return false;
      }
      ok := Store(reporting.(phase := Done), before);
    }
  }

  lemma {:induction false} NextIsOpen(p: seq<Entry>)
    ensures Next(p).Some? ==> Next(p).value.phase != Done
  {
    if p != [] {
      NextIsOpen(p[1..]);
    }
  }
}
