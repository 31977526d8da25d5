/** Why a receiving cycle gets where it gets, whatever it is answered: what it was told just before it keeps a claim,
    submits, or calls an entry done. */
module RelayTrails {
  import opened Basics
  import opened RelayTables
  import opened RelayHandlers
  import opened RelayRunner
  import opened RelayReceiver

  /** The cycle stands at this point, and came there by this answer. */
  ghost predicate CameBy(trail: seq<Cycle>, turns: seq<Turn>, i: int, from: Pc, a: Answer) {
    0 < i < |trail| == |turns| + 1 && trail[i - 1].l.pc == from && turns[i - 1].answer == a
  }

  lemma {:induction false} LastTurn(host: string, j: Journal, trail: seq<Cycle>, turns: seq<Turn>, i: nat)
    requires IsTrail(host, j, trail, turns) && 0 < i < |trail|
    ensures trail[i] == AfterTurn(host, trail[i - 1], turns[i - 1])
  {
    assert turns[i - 1] == turns[i - 1];
  }

  /** The only point a cycle can have come from to this one. */
  function PointBefore(pc: Pc): Pc {
    match pc
    case AskReady => Begin
    case SaveNew => AskReady
    case SaveEmpty => AwaitClaim
    case SaveReady => AwaitClaim
    case SaveSkip => AwaitInspect
    case CheckAllowed => AwaitInspect
    case SaveDispatching => CheckAllowed
    case DoSubmit => SaveDispatching
    case SaveDone => AwaitReport
    case _ => Stopped
  }

  lemma {:induction false} StepFrom(host: string, l: Local, j: Journal, a: Answer, minted: string)
    ensures var pc := Advance(host, l, j, a, minted).pc; PointBefore(pc) != Stopped ==> l.pc == PointBefore(pc)
  {
    match l.pc
    case Begin => assert a == Proceed && Next(j.pending).Some? ==>
                           PointBefore(Resume(l, Next(j.pending).value, minted).pc) == Stopped;
    case AwaitClaim => assert PointBefore(ClaimAnswer(host, l, a).pc) in {AwaitClaim, Stopped};
    case AwaitInspect => assert PointBefore(InspectAnswer(host, l, a, minted).pc) in {AwaitInspect, Stopped};
    case _ =>
  }

  lemma {:induction false} CameFrom(host: string, j: Journal, trail: seq<Cycle>, turns: seq<Turn>, i: nat)
    requires IsTrail(host, j, trail, turns) && i < |trail| && PointBefore(trail[i].l.pc) != Stopped
    ensures i > 0 && trail[i] == AfterTurn(host, trail[i - 1], turns[i - 1])
    ensures trail[i - 1].l.pc == PointBefore(trail[i].l.pc)
  {
    if i > 0 {
      LastTurn(host, j, trail, turns, i);
      StepFrom(host, trail[i - 1].l, trail[i - 1].j, turns[i - 1].answer, turns[i - 1].minted);
    }
  }

  /** A claim is kept only if it was answered with a message for this host and this attempt, with a thread ID, a message
      ID and a prompt of at most 16384 bytes; and the entry then holds that message. */
  lemma {:induction false} KeptClaimMatches(host: string, j: Journal, trail: seq<Cycle>, turns: seq<Turn>, i: nat)
    requires IsTrail(host, j, trail, turns) && i < |trail| && trail[i].l.pc == SaveReady
    ensures var e := trail[i].l.e;
            && e.message.Some? && CameBy(trail, turns, i, AwaitClaim, Told(Delivered(e.message)))
            && var m := e.message.value;
               m.row.target == host && m.row.attempt == e.id && IsUuid(m.row.thread) && m.id != ""
                 && Utf8Len(m.row.prompt) <= 16384
  {
    CameFrom(host, j, trail, turns, i);
  }

  /** The row has this entry's message, for this host and attempt, unchanged. */
  predicate ShowsSame(host: string, e: Entry, v: View)
    requires e.message.Some?
  {
    v.id == e.message.value.id && v.row.target == host && v.row.attempt == e.id
    && v.row.thread == e.message.value.row.thread && v.row.prompt == e.message.value.row.prompt
  }

  /** The first of three steps to a submission: the message is shown, still this attempt's and in dispatch. */
  lemma {:induction false} CheckedAfterInspect(host: string, j: Journal, trail: seq<Cycle>, turns: seq<Turn>, i: nat)
    returns (v: View)
    requires IsTrail(host, j, trail, turns) && i < |trail| && trail[i].l.pc == CheckAllowed
    ensures trail[i].l.e.message.Some? && CameBy(trail, turns, i, AwaitInspect, Told(Shown(v)))
    ensures ShowsSame(host, trail[i].l.e, v) && v.row.state == Dispatching && trail[i].l.life == v.row.life
  {
    CameFrom(host, j, trail, turns, i);
    v := turns[i - 1].answer.response.view;
  }

  /** The second: the thread is enabled in the journal. */
  lemma {:induction false} SavedAfterCheck(host: string, j: Journal, trail: seq<Cycle>, turns: seq<Turn>, i: nat)
    requires IsTrail(host, j, trail, turns) && i < |trail| && trail[i].l.pc == SaveDispatching
    ensures CameBy(trail, turns, i, CheckAllowed, Proceed) && trail[i].l.e.message.Some?
    ensures trail[i].l.e == trail[i - 1].l.e.(phase := Submitting) && trail[i].l.life == trail[i - 1].l.life
    ensures trail[i].l.e.message.value.row.thread in trail[i - 1].j.enrolled
              && trail[i - 1].j.enrolled[trail[i].l.e.message.value.row.thread]
  {
    CameFrom(host, j, trail, turns, i);
  }

  /** The third: the entry is stored. */
  lemma {:induction false} SubmittedAfterSave(host: string, j: Journal, trail: seq<Cycle>, turns: seq<Turn>, i: nat)
    requires IsTrail(host, j, trail, turns) && i < |trail| && trail[i].l.pc == DoSubmit
    ensures CameBy(trail, turns, i, SaveDispatching, Saved(Stored))
    ensures trail[i].l.e == trail[i - 1].l.e && trail[i].l.life == trail[i - 1].l.life
    ensures Find(trail[i].j.pending, trail[i].l.e.id) == Some(trail[i].l.e)
  {
    CameFrom(host, j, trail, turns, i);
    SaveFind(trail[i - 1].j.pending, trail[i - 1].l.e, trail[i - 1].l.e.id);
  }

  /** A cycle submits only after three answers in a row: the coordinator showed the entry's own message, unchanged and
      being dispatched to this host by this attempt; the journal was read, and the thread was enabled in it; and the
      entry was stored as being submitted. */
  lemma {:induction false} SubmissionIsPrepared(host: string, j: Journal, trail: seq<Cycle>, turns: seq<Turn>, i: nat)
    returns (v: View)
    requires IsTrail(host, j, trail, turns) && i < |trail| && trail[i].l.pc == DoSubmit
    ensures trail[i].l.e.message.Some? && i >= 3
    ensures CameBy(trail, turns, i - 2, AwaitInspect, Told(Shown(v))) && ShowsSame(host, trail[i].l.e, v)
    ensures v.row.state == Dispatching && trail[i].l.life == v.row.life
    ensures CameBy(trail, turns, i - 1, CheckAllowed, Proceed)
    ensures trail[i].l.e.message.value.row.thread in trail[i - 2].j.enrolled
              && trail[i - 2].j.enrolled[trail[i].l.e.message.value.row.thread]
    ensures CameBy(trail, turns, i, SaveDispatching, Saved(Stored))
    ensures Find(trail[i].j.pending, trail[i].l.e.id) == Some(trail[i].l.e)
  {
    SubmittedAfterSave(host, j, trail, turns, i);
    SavedAfterCheck(host, j, trail, turns, i - 1);
    v := CheckedAfterInspect(host, j, trail, turns, i - 2);
  }

  lemma {:induction false} EmptyForAReason(host: string, j: Journal, trail: seq<Cycle>, turns: seq<Turn>, i: nat)
    requires IsTrail(host, j, trail, turns) && i < |trail| && trail[i].l.pc == SaveEmpty
    ensures trail[i].l.e.phase == Done && CameBy(trail, turns, i, AwaitClaim, Told(Delivered(None)))
  {
    CameFrom(host, j, trail, turns, i);
  }

  /** The message was shown, this attempt's own and past its dispatch. */
  ghost predicate WasPast(host: string, e: Entry, a: Answer) {
    && a.Told? && a.response.Shown? && e.message.Some? && ShowsSame(host, e, a.response.view)
    && a.response.view.row.state in {Submitted, Uncertain, Acknowledged, Completed}
  }

  lemma {:induction false} SkipForAReason(host: string, j: Journal, trail: seq<Cycle>, turns: seq<Turn>, i: nat)
    requires IsTrail(host, j, trail, turns) && i < |trail| && trail[i].l.pc == SaveSkip
    ensures trail[i].l.e.phase == Done && i > 0 && CameBy(trail, turns, i, AwaitInspect, turns[i - 1].answer)
    ensures WasPast(host, trail[i].l.e, turns[i - 1].answer)
  {
    CameFrom(host, j, trail, turns, i);
  }

  lemma {:induction false} StoredForAReason(host: string, j: Journal, trail: seq<Cycle>, turns: seq<Turn>, i: nat)
    requires IsTrail(host, j, trail, turns) && i < |trail| && trail[i].l.pc == SaveDone
    ensures trail[i].l.e.phase == Done && i > 0 && CameBy(trail, turns, i, AwaitReport, turns[i - 1].answer)
    ensures turns[i - 1].answer.Told? && turns[i - 1].answer.response.Receipted?
  {
    CameFrom(host, j, trail, turns, i);
  }

  /** An entry is called done only if the claim found nothing, if the message is past its dispatch and still this
      attempt's, or if the coordinator stored the receipt. */
  lemma {:induction false} DoneForAReason(host: string, j: Journal, trail: seq<Cycle>, turns: seq<Turn>, i: nat)
    requires IsTrail(host, j, trail, turns) && i < |trail| && trail[i].l.pc in {SaveEmpty, SaveSkip, SaveDone}
    ensures i > 0 && trail[i].l.e.phase == Done
    ensures trail[i].l.pc == SaveEmpty ==> CameBy(trail, turns, i, AwaitClaim, Told(Delivered(None)))
    ensures trail[i].l.pc == SaveSkip ==>
              CameBy(trail, turns, i, AwaitInspect, turns[i - 1].answer)
                && WasPast(host, trail[i].l.e, turns[i - 1].answer)
    ensures trail[i].l.pc == SaveDone ==>
              && turns[i - 1].answer.Told? && turns[i - 1].answer.response.Receipted?
              && CameBy(trail, turns, i, AwaitReport, turns[i - 1].answer)
  {
    match trail[i].l.pc
    case SaveEmpty => EmptyForAReason(host, j, trail, turns, i);
    case SaveSkip => SkipForAReason(host, j, trail, turns, i);
    case SaveDone => StoredForAReason(host, j, trail, turns, i);
  }

  /** A new entry is begun only if the journal holds nothing open and the coordinator said there is work. */
  lemma {:induction false} BegunForWork(host: string, j: Journal, trail: seq<Cycle>, turns: seq<Turn>, i: nat)
    requires IsTrail(host, j, trail, turns) && i < |trail| && trail[i].l.pc == SaveNew
    ensures i >= 2 && CameBy(trail, turns, i, AskReady, Told(IsReady(true)))
    ensures CameBy(trail, turns, i - 1, Begin, Proceed) && forall e :: e in j.pending ==> e.phase == Done
    ensures trail[i].l.e == Entry(turns[i - 1].minted, Claiming, None, NO_RECEIPT)
  {
    CameFrom(host, j, trail, turns, i);
    CameFrom(host, j, trail, turns, i - 1);
    OnlyStart(host, j, trail, turns, i - 2);
    NoneOpen(j.pending);
  }

  lemma {:induction false} NoneOpen(p: seq<Entry>)
    ensures Next(p).None? ==> forall e :: e in p ==> e.phase == Done
  {
    if p != [] && Next(p).None? {
      NoneOpen(p[1..]);
      assert p == [p[0]] + p[1..];
    }
  }

  /** A cycle begins once. */
  lemma {:induction false} OnlyStart(host: string, j: Journal, trail: seq<Cycle>, turns: seq<Turn>, i: nat)
    requires IsTrail(host, j, trail, turns) && i < |trail| && trail[i].l.pc == Begin
    ensures i == 0
  {
    if i > 0 {
      LastTurn(host, j, trail, turns, i);
    }
  }

  /** A report is made only of an entry that was stored with its receipt, or found so in the journal. */
  lemma {:induction false} ReportsAreStored(host: string, j: Journal, trail: seq<Cycle>, turns: seq<Turn>, i: nat)
    requires IsTrail(host, j, trail, turns) && i < |trail| && trail[i].l.pc == CallReport
    ensures i > 0
    ensures || (trail[i - 1].l.pc in {SaveOutcome, SaveRefused, SaveRecovered} && turns[i - 1].answer == Saved(Stored)
                 && trail[i - 1].l.e == trail[i].l.e && Find(trail[i].j.pending, trail[i].l.e.id) == Some(trail[i].l.e))
            || (trail[i - 1].l.pc == Begin && Next(j.pending) == Some(trail[i].l.e))
  {
    LastTurn(host, j, trail, turns, i);
    SaveFind(trail[i - 1].j.pending, trail[i - 1].l.e, trail[i - 1].l.e.id);
    if trail[i - 1].l.pc == Begin { OnlyStart(host, j, trail, turns, i - 1); }
  }
}
