/** Who is answered what: only valid orders for eligible workers get past the first check, and a launch that the guard
    turns down is taken out of the table, with its requester and everybody who waits for it told. */
module SpawnAnswers {
  import opened Basics
  import opened Spawn
  import opened SpawnSafety
  import opened SpawnPromises
  import opened SpawnReplay

  // ---- valid orders, eligible workers ----

  /** The request ID is the worker's own, and the prompt has text and at most one mebibyte. */
  predicate IsProper(o: Order) {
    && o.worker != "" && o.request == "appserver-spawn-" + o.worker && TrimSpace(o.prompt) != ""
    && Utf8Len(o.prompt) <= 1048576
  }

  /** Some record of the worker said that it may be launched. */
  ghost predicate WasEligible(history: seq<Written>, worker: string) {
    exists k :: 0 <= k < |history| && history[k].worker == worker && history[k].row.eligible
  }

  ghost predicate Fit(w: World, o: Order) {
    IsProper(o) && WasEligible(w.history, o.worker)
  }

  ghost predicate ThreadsFit(w: World, threads: map<nat, Thread>) {
    forall x :: x in threads && threads[x].Handler? && !threads[x].hpc.Reading? ==> Fit(w, threads[x].order)
  }

  ghost predicate LaunchesFit(w: World, launches: map<nat, Launch>) {
    forall l :: l in launches ==> WasEligible(w.history, launches[l].worker)
  }

  ghost predicate TurnsFit(w: World, turns: seq<Turn>) {
    forall i :: 0 <= i < |turns| ==> WasEligible(w.history, turns[i].worker)
  }

  ghost predicate RepliesFit(w: World, replies: seq<Answered>) {
    forall i :: 0 <= i < |replies| && replies[i].reply != Failure ==> Fit(w, replies[i].order)
  }

  ghost predicate Checked(w: World) {
    && ThreadsFit(w, w.threads) && LaunchesFit(w, w.launches) && TurnsFit(w, w.turns) && RepliesFit(w, w.replies)
  }

  ghost predicate Longer(w: World, u: World) {
    |w.history| <= |u.history| && forall k :: 0 <= k < |w.history| ==> u.history[k] == w.history[k]
  }

  lemma {:induction false} EligibleStays(w: World, u: World, worker: string)
    requires Longer(w, u) && WasEligible(w.history, worker)
    ensures WasEligible(u.history, worker)
  {
    var k :| 0 <= k < |w.history| && w.history[k].worker == worker && w.history[k].row.eligible;
    assert u.history[k] == w.history[k];
  }

  /** What a step adds comes from an order that fits, or from what was there. */
  ghost predicate Follows(w: World, u: World) {
    && Longer(w, u) && ThreadsFit(w, u.threads) && LaunchesFit(w, u.launches) && TurnsFit(w, u.turns)
    && RepliesFit(w, u.replies)
  }

  lemma {:induction false} FollowsIsChecked(w: World, u: World)
    requires Follows(w, u)
    ensures Checked(u)
  {
    forall worker | WasEligible(w.history, worker) ensures WasEligible(u.history, worker) {
      EligibleStays(w, u, worker);
    }
  }

  // The ways in which a handler changes its parts of the world.

  lemma {:induction false} AtFits(w: World, tid: nat, t: Thread)
    requires ThreadsFit(w, w.threads) && (t.Handler? && !t.hpc.Reading? ==> Fit(w, t.order))
    ensures ThreadsFit(w, w.threads[tid := t])
  {
  }

  lemma {:induction false} GoneFits(w: World, tid: nat)
    requires ThreadsFit(w, w.threads)
    ensures ThreadsFit(w, w.threads - {tid})
  {
  }

  lemma {:induction false} ReplyFits(w: World, o: Order, r: Reply)
    requires RepliesFit(w, w.replies) && (r != Failure ==> Fit(w, o))
    ensures RepliesFit(w, w.replies + [Answered(o, r)])
  {
  }

  lemma {:induction false} AnswerFollows(w: World, tid: nat, o: Order, r: Reply)
    requires Checked(w) && (r != Failure ==> Fit(w, o))
    ensures Follows(w, Answer(w, tid, o, r))
  {
    GoneFits(w, tid);
    ReplyFits(w, o, r);
  }

  lemma {:induction false} AtFollows(w: World, tid: nat, p: nat, o: Order, pc: HandlerPc)
    requires Checked(w) && (pc.Reading? || Fit(w, o))
    ensures Follows(w, At(w, tid, p, o, pc))
  {
    AtFits(w, tid, Handler(p, o, pc));
  }

  /** The record read is one that was written. */
  lemma {:induction false} RowWasWritten(w: World, worker: string)
    requires LedgerInv(None, w) && worker in w.ledger && w.ledger[worker].eligible
    ensures WasEligible(w.history, worker)
  {
    var x := Written(worker, w.ledger[worker]);
    var k :| 0 <= k < |w.history| && w.history[k] == x;
  }

  lemma {:induction false} ReadFollows(w: World, tid: nat, p: nat, o: Order)
    requires Checked(w) && LedgerInv(None, w)
    ensures Follows(w, ReadStep(w, tid, p, o))
  {
    if !ValidOrder(o) || o.worker !in w.ledger || !w.ledger[o.worker].eligible {
      AnswerFollows(w, tid, o, Failure);
    } else {
      RowWasWritten(w, o.worker);
      AtFollows(w, tid, p, o, Locking(w.ledger[o.worker]));
    }
  }

  lemma {:induction false} EnterFollows(w: World, u: World, tid: nat, p: nat, o: Order, l: nat, launch: Launch)
    requires Checked(w) && Fit(w, o) && launch.worker == o.worker
    requires u == At(w, tid, p, o, Guarding(l)).(table := u.table, launches := w.launches[l := launch])
    ensures Follows(w, u)
  {
    AtFits(w, tid, Handler(p, o, Guarding(l)));
  }

  lemma {:induction false} LockFollows(w: World, tid: nat, p: nat, o: Order, row: Row, l: nat)
    requires Checked(w) && Fit(w, o)
    ensures Follows(w, LockStep(w, tid, p, o, row, l))
  {
    var digest := DigestOf(o, row);
    var key := (p, o.worker);
    if key in w.table && w.table[key] in w.launches {
      if w.launches[w.table[key]].ask != Ask(o.request, digest) {
        AnswerFollows(w, tid, o, Conflict);
      } else {
        AtFollows(w, tid, p, o, Waiting(w.table[key], false));
      }
    } else {
      match ReplayOf(row, o.request, digest)
      case Refused => AnswerFollows(w, tid, o, Conflict);
      case Replayed => AnswerFollows(w, tid, o, Success(row.thread, row.turn, true));
      case Fresh =>
        EnterFollows(w, LockStep(w, tid, p, o, row, l), tid, p, o, l,
          Launch(p, o.worker, Ask(o.request, digest), None));
    }
  }

  lemma {:induction false} GrantFits(w: World, tid: nat, t: Thread, child: nat, r: Thread)
    requires ThreadsFit(w, w.threads) && t.Handler? && Fit(w, t.order) && r.Runner?
    ensures ThreadsFit(w, w.threads[tid := t][child := r])
  {
    AtFits(w, tid, t);
  }

  /** Nothing but the records has changed. */
  ghost predicate OnlyRecords(w: World, v: World) {
    && Longer(w, v) && v.threads == w.threads && v.launches == w.launches && v.turns == w.turns
    && v.replies == w.replies
  }

  lemma {:induction false} PutOnlyRecords(w: World, id: string, row: Row, c: Commit)
    ensures OnlyRecords(w, Put(w, id, row, c))
  {
  }

  lemma {:induction false} DroppingFollows(w: World, v: World, tid: nat, p: nat, o: Order, pc: HandlerPc)
    requires Checked(w) && Fit(w, o) && OnlyRecords(w, v)
    ensures Follows(w, At(v, tid, p, o, pc))
  {
    AtFits(w, tid, Handler(p, o, pc));
  }

  lemma {:induction false} GrantFollows(w: World, v: World, tid: nat, p: nat, o: Order, l: nat, child: nat)
    requires Checked(w) && Fit(w, o) && OnlyRecords(w, v)
    ensures Follows(w, v.(threads := v.threads[tid := Handler(p, o, Waiting(l, true))][child := Runner(p, l, Starting)],
                          granted := v.granted[o.worker := l]))
  {
    GrantFits(w, tid, Handler(p, o, Waiting(l, true)), child, Runner(p, l, Starting));
  }

  lemma {:induction false} GuardFollows(w: World, tid: nat, p: nat, o: Order, l: nat, c: Choice)
    requires Checked(w) && Fit(w, o)
    ensures Follows(w, GuardStep(w, tid, p, o, l, c))
  {
    if l !in w.launches || !GuardHolds(w, o.worker) {
      DroppingFollows(w, w, tid, p, o, Dropping(l, if o.worker in w.ledger then Conflict else Failure));
    } else {
      var ask := w.launches[l].ask;
      var row := w.ledger[o.worker].(requests := [ask]);
      PutOnlyRecords(w, o.worker, row, c.commit);
      var u := Put(w, o.worker, row, c.commit);
      var v := if c.commit == Aborted then u else u.(asked := u.asked[o.worker := ask]);
      if c.commit == Committed {
        GrantFollows(w, v, tid, p, o, l, c.newId);
      } else {
        DroppingFollows(w, v, tid, p, o, Dropping(l, Failure));
      }
    }
  }

  lemma {:induction false} DropFollows(w: World, tid: nat, p: nat, o: Order, l: nat, e: Reply)
    requires Checked(w) && Fit(w, o)
    ensures Follows(w, At(w, tid, p, o, Failing(l, e)).(table := Drop(w, p, o.worker, l)))
    ensures Follows(w, Answer(w, tid, o, e).(launches := Finish(w, l, e)))
  {
    AtFits(w, tid, Handler(p, o, Failing(l, e)));
    AnswerFollows(w, tid, o, e);
  }

  lemma {:induction false} WaitFollows(w: World, tid: nat, o: Order, l: nat, own: bool)
    requires Checked(w) && Fit(w, o)
    ensures Follows(w, WaitStep(w, tid, o, l, own))
  {
    if l in w.launches && w.launches[l].outcome.Some? {
      var r := w.launches[l].outcome.value;
      AnswerFollows(w, tid, o, if r.Success? && !own then Success(r.thread, r.turn, true) else r);
    }
  }

  lemma {:induction false} HandlerFollows(w: World, tid: nat, c: Choice)
    requires Checked(w) && LedgerInv(None, w) && Enabled(w, Step(tid, c)) && w.threads[tid].Handler?
    ensures Follows(w, HandlerStep(w, tid, w.threads[tid], c))
  {
    var t := w.threads[tid];
    match t.hpc
    case Reading => ReadFollows(w, tid, t.process, t.order);
    case Locking(row) => LockFollows(w, tid, t.process, t.order, row, c.newId);
    case Guarding(l) => GuardFollows(w, tid, t.process, t.order, l, c);
    case Dropping(l, e) => DropFollows(w, tid, t.process, t.order, l, e);
    case Failing(l, e) => DropFollows(w, tid, t.process, t.order, l, e);
    case Waiting(l, own) => WaitFollows(w, tid, t.order, l, own);
  }

  lemma {:induction false} IdentityOnlyRecords(w: World, id: string, thread: string, turn: string, c: Commit)
    ensures OnlyRecords(w, WithIdentity(w, id, thread, turn, c))
  {
    if id in w.ledger { PutOnlyRecords(w, id, w.ledger[id].(thread := thread, turn := turn), c); }
  }

  lemma {:induction false} GoFollows(w: World, v: World, tid: nat, t: Thread, pc: RunnerPc)
    requires Checked(w) && OnlyRecords(w, v) && t.Runner?
    ensures Follows(w, Go(v, tid, t, pc))
  {
    AtFits(w, tid, t.(rpc := pc));
  }

  lemma {:induction false} FinishFollows(w: World, tid: nat, t: Thread, pc: RunnerPc, r: Reply)
    requires Checked(w) && t.Runner?
    ensures Follows(w, Go(w, tid, t, pc).(launches := Finish(w, t.launch, r)))
  {
    AtFits(w, tid, t.(rpc := pc));
  }

  lemma {:induction false} StartFollows(w: World, tid: nat, t: Thread)
    requires Checked(w) && t.Runner? && t.launch in w.launches
    ensures Follows(w, Go(w, tid, t, Running(false)).(turns := w.turns + [Turn(w.launches[t.launch].worker, t.launch)]))
  {
    AtFits(w, tid, t.(rpc := Running(false)));
  }

  lemma {:induction false} LeaveFollows(w: World, tid: nat, table: map<(nat, string), nat>)
    requires Checked(w)
    ensures Follows(w, w.(threads := w.threads - {tid}, table := table))
  {
    GoneFits(w, tid);
  }

  lemma {:induction false} RunningFollows(w: World, tid: nat, t: Thread, id: string, persisted: bool, c: Choice)
    requires Checked(w) && t.Runner?
    ensures Follows(w, RunningStep(w, tid, t, id, persisted, c))
  {
    if c.ended {
      GoFollows(w, w, tid, t, if persisted then Closing(c.thread, c.turn)
                              else if c.thread != "" && c.turn != "" then Recovering(c.thread, c.turn)
                              else Burying(c.thread, c.turn));
    } else {
      IdentityOnlyRecords(w, id, c.thread, c.turn, c.commit);
      GoFollows(w, WithIdentity(w, id, c.thread, c.turn, c.commit), tid, t,
                if Went(w, id, c.commit) then Announcing(c.thread, c.turn) else Running(persisted));
    }
  }

  lemma {:induction false} RunnerFollows(w: World, tid: nat, t: Thread, c: Choice)
    requires Checked(w) && t.Runner? && t.launch in w.launches
    ensures Follows(w, RunnerStep(w, tid, t, c))
  {
    var id := w.launches[t.launch].worker;
    match t.rpc
    case Starting => StartFollows(w, tid, t);
    case Running(persisted) => RunningFollows(w, tid, t, id, persisted, c);
    case Announcing(th, tu) => FinishFollows(w, tid, t, Running(true), Success(th, tu, false));
    case Closing(th, tu) =>
      IdentityOnlyRecords(w, id, th, tu, c.commit);
      GoFollows(w, WithIdentity(w, id, th, tu, c.commit), tid, t, Leaving);
    case Recovering(th, tu) =>
      IdentityOnlyRecords(w, id, th, tu, c.commit);
      GoFollows(w, WithIdentity(w, id, th, tu, c.commit), tid, t,
                if Went(w, id, c.commit) then Recovered(th, tu) else Burying(th, tu));
    case Recovered(th, tu) => FinishFollows(w, tid, t, Leaving, Success(th, tu, false));
    case Burying(th, tu) =>
      IdentityOnlyRecords(w, id, th, tu, c.commit);
      GoFollows(w, WithIdentity(w, id, th, tu, c.commit), tid, t, Telling);
    case Telling => FinishFollows(w, tid, t, Leaving, Failure);
    case Leaving => LeaveFollows(w, tid, Drop(w, t.process, id, t.launch));
  }

  lemma {:induction false} NextFollows(w: World, ev: Event)
    requires Checked(w) && LedgerInv(None, w) && Enabled(w, ev)
    ensures Follows(w, Apply(w, ev))
  {
    match ev
    case Step(tid, c) =>
      if w.threads[tid].Handler? { HandlerFollows(w, tid, c); } else { RunnerFollows(w, tid, w.threads[tid], c); }
    case _ => OtherFollows(w, ev);
  }

  lemma {:induction false} OtherFollows(w: World, ev: Event)
    requires Checked(w) && Enabled(w, ev) && !ev.Step?
    ensures Follows(w, Apply(w, ev))
  {
  }

  lemma {:induction false} AlwaysChecked(ws: seq<World>, evs: seq<Event>, n: nat)
    requires IsRun(ws, evs) && Initial(ws[0]) && n < |ws|
    ensures Checked(ws[n])
  {
    if n > 0 {
      AlwaysChecked(ws, evs, n - 1);
      Reachable(None, ws, evs, n - 1);
      NextFollows(ws[n - 1], evs[n - 1]);
      FollowsIsChecked(ws[n - 1], ws[n]);
    }
  }

  /** In every run only a proper order, for a worker that some record called eligible, is answered anything but a
      failure; and a turn starts only for such a worker. */
  lemma {:induction false} OnlyFitOrdersPass(ws: seq<World>, evs: seq<Event>, n: nat)
    requires IsRun(ws, evs) && Initial(ws[0]) && n < |ws|
    ensures forall i :: 0 <= i < |ws[n].replies| && ws[n].replies[i].reply != Failure ==>
              IsProper(ws[n].replies[i].order) && WasEligible(ws[n].history, ws[n].replies[i].order.worker)
    ensures forall i :: 0 <= i < |ws[n].turns| ==> WasEligible(ws[n].history, ws[n].turns[i].worker)
  {
    AlwaysChecked(ws, evs, n);
  }

  /** And the others are answered a failure at once, from any world. */
  lemma {:induction false} UnfitIsRefused(w: World, o: Order, p: nat, tid: nat) returns (u: World)
    requires tid !in w.threads && !(IsProper(o) && o.worker in w.ledger && w.ledger[o.worker].eligible)
    ensures Leads(w, u) && u == w.(replies := w.replies + [Answered(o, Failure)])
  {
    var a := Apply(w, Arrive(tid, p, o));
    LeadsByOne(w, Arrive(tid, p, o));
    u := Apply(a, Step(tid, Plain(0)));
    LeadsByOne(a, Step(tid, Plain(0)));
    LeadsOn(w, a, u);
    assert u.threads == w.threads;
  }

  // ---- a launch that fails ----

  /** The answer when the guarded transaction does not go through. */
  function Refusal(w: World, o: Order): Reply {
    if o.worker in w.ledger
       && (w.ledger[o.worker].thread != "" || w.ledger[o.worker].turn != "" || w.ledger[o.worker].requests != [])
    then Conflict else Failure
  }

  lemma {:induction false} GuardDrops(w: World, o: Order, p: nat, tid: nat, l: nat, c: Choice)
    requires l in w.launches && (!GuardHolds(w, o.worker) || c.commit != Committed)
    ensures var a := GuardStep(w, tid, p, o, l, c);
            && a.threads == w.threads[tid := Handler(p, o, Dropping(l, Refusal(w, o)))] && a.launches == w.launches
            && a.table == w.table && a.replies == w.replies
  {
  }

  /** When the guard finds the worker asked before or with an identity, or its commit fails or is lost, the launch
      leaves the table, everybody who waits for it is told, and so is the requester: a conflict in the first case, a
      failure in the others. */
  lemma {:induction false} RefusalIsTold(w: World, o: Order, p: nat, tid: nat, l: nat, c: Choice) returns (u: World)
    requires tid in w.threads && w.threads[tid] == Handler(p, o, Guarding(l)) && l in w.launches
    requires c.newId !in w.threads && (!GuardHolds(w, o.worker) || c.commit != Committed)
    ensures Leads(w, u) && u.threads == w.threads - {tid}
    ensures u.replies == w.replies + [Answered(o, Refusal(w, o))]
    ensures l in u.launches && u.launches[l].outcome == Some(Refusal(w, o))
    ensures (p, o.worker) in u.table ==> u.table[(p, o.worker)] != l
  {
    var a := Apply(w, Step(tid, c));
    LeadsByOne(w, Step(tid, c));
    GuardDrops(w, o, p, tid, l, c);
    var b := Apply(a, Step(tid, Plain(0)));
    LeadsByOne(a, Step(tid, Plain(0)));
    LeadsOn(w, a, b);
    u := Apply(b, Step(tid, Plain(0)));
    LeadsByOne(b, Step(tid, Plain(0)));
    LeadsOn(w, b, u);
  }
}
