/** What launching promises, over every run: one turn per worker, and every success names a committed identity. */
module SpawnPromises {
  import opened Basics
  import opened Spawn
  import opened SpawnSafety

  // ---- runner steps ----

  lemma {:induction false} SameTables(who: Option<string>, w: World, u: World)
    requires GrantInv(who, w) && LaunchInv(who, w) && TurnInv(who, w) && ReplyInv(who, w) && Grows(who, w, u)
    requires u == w.(ledger := u.ledger, history := u.history, threads := u.threads)
    ensures GrantInv(who, u) && LaunchInv(who, u) && TurnInv(who, u) && ReplyInv(who, u)
  {
    forall l | l in u.launches ensures LaunchOk(who, u, l) { GrantedOutcome(who, w, u, l); }
    assert u.replies[..|w.replies|] == w.replies;
    RepliesGrow(who, w, u);
  }

  lemma {:induction false} IdentityStep(who: Option<string>, w: World, u: World, tid: nat, thread: string, turn: string,
          c: Commit,
          pc: RunnerPc)
    requires Inv(who, w) && tid in w.threads && w.threads[tid].Runner? && w.threads[tid].launch in w.launches
    requires pc != Starting
    requires u == Go(WithIdentity(w, w.launches[w.threads[tid].launch].worker, thread, turn, c), tid, w.threads[tid],
             pc)
    requires pc.Announcing? || pc.Recovered? ==>
               Went(w, w.launches[w.threads[tid].launch].worker, c) && pc.thread == thread && pc.turn == turn
    ensures Inv(who, u)
  {
    var t := w.threads[tid];
    var v := WithIdentity(w, w.launches[t.launch].worker, thread, turn, c);
    IdentityWritten(who, w, w.launches[t.launch].worker, thread, turn, c);
    SameTables(who, w, v);
    RunnerMoves(who, w, v, u, tid, pc);
    OtherThreads(who, v, u);
  }

  lemma {:induction false} RunnerStands(who: Option<string>, w: World, v: World, u: World, tid: nat, pc: RunnerPc)
    requires tid in w.threads && w.threads[tid].Runner? && RunnerOk(who, w, w.threads[tid]) && Grows(who, w, v)
    requires v.threads == w.threads && u == Go(v, tid, w.threads[tid], pc)
    requires match pc
             case Announcing(th, tu) => Wrote(v, w.launches[w.threads[tid].launch].worker, th, tu)
             case Recovered(th, tu) => Wrote(v, w.launches[w.threads[tid].launch].worker, th, tu)
             case _ => true
    ensures RunnerOk(who, u, u.threads[tid]) && Grows(who, w, u)
  {
    if pc.Announcing? || pc.Recovered? {
      WroteGrows(who, v, u, w.launches[w.threads[tid].launch].worker, pc.thread, pc.turn);
    }
  }

  lemma {:induction false} RunnerMoves(who: Option<string>, w: World, v: World, u: World, tid: nat, pc: RunnerPc)
    requires ThreadInv(who, w) && tid in w.threads && w.threads[tid].Runner? && Grows(who, w, v) && pc != Starting
    requires w.threads[tid].launch in w.launches
    requires v.threads == w.threads && v.turns == w.turns && u == Go(v, tid, w.threads[tid], pc)
    requires pc.Announcing? || pc.Recovered? ==>
               Wrote(v, w.launches[w.threads[tid].launch].worker, pc.thread, pc.turn)
    ensures ThreadInv(who, u)
  {
    assert RunnerOk(who, w, w.threads[tid]);
    RunnerStands(who, w, v, u, tid, pc);
    OneThreadMoves(who, w, u, tid);
  }

  lemma {:induction false} BeginKeepsTables(who: Option<string>, w: World, tid: nat)
    requires Inv(who, w) && tid in w.threads && w.threads[tid].Runner? && w.threads[tid].rpc == Starting
    requires w.threads[tid].launch in w.launches
    ensures var t := w.threads[tid];
            var v := w.(turns := w.turns + [Turn(w.launches[t.launch].worker, t.launch)]);
            LedgerInv(who, v) && GrantInv(who, v) && LaunchInv(who, v) && TurnInv(who, v) && ReplyInv(who, v)
  {
    var t := w.threads[tid];
    var v := w.(turns := w.turns + [Turn(w.launches[t.launch].worker, t.launch)]);
    assert RunnerOk(who, w, t);
    assert Awaits(who, w, tid) ==> !Begun(w.turns, t.launch);
    forall l | l in v.launches ensures LaunchOk(who, v, l) { assert LaunchOk(who, w, l); }
    forall a | a in v.replies ensures ReplyOk(who, v, a) { assert ReplyOk(who, w, a); }
    forall x | x in v.history ensures RecordOk(who, v, x) { assert RecordOk(who, w, x); }
  }

  lemma {:induction false} StartKeepsInv(who: Option<string>, w: World, tid: nat)
    requires Inv(who, w) && tid in w.threads && w.threads[tid].Runner? && w.threads[tid].rpc == Starting
    requires w.threads[tid].launch in w.launches
    ensures var t := w.threads[tid];
            Inv(who, Go(w, tid, t, Running(false)).(turns := w.turns + [Turn(w.launches[t.launch].worker, t.launch)]))
  {
    var t := w.threads[tid];
    var v := w.(turns := w.turns + [Turn(w.launches[t.launch].worker, t.launch)]);
    var u := Go(w, tid, t, Running(false)).(turns := v.turns);
    BeginKeepsTables(who, w, tid);
    SameThreads(who, w, u, tid, Running(false));
    OtherThreads(who, v, u);
  }

  /** The runner moves on without touching ledger or grants. */
  lemma {:induction false} SameThreads(who: Option<string>, w: World, u: World, tid: nat, pc: RunnerPc)
    requires ThreadInv(who, w) && tid in w.threads && w.threads[tid].Runner? && pc != Starting && !pc.Announcing?
    requires !pc.Recovered?
    requires Grows(who, w, u) && u.threads == w.threads[tid := w.threads[tid].(rpc := pc)]
    requires u.turns == w.turns || exists id :: u.turns == w.turns + [Turn(id, w.threads[tid].launch)]
    ensures ThreadInv(who, u)
  {
    assert RunnerOk(who, w, w.threads[tid]);
    OneThreadMoves(who, w, u, tid);
  }

  lemma {:induction false} FinishGrows(who: Option<string>, w: World, l: nat, r: Reply)
    requires GrantInv(who, w)
    ensures var v := w.(launches := Finish(w, l, r));
            Grows(who, w, v) && GrantInv(who, v)
  {
  }

  lemma {:induction false} FinishKeepsLaunches(who: Option<string>, w: World, l: nat, r: Reply)
    requires GrantInv(who, w) && LaunchInv(who, w) && Granted(who, w, l)
    requires r.Success? ==> Wrote(w, w.launches[l].worker, r.thread, r.turn)
    ensures LaunchInv(who, w.(launches := Finish(w, l, r)))
  {
    var v := w.(launches := Finish(w, l, r));
    FinishGrows(who, w, l, r);
    if r.Success? { WroteGrows(who, w, v, w.launches[l].worker, r.thread, r.turn); }
    LaunchesGrow(who, w, v, l);
  }

  lemma {:induction false} FinishKeepsTables(who: Option<string>, w: World, l: nat, r: Reply)
    requires Inv(who, w) && Granted(who, w, l)
    requires r.Success? ==> Wrote(w, w.launches[l].worker, r.thread, r.turn)
    ensures var v := w.(launches := Finish(w, l, r));
            LedgerInv(who, v) && GrantInv(who, v) && LaunchInv(who, v) && TurnInv(who, v) && ReplyInv(who, v)
  {
    var v := w.(launches := Finish(w, l, r));
    FinishGrows(who, w, l, r);
    FinishKeepsLaunches(who, w, l, r);
    assert v.replies[..|w.replies|] == w.replies;
    RepliesGrow(who, w, v);
    forall x | x in v.history ensures RecordOk(who, v, x) { assert RecordOk(who, w, x); }
  }

  /** finishStart: a success is announced only after its identity was committed. */
  lemma {:induction false} FinishKeepsInv(who: Option<string>, w: World, tid: nat, r: Reply, pc: RunnerPc)
    requires Inv(who, w) && tid in w.threads && w.threads[tid].Runner? && w.threads[tid].launch in w.launches
    requires pc != Starting && !pc.Announcing? && !pc.Recovered?
    requires r.Success? ==> Wrote(w, w.launches[w.threads[tid].launch].worker, r.thread, r.turn)
    ensures Inv(who, Go(w, tid, w.threads[tid], pc).(launches := Finish(w, w.threads[tid].launch, r)))
  {
    var t := w.threads[tid];
    var v := w.(launches := Finish(w, t.launch, r));
    var u := Go(w, tid, t, pc).(launches := v.launches);
    assert RunnerOk(who, w, t);
    FinishGrows(who, w, t.launch, r);
    FinishKeepsTables(who, w, t.launch, r);
    SameThreads(who, w, u, tid, pc);
    OtherThreads(who, v, u);
  }

  lemma {:induction false} LeaveKeepsInv(who: Option<string>, w: World, tid: nat, table: map<(nat, string), nat>,
          threads: map<nat, Thread>)
    requires Inv(who, w)
    requires forall k :: k in table ==> k in w.table && table[k] == w.table[k]
    requires forall x :: x in threads ==> x in w.threads && threads[x] == w.threads[x]
    ensures Inv(who, w.(table := table, threads := threads))
  {
    var u := w.(table := table, threads := threads);
    forall l | l in u.launches ensures LaunchOk(who, u, l) { assert LaunchOk(who, w, l); }
    forall a | a in u.replies ensures ReplyOk(who, u, a) { assert ReplyOk(who, w, a); }
    forall x | x in u.history ensures RecordOk(who, u, x) { assert RecordOk(who, w, x); }
    forall x | x in u.threads ensures ThreadOk(who, u, u.threads[x]) { ThreadGrows(who, w, u, w.threads[x]); }
    forall x, y | SameRunner(who, u, x, y) ensures x == y { assert SameRunner(who, w, x, y); }
  }

  lemma {:induction false} RunnerKeepsInv(who: Option<string>, w: World, tid: nat, c: Choice)
    requires Inv(who, w) && tid in w.threads && w.threads[tid].Runner? && w.threads[tid].launch in w.launches
    ensures Inv(who, RunnerStep(w, tid, w.threads[tid], c))
  {
    var t := w.threads[tid];
    var id := w.launches[t.launch].worker;
    var u := RunnerStep(w, tid, t, c);
    assert RunnerOk(who, w, t);
    match t.rpc
    case Starting => StartKeepsInv(who, w, tid);
    case Running(persisted) => RunningKeepsInv(who, w, tid, c);
    case Announcing(th, tu) => FinishKeepsInv(who, w, tid, Success(th, tu, false), Running(true));
    case Closing(th, tu) => IdentityStep(who, w, u, tid, th, tu, c.commit, Leaving);
    case Recovering(th, tu) =>
      IdentityStep(who, w, u, tid, th, tu, c.commit, if Went(w, id, c.commit) then Recovered(th, tu)
                                                     else Burying(th, tu));
    case Recovered(th, tu) => FinishKeepsInv(who, w, tid, Success(th, tu, false), Leaving);
    case Burying(th, tu) => IdentityStep(who, w, u, tid, th, tu, c.commit, Telling);
    case Telling => FinishKeepsInv(who, w, tid, Failure, Leaving);
    case Leaving => LeaveKeepsInv(who, w, tid, u.table, u.threads);
  }

  lemma {:induction false} RunningKeepsInv(who: Option<string>, w: World, tid: nat, c: Choice)
    requires Inv(who, w) && tid in w.threads && w.threads[tid].Runner? && w.threads[tid].launch in w.launches
    requires w.threads[tid].rpc.Running?
    ensures Inv(who, RunnerStep(w, tid, w.threads[tid], c))
  {
    var t := w.threads[tid];
    var id := w.launches[t.launch].worker;
    var u := RunnerStep(w, tid, t, c);
    if c.ended {
      IdentityStep(who, w, u, tid, "", "", Aborted, u.threads[tid].rpc);
    } else {
      IdentityStep(who, w, u, tid, c.thread, c.turn, c.commit, u.threads[tid].rpc);
    }
  }

  // ---- every event ----

  lemma {:induction false} HandlerKeepsInv(who: Option<string>, w: World, tid: nat, c: Choice)
    requires Inv(who, w) && Enabled(w, Step(tid, c)) && w.threads[tid].Handler?
    ensures Inv(who, HandlerStep(w, tid, w.threads[tid], c))
  {
    match w.threads[tid].hpc
    case Reading => ReadKeepsInv(who, w, tid);
    case Locking(_) => LockKeepsInv(who, w, tid, c.newId);
    case Guarding(_) => GuardKeepsInv(who, w, tid, c);
    case Dropping(_, _) => DropKeepsInv(who, w, tid);
    case Failing(_, _) => FailKeepsInv(who, w, tid);
    case Waiting(_, _) => WaitKeepsInv(who, w, tid);
  }

  lemma {:induction false} ArriveKeepsInv(who: Option<string>, w: World, tid: nat, p: nat, o: Order)
    requires Inv(who, w) && tid !in w.threads
    ensures Inv(who, At(w, tid, p, o, Reading))
  {
    var u := At(w, tid, p, o, Reading);
    forall x | x in u.threads ensures ThreadOk(who, u, u.threads[x]) {
      if x != tid { ThreadGrows(who, w, u, w.threads[x]); }
    }
    forall x, y | SameRunner(who, u, x, y) ensures x == y { assert SameRunner(who, w, x, y); }
    OtherThreads(who, w, u);
  }

  lemma {:induction false} EditKeepsInv(who: Option<string>, w: World, id: string, row: Row)
    requires Inv(who, w) && KeepsRequests(who, w, Edit(id, row))
    ensures Inv(who, Apply(w, Edit(id, row)))
  {
    var v := Apply(w, Edit(id, row));
    LedgerWrite(who, w, v, id, row);
    SameTables(who, w, v);
    forall x | x in v.threads ensures ThreadOk(who, v, v.threads[x]) { ThreadGrows(who, w, v, w.threads[x]); }
    forall x, y | SameRunner(who, v, x, y) ensures x == y { assert SameRunner(who, w, x, y); }
  }

  lemma {:induction false} NextKeepsInv(who: Option<string>, w: World, ev: Event)
    requires Inv(who, w) && Enabled(w, ev) && KeepsRequests(who, w, ev)
    ensures Inv(who, Apply(w, ev))
  {
    match ev
    case Arrive(tid, p, o) => ArriveKeepsInv(who, w, tid, p, o);
    case Step(tid, c) =>
      if w.threads[tid].Handler? { HandlerKeepsInv(who, w, tid, c); } else { RunnerKeepsInv(who, w, tid, c); }
    case Cancel(tid) => AnswerKeepsInv(who, w, tid, Failure);
    case Crash(p) => LeaveKeepsInv(who, w, 0, Apply(w, ev).table, Apply(w, ev).threads);
    case Edit(id, row) => EditKeepsInv(who, w, id, row);
  }

  /** Nobody else trims or invents this worker's requested-event; what happens to other workers' is free. */
  ghost predicate Untrimmed(who: Option<string>, ws: seq<World>, evs: seq<Event>) {
    IsRun(ws, evs) && forall i {:trigger evs[i]} :: 0 <= i < |evs| ==> KeepsRequests(who, ws[i], evs[i])
  }

  lemma {:induction false} Reachable(who: Option<string>, ws: seq<World>, evs: seq<Event>, n: nat)
    requires Untrimmed(who, ws, evs) && Initial(ws[0]) && n < |ws|
    ensures Inv(who, ws[n])
  {
    if n > 0 {
      Reachable(who, ws, evs, n - 1);
      NextKeepsInv(who, ws[n - 1], evs[n - 1]);
    }
  }

  // ---- the promises ----

  /** RunTurnCoordinated starts at most once for a worker whose requested-event is kept, whatever the processes, stale
      reads, lost commits and crashes, and whatever is done to other workers. */
  lemma {:induction false} SingleLaunch(ws: seq<World>, evs: seq<Event>, n: nat, i: nat, j: nat)
    requires IsRun(ws, evs) && Initial(ws[0]) && n < |ws| && i < j < |ws[n].turns|
    requires Untrimmed(Some(ws[n].turns[i].worker), ws, evs)
    ensures ws[n].turns[i].worker != ws[n].turns[j].worker
  {
    Reachable(Some(ws[n].turns[i].worker), ws, evs, n);
  }

  /** Every success reply names an identity that a committed update of that worker wrote, in every run. */
  lemma {:induction false} SuccessIsDurable(ws: seq<World>, evs: seq<Event>, n: nat, i: nat) returns (k: nat)
    requires IsRun(ws, evs) && Initial(ws[0]) && n < |ws| && i < |ws[n].replies| && ws[n].replies[i].reply.Success?
    ensures var a := ws[n].replies[i];
            && k < |ws[n].history| && ws[n].history[k].worker == a.order.worker
            && ws[n].history[k].row.thread == a.reply.thread && ws[n].history[k].row.turn == a.reply.turn
  {
    Reachable(None, ws, evs, n);
    var w, a := ws[n], ws[n].replies[i];
    assert ReplyOk(None, w, a);
    k :| 0 <= k < |w.history| && w.history[k].worker == a.order.worker
         && w.history[k].row.thread == a.reply.thread && w.history[k].row.turn == a.reply.turn;
  }

  /** Two success replies for a worker whose requested-event is kept answer the same request, prompt and model. */
  lemma {:induction false} SuccessesAgree(ws: seq<World>, evs: seq<Event>, n: nat, i: nat, j: nat)
    requires IsRun(ws, evs) && Initial(ws[0]) && n < |ws| && i < |ws[n].replies| && j < |ws[n].replies|
    requires ws[n].replies[i].reply.Success? && ws[n].replies[j].reply.Success?
    requires Untrimmed(Some(ws[n].replies[i].order.worker), ws, evs)
    ensures ws[n].replies[i].order.worker == ws[n].replies[j].order.worker ==>
              ws[n].replies[i].order == ws[n].replies[j].order
  {
    var who := Some(ws[n].replies[i].order.worker);
    Reachable(who, ws, evs, n);
    assert ReplyOk(who, ws[n], ws[n].replies[i]) && ReplyOk(who, ws[n], ws[n].replies[j]);
  }

  // ---- why the requested-event must not be trimmed ----

  predicate Launchable(w: World, o: Order, p: nat, tid: nat, l: nat, rid: nat) {
    && ValidOrder(o) && GuardHolds(w, o.worker) && w.ledger[o.worker].eligible && (p, o.worker) !in w.table
    && tid !in w.threads && rid !in w.threads && tid != rid && l !in w.launches
  }

  function Plain(newId: nat): Choice {
    Choice(Committed, "", "", false, newId)
  }

  function OneStep(w: World, ev: Event): seq<World>
    requires Enabled(w, ev)
  {
    [w, Apply(w, ev)]
  }

  lemma {:induction false} JoinRuns(ws: seq<World>, evs: seq<Event>, vs: seq<World>, fs: seq<Event>)
    requires IsRun(ws, evs) && IsRun(vs, fs) && ws[|ws| - 1] == vs[0]
    ensures IsRun(ws + vs[1..], evs + fs)
    ensures (ws + vs[1..])[0] == ws[0] && (ws + vs[1..])[|ws + vs[1..]| - 1] == vs[|vs| - 1]
  {
    var all, es := ws + vs[1..], evs + fs;
    forall i {:trigger es[i]} | 0 <= i < |es| ensures Enabled(all[i], es[i]) && all[i + 1] == Apply(all[i], es[i]) {
      JoinedAt(ws, evs, vs, fs, i);
    }
  }

  /** A request arrives and reads the worker record. */
  lemma {:induction false} ReadRun(w: World, o: Order, p: nat, tid: nat) returns (ws: seq<World>, evs: seq<Event>)
    requires ValidOrder(o) && o.worker in w.ledger && w.ledger[o.worker].eligible && tid !in w.threads
    ensures IsRun(ws, evs) && ws[0] == w
    ensures ws[|ws| - 1] == w.(threads := w.threads[tid := Handler(p, o, Locking(w.ledger[o.worker]))])
  {
    var a := Apply(w, Arrive(tid, p, o));
    ws, evs := [w, a, Apply(a, Step(tid, Plain(0)))], [Arrive(tid, p, o), Step(tid, Plain(0))];
    assert ws[2].threads == w.threads[tid := Handler(p, o, Locking(w.ledger[o.worker]))];
  }

  /** One critical section enters the launch. */
  lemma {:induction false} EnterRun(w: World, o: Order, p: nat, tid: nat, l: nat)
    returns (ws: seq<World>, evs: seq<Event>)
    requires GuardHolds(w, o.worker) && (p, o.worker) !in w.table && l !in w.launches
    requires tid in w.threads && w.threads[tid] == Handler(p, o, Locking(w.ledger[o.worker]))
    ensures IsRun(ws, evs) && ws[0] == w
    ensures var u := ws[|ws| - 1];
            && u.threads == w.threads[tid := Handler(p, o, Guarding(l))] && u.ledger == w.ledger && u.turns == w.turns
            && l in u.launches && u.launches[l].worker == o.worker
  {
    ws, evs := [w, Apply(w, Step(tid, Plain(l)))], [Step(tid, Plain(l))];
  }

  /** The guard passes and the turn starts. */
  lemma {:induction false} LaunchRun(w: World, o: Order, p: nat, tid: nat, l: nat, rid: nat)
    returns (ws: seq<World>, evs: seq<Event>)
    requires tid in w.threads && w.threads[tid] == Handler(p, o, Guarding(l)) && GuardHolds(w, o.worker)
    requires l in w.launches
    requires w.launches[l].worker == o.worker && rid !in w.threads
    ensures IsRun(ws, evs) && ws[0] == w && ws[|ws| - 1].turns == w.turns + [Turn(o.worker, l)]
  {
    var a := Apply(w, Step(tid, Plain(rid)));
    ws, evs := [w, a, Apply(a, Step(rid, Plain(0)))], [Step(tid, Plain(rid)), Step(rid, Plain(0))];
  }

  /** From any state whose ledger shows an eligible worker with no requested-event and no identity, a valid request
      starts a turn: the durable event is all that stands between a worker and a second launch. */
  lemma {:induction false} UnguardedLaunches(w: World, o: Order, p: nat, tid: nat, l: nat, rid: nat)
    returns (ws: seq<World>, evs: seq<Event>)
    requires Launchable(w, o, p, tid, l, rid)
    ensures IsRun(ws, evs) && ws[0] == w && ws[|ws| - 1].turns == w.turns + [Turn(o.worker, l)]
  {
    var vs, fs := ReadRun(w, o, p, tid);
    var us, es := EnterRun(vs[|vs| - 1], o, p, tid, l);
    JoinRuns(vs, fs, us, es);
    var ts, ds := LaunchRun(us[|us| - 1], o, p, tid, l, rid);
    JoinRuns(vs + us[1..], fs + es, ts, ds);
    ws, evs := vs + us[1..] + ts[1..], fs + es + ds;
  }

  /** So one edit that drops the event of a worker that never got an identity lets its turn start again, here after
      a crash in between. */
  lemma {:induction false} TrimmedGuardRelaunches(w: World, o: Order, row: Row)
    returns (ws: seq<World>, evs: seq<Event>)
    requires Initial(w) && ValidOrder(o) && row.eligible && row.thread == "" && row.turn == "" && row.requests == []
    ensures IsRun(ws, evs) && ws[0] == w
    ensures var turns := ws[|ws| - 1].turns;
            |turns| == 2 && turns[0].worker == turns[1].worker == o.worker
  {
    var vs, fs := OneStep(w, Edit(o.worker, row)), [Edit(o.worker, row)];
    var us, es := UnguardedLaunches(vs[1], o, 1, 0, 0, 1);
    JoinRuns(vs, fs, us, es);
    var ts, ds := TrimmedRun(us[|us| - 1], o, row);
    JoinRuns(vs + us[1..], fs + es, ts, ds);
    ws, evs := vs + us[1..] + ts[1..], fs + es + ds;
  }

  /** From any state: crash, drop the event, ask again. */
  lemma {:induction false} TrimmedRun(w: World, o: Order, row: Row) returns (ws: seq<World>, evs: seq<Event>)
    requires ValidOrder(o) && row.eligible && row.thread == "" && row.turn == "" && row.requests == []
    ensures IsRun(ws, evs) && ws[0] == w && |ws[|ws| - 1].turns| == |w.turns| + 1
    ensures ws[|ws| - 1].turns[..|w.turns|] == w.turns && ws[|ws| - 1].turns[|w.turns|].worker == o.worker
  {
    var vs, fs := OneStep(w, Crash(1)), [Crash(1)];
    var us, es := OneStep(vs[1], Edit(o.worker, row)), [Edit(o.worker, row)];
    JoinRuns(vs, fs, us, es);
    var tid, l, rid := Unused(us[1]);
    var ts, ds := UnguardedLaunches(us[1], o, 1, tid, l, rid);
    JoinRuns(vs + us[1..], fs + es, ts, ds);
    ws, evs := vs + us[1..] + ts[1..], fs + es + ds;
  }

  lemma {:induction false} Unused(w: World) returns (tid: nat, l: nat, rid: nat)
    ensures tid !in w.threads && l !in w.launches && rid !in w.threads && tid != rid
  {
    tid := AboveAll(w.threads.Keys);
    rid := tid + 1;
    l := AboveAll(w.launches.Keys);
  }
}
