/** Nobody waits in vain: while a request waits for a launch, the launch has its outcome or a live thread of the same
    process is still on its way to give it one. */
module SpawnWaiters {
  import opened Basics
  import opened Spawn

  /** The launch a thread has to do with. */
  function Concern(t: Thread): Option<nat> {
    match t
    case Runner(_, l, _) => Some(l)
    case Handler(_, _, Guarding(l)) => Some(l)
    case Handler(_, _, Dropping(l, _)) => Some(l)
    case Handler(_, _, Failing(l, _)) => Some(l)
    case Handler(_, _, Waiting(l, _)) => Some(l)
    case _ => None
  }

  /** The thread will give the launch its outcome, whatever the ledger, the worker's turn and the clients do. */
  predicate Settles(t: Thread) {
    match t
    case Handler(_, _, pc) => pc.Guarding? || pc.Dropping? || pc.Failing?
    case Runner(_, _, pc) => pc != Running(true) && !pc.Closing? && !pc.Leaving?
  }

  ghost predicate HasSettler(w: World, l: nat)
    requires l in w.launches
  {
    exists y :: y in w.threads && Concern(w.threads[y]) == Some(l) && Settles(w.threads[y])
                && w.threads[y].process == w.launches[l].process
  }

  /** The launch belongs to this process, and is settled or will be. */
  ghost predicate Tended(w: World, l: nat, p: nat) {
    l in w.launches && w.launches[l].process == p && (w.launches[l].outcome.Some? || HasSettler(w, l))
  }

  ghost predicate ThreadTended(w: World, t: Thread) {
    && (Concern(t).Some? ==> Tended(w, Concern(t).value, t.process))
    && (t.Runner? && !Settles(t) ==> t.launch in w.launches && w.launches[t.launch].outcome.Some?)
  }

  ghost predicate AllTended(w: World) {
    && (forall x :: x in w.threads ==> ThreadTended(w, w.threads[x]))
    && (forall k :: k in w.table ==> Tended(w, w.table[k], k.0))
  }

  // ---- one thread moves ----

  ghost predicate Grown(w: World, u: World) {
    forall l :: l in w.launches ==>
      && l in u.launches && u.launches[l].process == w.launches[l].process
      && (w.launches[l].outcome.Some? ==> u.launches[l].outcome.Some?)
  }

  /** The others stay, and what this one was to settle it has settled, or still will. */
  ghost predicate HandsOn(w: World, u: World, tid: nat) {
    && Grown(w, u)
    && (forall x :: x in w.threads && x != tid ==> x in u.threads && u.threads[x] == w.threads[x])
    && (tid in w.threads && Settles(w.threads[tid]) && Concern(w.threads[tid]).Some? ==>
         var l := Concern(w.threads[tid]).value;
         l in u.launches && (u.launches[l].outcome.Some? || HasSettler(u, l)))
  }

  lemma {:induction false} StaysTended(w: World, u: World, tid: nat, l: nat, p: nat)
    requires HandsOn(w, u, tid) && Tended(w, l, p)
    ensures Tended(u, l, p)
  {
    if w.launches[l].outcome.None? {
      var y :| y in w.threads && Concern(w.threads[y]) == Some(l) && Settles(w.threads[y])
               && w.threads[y].process == w.launches[l].process;
      if y != tid { assert u.threads[y] == w.threads[y]; }
    }
  }

  lemma {:induction false} ThreadStaysTended(w: World, u: World, tid: nat, t: Thread)
    requires HandsOn(w, u, tid) && ThreadTended(w, t)
    ensures ThreadTended(u, t)
  {
    if Concern(t).Some? { StaysTended(w, u, tid, Concern(t).value, t.process); }
  }

  /** What is new after the step is tended, and so is all that was there. */
  lemma {:induction false} MoveIsTended(w: World, u: World, tid: nat)
    requires AllTended(w) && HandsOn(w, u, tid)
    requires forall x :: x in u.threads ==>
               (x in w.threads && u.threads[x] == w.threads[x]) || ThreadTended(u, u.threads[x])
    requires forall k :: k in u.table ==>
               (k in w.table && u.table[k] == w.table[k]) || Tended(u, u.table[k], k.0)
    ensures AllTended(u)
  {
    forall x | x in u.threads ensures ThreadTended(u, u.threads[x]) {
      if x in w.threads && u.threads[x] == w.threads[x] { ThreadStaysTended(w, u, tid, u.threads[x]); }
    }
    forall k | k in u.table ensures Tended(u, u.table[k], k.0) {
      if k in w.table && u.table[k] == w.table[k] { StaysTended(w, u, tid, u.table[k], k.0); }
    }
  }

  // ---- the steps of a handler ----

  /** A thread that settles nothing is answered. */
  lemma {:induction false} AnswerIsTended(w: World, tid: nat, o: Order, r: Reply)
    requires AllTended(w) && tid in w.threads && !Settles(w.threads[tid])
    ensures AllTended(Answer(w, tid, o, r))
  {
    MoveIsTended(w, Answer(w, tid, o, r), tid);
  }

  lemma {:induction false} IdleIsTended(w: World, tid: nat, p: nat, o: Order, pc: HandlerPc)
    requires AllTended(w) && (tid in w.threads ==> !Settles(w.threads[tid])) && (pc.Reading? || pc.Locking?)
    ensures AllTended(At(w, tid, p, o, pc))
  {
    MoveIsTended(w, At(w, tid, p, o, pc), tid);
  }

  lemma {:induction false} JoinIsTended(w: World, tid: nat, p: nat, o: Order, l: nat)
    requires AllTended(w) && tid in w.threads && !Settles(w.threads[tid]) && Tended(w, l, p)
    ensures AllTended(At(w, tid, p, o, Waiting(l, false)))
  {
    var u := At(w, tid, p, o, Waiting(l, false));
    StaysTended(w, u, tid, l, p);
    MoveIsTended(w, u, tid);
  }

  lemma {:induction false} EnterIsTended(w: World, u: World, tid: nat, p: nat, o: Order, l: nat, ask: Ask)
    requires AllTended(w) && tid in w.threads && !Settles(w.threads[tid]) && l !in w.launches
    requires u == At(w, tid, p, o, Guarding(l)).(table := w.table[(p, o.worker) := l],
                                                 launches := w.launches[l := Launch(p, o.worker, ask, None)])
    ensures AllTended(u)
  {
    assert u.threads[tid] == Handler(p, o, Guarding(l));
    assert HasSettler(u, l);
    MoveIsTended(w, u, tid);
  }

  lemma {:induction false} LockIsTended(w: World, tid: nat, p: nat, o: Order, row: Row, l: nat)
    requires AllTended(w) && tid in w.threads && !Settles(w.threads[tid]) && l !in w.launches
    ensures AllTended(LockStep(w, tid, p, o, row, l))
  {
    var digest := DigestOf(o, row);
    var key := (p, o.worker);
    if key in w.table && w.table[key] in w.launches {
      if w.launches[w.table[key]].ask != Ask(o.request, digest) {
        AnswerIsTended(w, tid, o, Conflict);
      } else {
        JoinIsTended(w, tid, p, o, w.table[key]);
      }
    } else {
      match ReplayOf(row, o.request, digest)
      case Refused => AnswerIsTended(w, tid, o, Conflict);
      case Replayed => AnswerIsTended(w, tid, o, Success(row.thread, row.turn, true));
      case Fresh => EnterIsTended(w, LockStep(w, tid, p, o, row, l), tid, p, o, l, Ask(o.request, digest));
    }
  }

  /** A settler of this launch moves on and still is one; the table may lose entries. */
  lemma {:induction false} SettlerMoves(w: World, u: World, tid: nat, t: Thread)
    requires AllTended(w) && tid in w.threads && Concern(w.threads[tid]).Some?
    requires Settles(t) && Concern(t) == Concern(w.threads[tid]) && t.process == w.threads[tid].process
    requires u.threads == w.threads[tid := t] && u.launches == w.launches
    requires forall k :: k in u.table ==> k in w.table && u.table[k] == w.table[k]
    ensures AllTended(u)
  {
    assert u.threads[tid] == t;
    assert HasSettler(u, Concern(t).value);
    MoveIsTended(w, u, tid);
  }

  lemma {:induction false} GrantIsTended(w: World, u: World, tid: nat, p: nat, o: Order, l: nat, child: nat)
    requires AllTended(w) && tid in w.threads && w.threads[tid] == Handler(p, o, Guarding(l)) && child !in w.threads
    requires u.threads == w.threads[tid := Handler(p, o, Waiting(l, true))][child := Runner(p, l, Starting)]
    requires u.launches == w.launches && u.table == w.table
    ensures AllTended(u)
  {
    assert u.threads[child] == Runner(p, l, Starting);
    assert HasSettler(u, l);
    MoveIsTended(w, u, tid);
  }

  lemma {:induction false} GuardIsTended(w: World, tid: nat, p: nat, o: Order, l: nat, c: Choice)
    requires AllTended(w) && tid in w.threads && w.threads[tid] == Handler(p, o, Guarding(l)) && c.newId !in w.threads
    ensures AllTended(GuardStep(w, tid, p, o, l, c))
  {
    var u := GuardStep(w, tid, p, o, l, c);
    if l !in w.launches || !GuardHolds(w, o.worker) {
      SettlerMoves(w, u, tid, Handler(p, o, Dropping(l, if o.worker in w.ledger then Conflict else Failure)));
    } else if c.commit == Committed {
      GrantIsTended(w, u, tid, p, o, l, c.newId);
    } else {
      SettlerMoves(w, u, tid, Handler(p, o, Dropping(l, Failure)));
    }
  }

  /** The outcome is set and the thread goes, or goes on. */
  lemma {:induction false} FinishIsTended(w: World, u: World, tid: nat, l: nat, r: Reply)
    requires AllTended(w) && tid in w.threads && Concern(w.threads[tid]) == Some(l)
    requires u.launches == Finish(w, l, r) && u.table == w.table
    requires u.threads == w.threads - {tid}
             || exists pc :: w.threads[tid].Runner? && u.threads == w.threads[tid := w.threads[tid].(rpc := pc)]
    ensures AllTended(u)
  {
    MoveIsTended(w, u, tid);
  }

  lemma {:induction false} HandlerIsTended(w: World, tid: nat, c: Choice)
    requires AllTended(w) && Enabled(w, Step(tid, c)) && w.threads[tid].Handler?
    ensures AllTended(HandlerStep(w, tid, w.threads[tid], c))
  {
    var t := w.threads[tid];
    var p, o := t.process, t.order;
    var u := HandlerStep(w, tid, t, c);
    match t.hpc
    case Reading =>
      if !ValidOrder(o) || o.worker !in w.ledger || !w.ledger[o.worker].eligible {
        AnswerIsTended(w, tid, o, Failure);
      } else {
        IdleIsTended(w, tid, p, o, Locking(w.ledger[o.worker]));
      }
    case Locking(row) => LockIsTended(w, tid, p, o, row, c.newId);
    case Guarding(l) => GuardIsTended(w, tid, p, o, l, c);
    case Dropping(l, e) => SettlerMoves(w, u, tid, Handler(p, o, Failing(l, e)));
    case Failing(l, e) => FinishIsTended(w, u, tid, l, e);
    case Waiting(l, own) =>
      if l in w.launches && w.launches[l].outcome.Some? {
        var r := w.launches[l].outcome.value;
        AnswerIsTended(w, tid, o, if r.Success? && !own then Success(r.thread, r.turn, true) else r);
      }
  }

  // ---- the steps of a runner ----

  /** A runner that has settled its launch goes on, or leaves and takes its entry along. */
  lemma {:induction false} SettledMoves(w: World, u: World, tid: nat)
    requires AllTended(w) && tid in w.threads && w.threads[tid].Runner? && !Settles(w.threads[tid])
    requires u.launches == w.launches && (forall k :: k in u.table ==> k in w.table && u.table[k] == w.table[k])
    requires u.threads == w.threads - {tid}
             || exists pc :: u.threads == w.threads[tid := w.threads[tid].(rpc := pc)]
    ensures AllTended(u)
  {
    MoveIsTended(w, u, tid);
  }

  lemma {:induction false} GoIsTended(w: World, v: World, tid: nat, pc: RunnerPc)
    requires AllTended(w) && tid in w.threads && w.threads[tid].Runner?
    requires v.threads == w.threads && v.launches == w.launches && v.table == w.table
    requires !Settles(w.threads[tid]) || Settles(w.threads[tid].(rpc := pc))
    ensures AllTended(Go(v, tid, w.threads[tid], pc))
  {
    var t := w.threads[tid];
    var u := Go(v, tid, t, pc);
    if Settles(t) {
      SettlerMoves(w, u, tid, t.(rpc := pc));
    } else {
      SettledMoves(w, u, tid);
    }
  }

  /** An outcome is told: the runner goes on to this step. */
  lemma {:induction false} TellIsTended(w: World, tid: nat, pc: RunnerPc, r: Reply)
    requires AllTended(w) && tid in w.threads && w.threads[tid].Runner?
    ensures AllTended(Go(w, tid, w.threads[tid], pc).(launches := Finish(w, w.threads[tid].launch, r)))
  {
    var t := w.threads[tid];
    FinishIsTended(w, Go(w, tid, t, pc).(launches := Finish(w, t.launch, r)), tid, t.launch, r);
  }

  lemma {:induction false} RunningIsTended(w: World, tid: nat, id: string, persisted: bool, c: Choice)
    requires AllTended(w) && tid in w.threads && w.threads[tid].Runner? && w.threads[tid].rpc == Running(persisted)
    ensures AllTended(RunningStep(w, tid, w.threads[tid], id, persisted, c))
  {
    if c.ended {
      GoIsTended(w, w, tid, if persisted then Closing(c.thread, c.turn)
                            else if c.thread != "" && c.turn != "" then Recovering(c.thread, c.turn)
                            else Burying(c.thread, c.turn));
    } else {
      GoIsTended(w, WithIdentity(w, id, c.thread, c.turn, c.commit), tid,
                 if Went(w, id, c.commit) then Announcing(c.thread, c.turn) else Running(persisted));
    }
  }

  lemma {:induction false} RunnerIsTended(w: World, tid: nat, c: Choice)
    requires AllTended(w) && Enabled(w, Step(tid, c)) && w.threads[tid].Runner?
    ensures AllTended(RunnerStep(w, tid, w.threads[tid], c))
  {
    var t := w.threads[tid];
    var id := w.launches[t.launch].worker;
    var u := RunnerStep(w, tid, t, c);
    match t.rpc
    case Starting =>
      GoIsTended(w, w.(turns := w.turns + [Turn(id, t.launch)]), tid, Running(false));
    case Running(persisted) => RunningIsTended(w, tid, id, persisted, c);
    case Announcing(th, tu) => TellIsTended(w, tid, Running(true), Success(th, tu, false));
    case Closing(th, tu) => GoIsTended(w, WithIdentity(w, id, th, tu, c.commit), tid, Leaving);
    case Recovering(th, tu) =>
      GoIsTended(w, WithIdentity(w, id, th, tu, c.commit), tid,
                 if Went(w, id, c.commit) then Recovered(th, tu) else Burying(th, tu));
    case Recovered(th, tu) => TellIsTended(w, tid, Leaving, Success(th, tu, false));
    case Burying(th, tu) => GoIsTended(w, WithIdentity(w, id, th, tu, c.commit), tid, Telling);
    case Telling => TellIsTended(w, tid, Leaving, Failure);
    case Leaving => SettledMoves(w, u, tid);
  }

  // ---- runs ----

  /** A crash takes the waiters of the process, its table and its settlers together. */
  lemma {:induction false} CrashIsTended(w: World, p: nat)
    requires AllTended(w)
    ensures AllTended(Apply(w, Crash(p)))
  {
    var u := Apply(w, Crash(p));
    forall l, q | q != p && Tended(w, l, q) ensures Tended(u, l, q) {
      if w.launches[l].outcome.None? {
        var y :| y in w.threads && Concern(w.threads[y]) == Some(l) && Settles(w.threads[y])
                 && w.threads[y].process == w.launches[l].process;
        assert u.threads[y] == w.threads[y];
      }
    }
  }

  lemma {:induction false} EditIsTended(w: World, id: string, row: Row)
    requires AllTended(w)
    ensures AllTended(Apply(w, Edit(id, row)))
  {
    forall l, q | Tended(w, l, q) ensures Tended(Apply(w, Edit(id, row)), l, q) {
    }
  }

  lemma {:induction false} NextIsTended(w: World, ev: Event)
    requires AllTended(w) && Enabled(w, ev)
    ensures AllTended(Apply(w, ev))
  {
    match ev
    case Arrive(tid, p, o) => IdleIsTended(w, tid, p, o, Reading);
    case Step(tid, c) => if w.threads[tid].Handler? { HandlerIsTended(w, tid, c); } else { RunnerIsTended(w, tid, c); }
    case Cancel(tid) => AnswerIsTended(w, tid, w.threads[tid].order, Failure);
    case Crash(p) => CrashIsTended(w, p);
    case Edit(id, row) => EditIsTended(w, id, row);
  }

  lemma {:induction false} AlwaysTended(ws: seq<World>, evs: seq<Event>, n: nat)
    requires IsRun(ws, evs) && Initial(ws[0]) && n < |ws|
    ensures AllTended(ws[n])
  {
    if n > 0 {
      AlwaysTended(ws, evs, n - 1);
      NextIsTended(ws[n - 1], evs[n - 1]);
    }
  }

  /** In every run, whatever the other writers do: while a request waits for a launch, that launch has its outcome, or a
      thread of the same process is still there that has to give it one. */
  lemma {:induction false} NobodyIsStranded(ws: seq<World>, evs: seq<Event>, n: nat, x: nat, l: nat, own: bool)
    requires IsRun(ws, evs) && Initial(ws[0]) && n < |ws|
    requires x in ws[n].threads && ws[n].threads[x].Handler? && ws[n].threads[x].hpc == Waiting(l, own)
    ensures l in ws[n].launches
    ensures ws[n].launches[l].outcome.Some?
            || exists y :: y in ws[n].threads && y != x && Concern(ws[n].threads[y]) == Some(l)
                           && Settles(ws[n].threads[y]) && ws[n].threads[y].process == ws[n].threads[x].process
  {
    AlwaysTended(ws, evs, n);
    assert ThreadTended(ws[n], ws[n].threads[x]);
  }

  /** How many steps of its own a thread that has left the guard, or the turn, is from settling its launch. */
  function StepsLeft(t: Thread): nat {
    match t
    case Handler(_, _, pc) => if pc.Dropping? then 2 else if pc.Failing? then 1 else 0
    case Runner(_, _, pc) =>
      if pc.Recovering? then 3 else if pc.Burying? then 2
      else if pc.Telling? || pc.Recovered? || pc.Announcing? then 1 else 0
  }

  /** Settled, or closer to it. */
  ghost predicate Closer(t: Thread, u: World, tid: nat) {
    Concern(t).Some?
    && var l := Concern(t).value;
       || (l in u.launches && u.launches[l].outcome.Some?)
       || (tid in u.threads && Concern(u.threads[tid]) == Some(l) && 0 < StepsLeft(u.threads[tid]) < StepsLeft(t))
  }

  lemma {:induction false} FinishIsCloser(w: World, u: World, tid: nat, t: Thread, r: Reply)
    requires Concern(t).Some? && Concern(t).value in w.launches && u.launches == Finish(w, Concern(t).value, r)
    ensures Closer(t, u, tid)
  {
  }

  lemma {:induction false} GoIsCloser(v: World, tid: nat, t: Thread, pc: RunnerPc)
    requires t.Runner? && 0 < StepsLeft(t.(rpc := pc)) < StepsLeft(t)
    ensures Closer(t, Go(v, tid, t, pc), tid)
  {
  }

  lemma {:induction false} RunnerIsCloser(w: World, tid: nat, t: Thread, c: Choice)
    requires t.Runner? && StepsLeft(t) > 0 && t.launch in w.launches
    ensures Closer(t, RunnerStep(w, tid, t, c), tid)
  {
    var u := RunnerStep(w, tid, t, c);
    var id := w.launches[t.launch].worker;
    match t.rpc
    case Announcing(th, tu) => FinishIsCloser(w, u, tid, t, Success(th, tu, false));
    case Recovering(th, tu) =>
      GoIsCloser(WithIdentity(w, id, th, tu, c.commit), tid, t,
                 if Went(w, id, c.commit) then Recovered(th, tu) else Burying(th, tu));
    case Recovered(th, tu) => FinishIsCloser(w, u, tid, t, Success(th, tu, false));
    case Burying(th, tu) => GoIsCloser(WithIdentity(w, id, th, tu, c.commit), tid, t, Telling);
    case Telling => FinishIsCloser(w, u, tid, t, Failure);
  }

  /** Each step of such a thread settles the launch or brings the thread closer to it, whether the transaction of the
      step commits, is lost or fails. */
  lemma {:induction false} SettlerProgresses(w: World, tid: nat, c: Choice)
    requires Enabled(w, Step(tid, c)) && StepsLeft(w.threads[tid]) > 0
    requires Concern(w.threads[tid]).Some? && Concern(w.threads[tid]).value in w.launches
    ensures Closer(w.threads[tid], Apply(w, Step(tid, c)), tid)
  {
    var t := w.threads[tid];
    if t.Runner? {
      RunnerIsCloser(w, tid, t, c);
    } else {
      match t.hpc
      case Dropping(l, e) => assert Apply(w, Step(tid, c)).threads[tid].hpc == Failing(l, e);
      case Failing(l, e) => FinishIsCloser(w, Apply(w, Step(tid, c)), tid, t, e);
    }
  }
}
