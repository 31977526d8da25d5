/** Launching the first turn of a worker: many requests, in any number of processes, over one ledger. Each process has
    an in-memory launch table under a mutex; the worker record is read before the mutex is taken and may be stale. */
module Spawn {
  import opened Basics

  /** What the launch fingerprint covers; the digest is taken to be injective. */
  datatype Digest = Digest(worker: string, place: string, prompt: string, model: string)

  /** An `appserver.spawn.requested` event: request ID and fingerprint. */
  datatype Ask = Ask(request: string, digest: Digest)

  /** A worker record: `place` is its host, roots and remote; `requests` its requested-events in order. */
  datatype Row = Row(place: string, eligible: bool, thread: string, turn: string, requests: seq<Ask>)

  datatype Order = Order(worker: string, request: string, prompt: string, model: string)

  datatype Reply = Success(thread: string, turn: string, replayed: bool) | Conflict | Failure

  datatype Launch = Launch(process: nat, worker: string, ask: Ask, outcome: Option<Reply>)

  /** How a ledger transaction ends: `Lost` committed but reported an error. */
  datatype Commit = Committed | Lost | Aborted

  datatype HandlerPc =
    | Reading                    // GetWorker, before the mutex
    | Locking(row: Row)          // one critical section of the launch table
    | Guarding(launch: nat)      // the guarded ledger transaction
    | Dropping(launch: nat, error: Reply)   // the guard failed: take the launch out of the table
    | Failing(launch: nat, error: Reply)    // ... and release its waiters
    | Waiting(launch: nat, own: bool)

  datatype RunnerPc =
    | Starting                   // before RunTurnCoordinated
    | Running(persisted: bool)   // inside it
    | Announcing(thread: string, turn: string)
    | Closing(thread: string, turn: string)       // returned after identity was persisted
    | Recovering(thread: string, turn: string)    // returned before it was
    | Recovered(thread: string, turn: string)
    | Burying(thread: string, turn: string)
    | Telling
    | Leaving

  datatype Thread = Handler(process: nat, order: Order, hpc: HandlerPc)
    | Runner(process: nat, launch: nat, rpc: RunnerPc)

  datatype Written = Written(worker: string, row: Row)
  datatype Turn = Turn(worker: string, launch: nat)
  datatype Answered = Answered(order: Order, reply: Reply)

  /** `history`, `turns`, `replies`, `asked` and `granted` record what happened; no step reads them. */
  datatype World = World(ledger: map<string, Row>, table: map<(nat, string), nat>, launches: map<nat, Launch>,
                         threads: map<nat, Thread>, history: seq<Written>, turns: seq<Turn>, replies: seq<Answered>,
                         asked: map<string, Ask>, granted: map<string, nat>)

  /** What the environment decides at a step. */
  datatype Choice = Choice(commit: Commit, thread: string, turn: string, ended: bool, newId: nat)

  datatype Event =
    | Arrive(tid: nat, process: nat, order: Order)
    | Step(tid: nat, choice: Choice)
    | Cancel(tid: nat)
    | Crash(process: nat)
    | Edit(worker: string, row: Row)

  function RequestId(worker: string): string {
    "appserver-spawn-" + worker
  }

  predicate ValidOrder(o: Order) {
    o.worker != "" && o.request == RequestId(o.worker) && !IsBlank(o.prompt) && Utf8Len(o.prompt) <= 0x10_0000
  }

  function DigestOf(o: Order, row: Row): Digest {
    Digest(o.worker, row.place, o.prompt, o.model)
  }

  // ---- replay from the durable record ----

  datatype Replay = Replayed | Refused | Fresh

  /** The newest event with this request ID decides. */
  function ReplayOf(row: Row, request: string, digest: Digest): Replay {
    ReplayIn(row, row.requests, request, digest)
  }

  function ReplayIn(row: Row, events: seq<Ask>, request: string, digest: Digest): Replay {
    if events == [] then if row.thread != "" || row.turn != "" then Refused else Fresh
    else
      var last := events[|events| - 1];
      if last.request != request then ReplayIn(row, events[..|events| - 1], request, digest)
      else if last.digest != digest || row.thread == "" || row.turn == "" then Refused
      else Replayed
  }

  method ReplayAppserverSpawn(row: Row, request: string, digest: Digest) returns (r: Replay)
    ensures r == ReplayOf(row, request, digest)
  {
    var i := |row.requests|;
    assert row.requests[..i] == row.requests;
    while i > 0
      invariant 0 <= i <= |row.requests|
      invariant ReplayOf(row, request, digest) == ReplayIn(row, row.requests[..i], request, digest)
    {
      i := i - 1;
      assert row.requests[..i + 1][..i] == row.requests[..i];
      var event := row.requests[i];
      if event.request == request {
        return if event.digest != digest || row.thread == "" || row.turn == "" then Refused else Replayed;
      }
    }
    return if row.thread != "" || row.turn != "" then Refused else Fresh;
  }

  lemma {:induction false} ReplayMeans(row: Row, events: seq<Ask>, request: string, digest: Digest)
    ensures ReplayIn(row, events, request, digest) == Replayed ==>
              row.thread != "" && row.turn != "" && Ask(request, digest) in events
    ensures ReplayIn(row, events, request, digest) == Fresh ==>
              row.thread == "" && row.turn == "" && forall a :: a in events ==> a.request != request
  {
    if events != [] {
      ReplayMeans(row, events[..|events| - 1], request, digest);
      assert events == events[..|events| - 1] + [events[|events| - 1]];
    }
  }

  /** The newest event with this request ID. */
  predicate IsNewest(events: seq<Ask>, request: string, i: int) {
    0 <= i < |events| && events[i].request == request && forall j :: i < j < |events| ==> events[j].request != request
  }

  lemma {:induction false} ReplayInIff(row: Row, events: seq<Ask>, request: string, digest: Digest)
    ensures ReplayIn(row, events, request, digest) == Replayed <==>
            row.thread != "" && row.turn != ""
              && exists i :: IsNewest(events, request, i) && events[i].digest == digest
    ensures ReplayIn(row, events, request, digest) == Fresh <==>
            row.thread == "" && row.turn == "" && forall a :: a in events ==> a.request != request
  {
    if events != [] {
      var n := |events| - 1;
      var rest := events[..n];
      ReplayInIff(row, rest, request, digest);
      assert events == rest + [events[n]];
      if events[n].request == request {
        assert IsNewest(events, request, n);
        assert forall i :: IsNewest(events, request, i) ==> i == n;
      } else {
        assert forall i :: IsNewest(events, request, i) <==> IsNewest(rest, request, i);
      }
    }
  }

  /** A request is answered from the record iff the newest event with its ID carries its fingerprint and the identity is
      complete; it may launch iff no event carries its ID and there is no identity at all; otherwise it conflicts. */
  lemma {:induction false} ReplayIff(row: Row, request: string, digest: Digest)
    ensures ReplayOf(row, request, digest) == Replayed <==>
            row.thread != "" && row.turn != ""
              && exists i :: IsNewest(row.requests, request, i) && row.requests[i].digest == digest
    ensures ReplayOf(row, request, digest) == Fresh <==>
            row.thread == "" && row.turn == "" && forall a :: a in row.requests ==> a.request != request
  {
    ReplayInIff(row, row.requests, request, digest);
  }

  // ---- ledger transactions ----

  /** UpdateWorker: all or nothing, and perhaps an error although it committed. */
  function Put(w: World, id: string, row: Row, c: Commit): World {
    if c == Aborted || id !in w.ledger then w
    else w.(ledger := w.ledger[id := row], history := w.history + [Written(id, row)])
  }

  predicate Went(w: World, id: string, c: Commit) {
    c == Committed && id in w.ledger
  }

  function WithIdentity(w: World, id: string, thread: string, turn: string, c: Commit): World {
    if id in w.ledger then Put(w, id, w.ledger[id].(thread := thread, turn := turn), c) else w
  }

  // ---- handler steps ----

  function Answer(w: World, tid: nat, o: Order, r: Reply): World {
    w.(threads := w.threads - {tid}, replies := w.replies + [Answered(o, r)])
  }

  function At(w: World, tid: nat, p: nat, o: Order, pc: HandlerPc): World {
    w.(threads := w.threads[tid := Handler(p, o, pc)])
  }

  function ReadStep(w: World, tid: nat, p: nat, o: Order): World {
    if !ValidOrder(o) || o.worker !in w.ledger || !w.ledger[o.worker].eligible then Answer(w, tid, o, Failure)
    else At(w, tid, p, o, Locking(w.ledger[o.worker]))
  }

  /** Join the launch in the table, replay the record, or enter a new launch. */
  function LockStep(w: World, tid: nat, p: nat, o: Order, row: Row, newLaunch: nat): World {
    var digest := DigestOf(o, row);
    var key := (p, o.worker);
    if key in w.table && w.table[key] in w.launches then
      if w.launches[w.table[key]].ask != Ask(o.request, digest) then Answer(w, tid, o, Conflict)
      else At(w, tid, p, o, Waiting(w.table[key], false))
    else match ReplayOf(row, o.request, digest)
         case Refused => Answer(w, tid, o, Conflict)
         case Replayed => Answer(w, tid, o, Success(row.thread, row.turn, true))
         case Fresh =>
           At(w, tid, p, o, Guarding(newLaunch)).(
             table := w.table[key := newLaunch],
             launches := w.launches[newLaunch := Launch(p, o.worker, Ask(o.request, digest), None)])
  }

  /** The durable guard: nobody asked before and the worker has no identity. */
  predicate GuardHolds(w: World, id: string) {
    id in w.ledger && w.ledger[id].thread == "" && w.ledger[id].turn == "" && w.ledger[id].requests == []
  }

  function GuardStep(w: World, tid: nat, p: nat, o: Order, l: nat, c: Choice): World {
    if l !in w.launches || !GuardHolds(w, o.worker)
    then At(w, tid, p, o, Dropping(l, if o.worker in w.ledger then Conflict else Failure))
    else
      var ask := w.launches[l].ask;
      var u := Put(w, o.worker, w.ledger[o.worker].(requests := [ask]), c.commit);
      var v := if c.commit == Aborted then u else u.(asked := u.asked[o.worker := ask]);
      if c.commit == Committed
      then v.(threads := v.threads[tid := Handler(p, o, Waiting(l, true))][c.newId := Runner(p, l, Starting)],
              granted := v.granted[o.worker := l])
      else At(v, tid, p, o, Dropping(l, Failure))
  }

  function Drop(w: World, p: nat, id: string, l: nat): map<(nat, string), nat> {
    if (p, id) in w.table && w.table[(p, id)] == l then w.table - {(p, id)} else w.table
  }

  function Finish(w: World, l: nat, r: Reply): map<nat, Launch> {
    if l in w.launches then w.launches[l := w.launches[l].(outcome := Some(r))] else w.launches
  }

  function WaitStep(w: World, tid: nat, o: Order, l: nat, own: bool): World {
    if l in w.launches && w.launches[l].outcome.Some? then
      var r := w.launches[l].outcome.value;
      Answer(w, tid, o, if r.Success? && !own then Success(r.thread, r.turn, true) else r)
    else w
  }

  function HandlerStep(w: World, tid: nat, t: Thread, c: Choice): World
    requires t.Handler?
  {
    var p, o := t.process, t.order;
    match t.hpc
    case Reading => ReadStep(w, tid, p, o)
    case Locking(row) => LockStep(w, tid, p, o, row, c.newId)
    case Guarding(l) => GuardStep(w, tid, p, o, l, c)
    case Dropping(l, e) => At(w, tid, p, o, Failing(l, e)).(table := Drop(w, p, o.worker, l))
    case Failing(l, e) => Answer(w, tid, o, e).(launches := Finish(w, l, e))
    case Waiting(l, own) => WaitStep(w, tid, o, l, own)
  }

  // ---- runner steps ----

  function Go(w: World, tid: nat, t: Thread, pc: RunnerPc): World
    requires t.Runner?
  {
    w.(threads := w.threads[tid := t.(rpc := pc)])
  }

  function RunningStep(w: World, tid: nat, t: Thread, id: string, persisted: bool, c: Choice): World
    requires t.Runner?
  {
    if c.ended then
      Go(w, tid, t, if persisted then Closing(c.thread, c.turn)
                    else if c.thread != "" && c.turn != "" then Recovering(c.thread, c.turn)
                    else Burying(c.thread, c.turn))
    else
      Go(WithIdentity(w, id, c.thread, c.turn, c.commit), tid, t,
         if Went(w, id, c.commit) then Announcing(c.thread, c.turn) else Running(persisted))
  }

  function RunnerStep(w: World, tid: nat, t: Thread, c: Choice): World
    requires t.Runner? && t.launch in w.launches
  {
    var id := w.launches[t.launch].worker;
    match t.rpc
    case Starting => Go(w, tid, t, Running(false)).(turns := w.turns + [Turn(id, t.launch)])
    case Running(persisted) => RunningStep(w, tid, t, id, persisted, c)
    case Announcing(th, tu) => Go(w, tid, t, Running(true)).(launches := Finish(w, t.launch, Success(th, tu, false)))
    case Closing(th, tu) => Go(WithIdentity(w, id, th, tu, c.commit), tid, t, Leaving)
    case Recovering(th, tu) =>
      Go(WithIdentity(w, id, th, tu, c.commit), tid, t, if Went(w, id, c.commit) then Recovered(th, tu)
                                                        else Burying(th, tu))
    case Recovered(th, tu) => Go(w, tid, t, Leaving).(launches := Finish(w, t.launch, Success(th, tu, false)))
    case Burying(th, tu) => Go(WithIdentity(w, id, th, tu, c.commit), tid, t, Telling)
    case Telling => Go(w, tid, t, Leaving).(launches := Finish(w, t.launch, Failure))
    case Leaving => w.(threads := w.threads - {tid}, table := Drop(w, t.process, id, t.launch))
  }

  // ---- the machine ----

  predicate NewIdFits(w: World, t: Thread, c: Choice) {
    && (t.Handler? && t.hpc.Locking? ==> c.newId !in w.launches)
    && (t.Handler? && t.hpc.Guarding? ==> c.newId !in w.threads)
  }

  predicate Enabled(w: World, ev: Event) {
    match ev
    case Arrive(tid, _, _) => tid !in w.threads
    case Step(tid, c) => tid in w.threads && NewIdFits(w, w.threads[tid], c)
      && (w.threads[tid].Runner? ==> w.threads[tid].launch in w.launches)
    case Cancel(tid) => tid in w.threads && w.threads[tid].Handler? && w.threads[tid].hpc.Waiting?
    case Crash(_) => true
    case Edit(_, _) => true
  }

  function Apply(w: World, ev: Event): World
    requires Enabled(w, ev)
  {
    match ev
    case Arrive(tid, p, o) => At(w, tid, p, o, Reading)
    case Step(tid, c) =>
      if w.threads[tid].Handler? then HandlerStep(w, tid, w.threads[tid], c) else RunnerStep(w, tid, w.threads[tid], c)
    case Cancel(tid) => Answer(w, tid, w.threads[tid].order, Failure)
    case Crash(p) =>
      w.(threads := map tid | tid in w.threads && w.threads[tid].process != p :: w.threads[tid],
         table := map k | k in w.table && k.0 != p :: w.table[k])
    case Edit(id, row) => w.(ledger := w.ledger[id := row], history := w.history + [Written(id, row)])
  }

  ghost predicate Initial(w: World) {
    && w.table == map[] && w.launches == map[] && w.threads == map[] && w.turns == [] && w.replies == []
    && w.asked == map[] && w.granted == map[]
    && w.history == [] && w.ledger == map[]
  }

  ghost predicate IsRun(ws: seq<World>, evs: seq<Event>) {
    && |ws| == |evs| + 1
    && forall i {:trigger evs[i]} :: 0 <= i < |evs| ==> Enabled(ws[i], evs[i]) && ws[i + 1] == Apply(ws[i], evs[i])
  }

  /** Other writers keep this worker's requested-event: they neither trim it nor invent one. */
  predicate KeepsRequests(who: Option<string>, w: World, ev: Event) {
    ev.Edit? && who == Some(ev.worker) ==>
      ev.row.requests == if ev.worker in w.ledger then w.ledger[ev.worker].requests else []
  }
}
