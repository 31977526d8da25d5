/** One launch per worker: what every interleaving of spawn requests keeps. */
module SpawnSafety {
  import opened Basics
  import opened Spawn

  // Only what other writers do to the requested-events of a worker matters to its launch, so the invariants follow one
  // worker, `who`, or none.

  // ---- facts that only accumulate ----

  ghost predicate Wrote(w: World, id: string, thread: string, turn: string) {
    exists k :: 0 <= k < |w.history| && w.history[k].worker == id && w.history[k].row.thread == thread
      && w.history[k].row.turn == turn
  }

  ghost predicate SameLaunch(a: Launch, b: Launch) {
    a.process == b.process && a.worker == b.worker && a.ask == b.ask
  }

  ghost predicate Grows(who: Option<string>, w: World, u: World) {
    && |w.history| <= |u.history| && (forall k :: 0 <= k < |w.history| ==> u.history[k] == w.history[k])
    && (forall id :: who == Some(id) && id in w.asked ==> id in u.asked && u.asked[id] == w.asked[id])
    && (forall id :: who == Some(id) && id in w.granted ==> id in u.granted && u.granted[id] == w.granted[id])
    && (forall l :: l in w.launches ==> l in u.launches && SameLaunch(u.launches[l], w.launches[l]))
  }

  lemma {:induction false} WroteGrows(who: Option<string>, w: World, u: World, id: string, thread: string, turn: string)
    requires Grows(who, w, u) && Wrote(w, id, thread, turn)
    ensures Wrote(u, id, thread, turn)
  {
    var k :| 0 <= k < |w.history| && w.history[k].worker == id && w.history[k].row.thread == thread
      && w.history[k].row.turn == turn;
    assert u.history[k] == w.history[k];
  }

  // ---- the ledger ----

  /** A record carries the one request its worker was ever asked, or none yet. */
  ghost predicate RecordOk(who: Option<string>, w: World, x: Written) {
    who == Some(x.worker) ==> x.row.requests == [] || (x.worker in w.asked && x.row.requests == [w.asked[x.worker]])
  }

  ghost predicate LedgerInv(who: Option<string>, w: World) {
    && (forall id :: id in w.ledger ==> Written(id, w.ledger[id]) in w.history)
    && (forall x :: x in w.history ==> RecordOk(who, w, x))
    && (forall id :: who == Some(id) && id in w.asked ==> id in w.ledger && w.ledger[id].requests == [w.asked[id]])
  }

  // ---- launches ----

  ghost predicate Granted(who: Option<string>, w: World, l: nat) {
    && l in w.launches
    && (who == Some(w.launches[l].worker) ==>
         w.launches[l].worker in w.granted && w.granted[w.launches[l].worker] == l)
  }

  ghost predicate GrantInv(who: Option<string>, w: World) {
    forall id :: who == Some(id) && id in w.granted ==>
      var l := w.granted[id];
      id in w.asked && l in w.launches && w.launches[l].worker == id && w.launches[l].ask == w.asked[id]
  }

  ghost predicate LaunchOk(who: Option<string>, w: World, l: nat)
    requires l in w.launches
  {
    var r := w.launches[l].outcome;
    r.Some? && r.value.Success? ==> Granted(who, w, l) && Wrote(w, w.launches[l].worker, r.value.thread, r.value.turn)
  }

  ghost predicate LaunchInv(who: Option<string>, w: World) {
    && (forall l :: l in w.launches ==> LaunchOk(who, w, l))
    && (forall k :: k in w.table ==> w.table[k] in w.launches && w.launches[w.table[k]].worker == k.1)
  }

  // ---- threads ----

  /** The launch was entered for exactly this order. */
  ghost predicate Serves(w: World, l: nat, o: Order) {
    && l in w.launches && w.launches[l].worker == o.worker && Matches(w.launches[l].ask, o)
  }

  predicate Matches(a: Ask, o: Order) {
    a.request == o.request && a.digest.prompt == o.prompt && a.digest.model == o.model
  }

  ghost predicate HandlerOk(who: Option<string>, w: World, t: Thread)
    requires t.Handler?
  {
    match t.hpc
    case Reading => true
    case Locking(row) => Written(t.order.worker, row) in w.history
    case Guarding(l) => Serves(w, l, t.order)
    case Dropping(l, e) => Serves(w, l, t.order) && !e.Success?
    case Failing(l, e) => Serves(w, l, t.order) && !e.Success?
    case Waiting(l, _) => Serves(w, l, t.order)
  }

  ghost predicate RunnerOk(who: Option<string>, w: World, t: Thread)
    requires t.Runner?
  {
    && Granted(who, w, t.launch)
    && match t.rpc
       case Announcing(th, tu) => Wrote(w, w.launches[t.launch].worker, th, tu)
       case Recovered(th, tu) => Wrote(w, w.launches[t.launch].worker, th, tu)
       case _ => true
  }

  ghost predicate ThreadOk(who: Option<string>, w: World, t: Thread) {
    if t.Handler? then HandlerOk(who, w, t) else RunnerOk(who, w, t)
  }

  predicate Begun(turns: seq<Turn>, l: nat) {
    exists i :: 0 <= i < |turns| && turns[i].launch == l
  }

  predicate SameRunner(who: Option<string>, w: World, x: nat, y: nat) {
    && x in w.threads && y in w.threads && w.threads[x].Runner? && w.threads[y].Runner?
    && w.threads[x].launch == w.threads[y].launch
    && w.threads[x].launch in w.launches && who == Some(w.launches[w.threads[x].launch].worker)
  }

  /** A runner of the watched worker that has not started its turn. */
  predicate Awaits(who: Option<string>, w: World, x: nat) {
    && x in w.threads && w.threads[x].Runner? && w.threads[x].rpc == Starting
    && w.threads[x].launch in w.launches && who == Some(w.launches[w.threads[x].launch].worker)
  }

  ghost predicate ThreadInv(who: Option<string>, w: World) {
    && (forall x :: x in w.threads ==> ThreadOk(who, w, w.threads[x]))
    && (forall x, y :: SameRunner(who, w, x, y) ==> x == y)
    && (forall x :: Awaits(who, w, x) ==> !Begun(w.turns, w.threads[x].launch))
  }

  // ---- what happened ----

  ghost predicate TurnInv(who: Option<string>, w: World) {
    && (forall i :: 0 <= i < |w.turns| ==>
         w.turns[i].launch in w.launches && w.launches[w.turns[i].launch].worker == w.turns[i].worker)
    && (forall i :: 0 <= i < |w.turns| && who == Some(w.turns[i].worker) ==>
         w.turns[i].worker in w.granted && w.granted[w.turns[i].worker] == w.turns[i].launch)
    && (forall i, j :: 0 <= i < j < |w.turns| && who == Some(w.turns[i].worker) ==>
         w.turns[i].worker != w.turns[j].worker)
  }

  ghost predicate ReplyOk(who: Option<string>, w: World, a: Answered) {
    a.reply.Success? ==>
      && Wrote(w, a.order.worker, a.reply.thread, a.reply.turn)
      && (who == Some(a.order.worker) ==>
           a.order.worker in w.asked && Matches(w.asked[a.order.worker], a.order))
  }

  ghost predicate ReplyInv(who: Option<string>, w: World) {
    forall a :: a in w.replies ==> ReplyOk(who, w, a)
  }

  ghost predicate Inv(who: Option<string>, w: World) {
    LedgerInv(who, w) && GrantInv(who, w) && LaunchInv(who, w) && ThreadInv(who, w) && TurnInv(who, w)
      && ReplyInv(who, w)
  }

  // ---- frames ----

  lemma {:induction false} ThreadGrows(who: Option<string>, w: World, u: World, t: Thread)
    requires Grows(who, w, u) && ThreadOk(who, w, t)
    ensures ThreadOk(who, u, t)
  {
    if t.Runner? {
      match t.rpc
      case Announcing(th, tu) => WroteGrows(who, w, u, w.launches[t.launch].worker, th, tu);
      case Recovered(th, tu) => WroteGrows(who, w, u, w.launches[t.launch].worker, th, tu);
      case _ =>
    } else if t.hpc.Locking? {
      var k :| 0 <= k < |w.history| && w.history[k] == Written(t.order.worker, t.hpc.row);
      assert u.history[k] == w.history[k];
    }
  }

  /** Threads other than `tid` are untouched; `tid` moved on or ended, and no launch gained a runner or a start. */
  lemma {:induction false} OneThreadMoves(who: Option<string>, w: World, u: World, tid: nat)
    requires ThreadInv(who, w) && Grows(who, w, u) && tid in w.threads
    requires forall x :: x in u.threads && x != tid ==> x in w.threads && u.threads[x] == w.threads[x]
    requires tid in u.threads ==> ThreadOk(who, u, u.threads[tid])
    requires tid in u.threads && u.threads[tid].Runner? ==>
               w.threads[tid].Runner? && u.threads[tid].launch == w.threads[tid].launch
                 && u.threads[tid].rpc != Starting
    requires u.turns == w.turns
             || (w.threads[tid].Runner? && exists id :: u.turns == w.turns + [Turn(id, w.threads[tid].launch)])
    ensures ThreadInv(who, u)
  {
    forall x | x in u.threads ensures ThreadOk(who, u, u.threads[x]) {
      if x != tid { ThreadGrows(who, w, u, w.threads[x]); }
    }
    forall x, y | SameRunner(who, u, x, y) ensures x == y {
      assert SameRunner(who, w, x, y);
    }
    forall x | Awaits(who, u, x) ensures !Begun(u.turns, u.threads[x].launch) {
      assert x != tid && Awaits(who, w, x) && !SameRunner(who, w, x, tid);
    }
  }

  lemma {:induction false} RepliesGrow(who: Option<string>, w: World, u: World)
    requires ReplyInv(who, w) && Grows(who, w, u) && |w.replies| <= |u.replies| && u.replies[..|w.replies|] == w.replies
    requires forall i :: |w.replies| <= i < |u.replies| ==> ReplyOk(who, u, u.replies[i])
    ensures ReplyInv(who, u)
  {
    forall a | a in u.replies ensures ReplyOk(who, u, a) {
      var i :| 0 <= i < |u.replies| && u.replies[i] == a;
      if i < |w.replies| {
        assert a == u.replies[..|w.replies|][i] && a in w.replies;
        if a.reply.Success? { WroteGrows(who, w, u, a.order.worker, a.reply.thread, a.reply.turn); }
      }
    }
  }

  /** Outcomes recorded earlier stay justified. */
  lemma {:induction false} LaunchesGrow(who: Option<string>, w: World, u: World, changed: nat)
    requires LaunchInv(who, w) && Grows(who, w, u)
    requires forall l :: l in u.launches && l != changed ==> l in w.launches && u.launches[l] == w.launches[l]
    requires changed in u.launches ==> LaunchOk(who, u, changed)
    ensures forall l :: l in u.launches ==> LaunchOk(who, u, l)
  {
    forall l | l in u.launches ensures LaunchOk(who, u, l) {
      if l != changed {
        var r := w.launches[l].outcome;
        if r.Some? && r.value.Success? { WroteGrows(who, w, u, w.launches[l].worker, r.value.thread, r.value.turn); }
      }
    }
  }

  lemma {:induction false} LedgerWrite(who: Option<string>, w: World, u: World, id: string, row: Row)
    requires LedgerInv(who, w) && u.ledger == w.ledger[id := row] && u.history == w.history + [Written(id, row)]
    requires u.asked == w.asked
    requires who == Some(id) ==> row.requests == if id in w.ledger then w.ledger[id].requests else []
    ensures LedgerInv(who, u)
  {
    if id in w.ledger {
      assert RecordOk(who, w, Written(id, w.ledger[id]));
    }
    forall x | x in u.history ensures RecordOk(who, u, x) {
      assert x in w.history || x == Written(id, row);
      if x in w.history { assert RecordOk(who, w, x); }
    }
  }

  lemma {:induction false} IdentityWritten(who: Option<string>, w: World, id: string, thread: string, turn: string,
          c: Commit)
    requires LedgerInv(who, w)
    ensures var u := WithIdentity(w, id, thread, turn, c);
            LedgerInv(who, u) && Grows(who, w, u) && (Went(w, id, c) ==> Wrote(u, id, thread, turn))
  {
    var u := WithIdentity(w, id, thread, turn, c);
    if id in w.ledger && c != Aborted {
      LedgerWrite(who, w, u, id, w.ledger[id].(thread := thread, turn := turn));
      assert u.history[|w.history|].worker == id;
    }
  }

  // ---- handler steps ----

  /** A handler moves on, or ends with a reply; nothing else changes but the table and failed outcomes. */
  lemma {:induction false} HandlerMoves(who: Option<string>, w: World, u: World, tid: nat, l: nat)
    requires Inv(who, w) && tid in w.threads && w.threads[tid].Handler?
    requires u.ledger == w.ledger && u.history == w.history && u.asked == w.asked && u.granted == w.granted
    requires u.turns == w.turns
    requires forall x :: x in u.threads && x != tid ==> x in w.threads && u.threads[x] == w.threads[x]
    requires tid in u.threads ==> u.threads[tid].Handler? && HandlerOk(who, u, u.threads[tid])
    requires Grows(who, w, u)
    requires forall x :: x in u.launches && x != l ==> x in w.launches && u.launches[x] == w.launches[x]
    requires l in u.launches ==> LaunchOk(who, u, l)
    requires forall k :: k in u.table ==> u.table[k] in u.launches && u.launches[u.table[k]].worker == k.1
    requires |w.replies| <= |u.replies| && u.replies[..|w.replies|] == w.replies
    requires forall i :: |w.replies| <= i < |u.replies| ==> ReplyOk(who, u, u.replies[i])
    ensures Inv(who, u)
  {
    OneThreadMoves(who, w, u, tid);
    RepliesGrow(who, w, u);
    LaunchesGrow(who, w, u, l);
    assert forall x :: x in u.history ==> RecordOk(who, w, x);
  }

  lemma {:induction false} AnswerKeepsInv(who: Option<string>, w: World, tid: nat, r: Reply)
    requires Inv(who, w) && tid in w.threads && w.threads[tid].Handler?
    requires ReplyOk(who, w, Answered(w.threads[tid].order, r))
    ensures Inv(who, Answer(w, tid, w.threads[tid].order, r))
  {
    var u := Answer(w, tid, w.threads[tid].order, r);
    assert u.replies[..|w.replies|] == w.replies;
    if r.Success? { WroteGrows(who, w, u, w.threads[tid].order.worker, r.thread, r.turn); }
    SomeUnused(who, w, tid, u);
  }

  lemma {:induction false} SomeUnused(who: Option<string>, w: World, tid: nat, u: World)
    requires Inv(who, w) && tid in w.threads && w.threads[tid].Handler?
    requires u == w.(threads := u.threads, replies := u.replies)
    requires forall x :: x in u.threads && x != tid ==> x in w.threads && u.threads[x] == w.threads[x]
    requires tid in u.threads ==> u.threads[tid].Handler? && HandlerOk(who, u, u.threads[tid])
    requires |w.replies| <= |u.replies| && u.replies[..|w.replies|] == w.replies
    requires forall i :: |w.replies| <= i < |u.replies| ==> ReplyOk(who, u, u.replies[i])
    ensures Inv(who, u)
  {
    forall l | l in u.launches ensures LaunchOk(who, u, l) { assert LaunchOk(who, w, l); }
    HandlerMoves(who, w, u, tid, 0);
  }

  lemma {:induction false} ReadKeepsInv(who: Option<string>, w: World, tid: nat)
    requires Inv(who, w) && tid in w.threads && w.threads[tid].Handler?
    ensures Inv(who, ReadStep(w, tid, w.threads[tid].process, w.threads[tid].order))
  {
    var t := w.threads[tid];
    var u := ReadStep(w, tid, t.process, t.order);
    if tid in u.threads {
      SomeUnused(who, w, tid, u);
    } else {
      AnswerKeepsInv(who, w, tid, Failure);
    }
  }

  lemma {:induction false} LockKeepsInv(who: Option<string>, w: World, tid: nat, newLaunch: nat)
    requires Inv(who, w) && tid in w.threads && w.threads[tid].Handler? && w.threads[tid].hpc.Locking?
    requires newLaunch !in w.launches
    ensures Inv(who, LockStep(w, tid, w.threads[tid].process, w.threads[tid].order, w.threads[tid].hpc.row, newLaunch))
  {
    var t := w.threads[tid];
    var o, row := t.order, t.hpc.row;
    var digest := DigestOf(o, row);
    var key := (t.process, o.worker);
    var u := LockStep(w, tid, t.process, o, row, newLaunch);
    assert HandlerOk(who, w, t);
    if key in w.table && w.table[key] in w.launches {
      if w.launches[w.table[key]].ask != Ask(o.request, digest) {
        AnswerKeepsInv(who, w, tid, Conflict);
      } else {
        SomeUnused(who, w, tid, u);
      }
    } else {
      ReplayMeans(row, row.requests, o.request, digest);
      match ReplayOf(row, o.request, digest)
      case Refused => AnswerKeepsInv(who, w, tid, Conflict);
      case Replayed => ReplayReplyOk(who, w, o, row); AnswerKeepsInv(who, w, tid, Success(row.thread, row.turn, true));
      case Fresh => EnterKeepsInv(who, w, tid, newLaunch, row);
    }
  }

  lemma {:induction false} ReplayReplyOk(who: Option<string>, w: World, o: Order, row: Row)
    requires LedgerInv(who, w) && Written(o.worker, row) in w.history
    requires Ask(o.request, DigestOf(o, row)) in row.requests
    ensures ReplyOk(who, w, Answered(o, Success(row.thread, row.turn, true)))
  {
    assert RecordOk(who, w, Written(o.worker, row));
    var k :| 0 <= k < |w.history| && w.history[k] == Written(o.worker, row);
    assert Wrote(w, o.worker, row.thread, row.turn);
  }

  /** The launch table after a new launch was entered. */
  function Entered(w: World, tid: nat, newLaunch: nat, row: Row): World
    requires tid in w.threads && w.threads[tid].Handler?
  {
    var t := w.threads[tid];
    var o := t.order;
    At(w, tid, t.process, o, Guarding(newLaunch)).(
      table := w.table[(t.process, o.worker) := newLaunch],
      launches := w.launches[newLaunch := Launch(t.process, o.worker, Ask(o.request, DigestOf(o, row)), None)])
  }

  lemma {:induction false} EnteredOk(who: Option<string>, w: World, tid: nat, newLaunch: nat, row: Row)
    requires LaunchInv(who, w) && tid in w.threads && w.threads[tid].Handler? && newLaunch !in w.launches
    ensures var u := Entered(w, tid, newLaunch, row);
            && Grows(who, w, u) && HandlerOk(who, u, u.threads[tid]) && LaunchOk(who, u, newLaunch)
            && forall k :: k in u.table ==> u.table[k] in u.launches && u.launches[u.table[k]].worker == k.1
  {
  }

  lemma {:induction false} EnterKeepsInv(who: Option<string>, w: World, tid: nat, newLaunch: nat, row: Row)
    requires Inv(who, w) && tid in w.threads && w.threads[tid].Handler? && newLaunch !in w.launches
    ensures Inv(who, Entered(w, tid, newLaunch, row))
  {
    var u := Entered(w, tid, newLaunch, row);
    EnteredOk(who, w, tid, newLaunch, row);
    assert u.replies[..|w.replies|] == w.replies;
    HandlerMoves(who, w, u, tid, newLaunch);
  }

  lemma {:induction false} DropKeepsInv(who: Option<string>, w: World, tid: nat)
    requires Inv(who, w) && tid in w.threads && w.threads[tid].Handler? && w.threads[tid].hpc.Dropping?
    ensures Inv(who, HandlerStep(w, tid, w.threads[tid], Choice(Aborted, "", "", false, 0)))
  {
    var t := w.threads[tid];
    var u := HandlerStep(w, tid, t, Choice(Aborted, "", "", false, 0));
    assert HandlerOk(who, w, t);
    assert u.replies[..|w.replies|] == w.replies;
    HandlerMoves(who, w, u, tid, t.hpc.launch);
  }

  lemma {:induction false} FailKeepsInv(who: Option<string>, w: World, tid: nat)
    requires Inv(who, w) && tid in w.threads && w.threads[tid].Handler? && w.threads[tid].hpc.Failing?
    ensures Inv(who, HandlerStep(w, tid, w.threads[tid], Choice(Aborted, "", "", false, 0)))
  {
    var t := w.threads[tid];
    var u := HandlerStep(w, tid, t, Choice(Aborted, "", "", false, 0));
    assert HandlerOk(who, w, t);
    assert u.replies[..|w.replies|] == w.replies;
    HandlerMoves(who, w, u, tid, t.hpc.launch);
  }

  lemma {:induction false} WaitKeepsInv(who: Option<string>, w: World, tid: nat)
    requires Inv(who, w) && tid in w.threads && w.threads[tid].Handler? && w.threads[tid].hpc.Waiting?
    ensures Inv(who, WaitStep(w, tid, w.threads[tid].order, w.threads[tid].hpc.launch, w.threads[tid].hpc.own))
  {
    var t := w.threads[tid];
    var l := t.hpc.launch;
    assert HandlerOk(who, w, t);
    if w.launches[l].outcome.Some? {
      assert LaunchOk(who, w, l);
      var r := w.launches[l].outcome.value;
      AnswerKeepsInv(who, w, tid, if r.Success? && !t.hpc.own then Success(r.thread, r.turn, true) else r);
    }
  }

  // ---- the guard ----

  predicate Unasked(who: Option<string>, w: World, id: string) {
    who == Some(id) ==> id !in w.asked && id !in w.granted
  }

  lemma {:induction false} NotYetGranted(who: Option<string>, w: World, id: string)
    requires Inv(who, w) && GuardHolds(w, id)
    ensures Unasked(who, w, id)
  {
  }

  lemma {:induction false} AskKeepsLedger(who: Option<string>, w: World, u: World, id: string, ask: Ask)
    requires LedgerInv(who, w) && id in w.ledger && (who == Some(id) ==> id !in w.asked)
    requires u.asked == w.asked[id := ask] && u.ledger == w.ledger[id := w.ledger[id].(requests := [ask])]
    requires u.history == w.history + [Written(id, w.ledger[id].(requests := [ask]))]
    ensures LedgerInv(who, u)
  {
    forall x | x in u.history ensures RecordOk(who, u, x) {
      if x in w.history { assert RecordOk(who, w, x); }
    }
  }

  /** The guard's commit, reported or not, as far as the tables go. */
  function Asked(w: World, id: string, l: nat, reported: bool): World
    requires id in w.ledger && l in w.launches
  {
    var row := w.ledger[id].(requests := [w.launches[l].ask]);
    w.(ledger := w.ledger[id := row], history := w.history + [Written(id, row)],
      asked := w.asked[id := w.launches[l].ask],
       granted := if reported then w.granted[id := l] else w.granted)
  }

  lemma {:induction false} AskedGrows(who: Option<string>, w: World, id: string, l: nat, reported: bool)
    requires id in w.ledger && l in w.launches && Unasked(who, w, id)
    ensures Grows(who, w, Asked(w, id, l, reported))
  {
  }

  lemma {:induction false} AskedKeepsGrants(who: Option<string>, w: World, id: string, l: nat, reported: bool)
    requires id in w.ledger && l in w.launches && Unasked(who, w, id) && w.launches[l].worker == id
    requires GrantInv(who, w) && TurnInv(who, w)
    ensures GrantInv(who, Asked(w, id, l, reported)) && TurnInv(who, Asked(w, id, l, reported))
  {
  }

  lemma {:induction false} AskedKeepsOutcomes(who: Option<string>, w: World, id: string, l: nat, reported: bool)
    requires id in w.ledger && l in w.launches && Unasked(who, w, id)
    requires LaunchInv(who, w)
    ensures LaunchInv(who, Asked(w, id, l, reported))
  {
    var u := Asked(w, id, l, reported);
    AskedGrows(who, w, id, l, reported);
    GrantedOutcome(who, w, u, l);
    LaunchesGrow(who, w, u, l);
  }

  lemma {:induction false} AskedKeepsReplies(who: Option<string>, w: World, id: string, l: nat, reported: bool)
    requires id in w.ledger && l in w.launches && Unasked(who, w, id)
    requires ReplyInv(who, w)
    ensures ReplyInv(who, Asked(w, id, l, reported))
  {
    AskedGrows(who, w, id, l, reported);
    assert w.replies[..|w.replies|] == w.replies;
    RepliesGrow(who, w, Asked(w, id, l, reported));
  }

  lemma {:induction false} AskedKeepsInv(who: Option<string>, w: World, id: string, l: nat, reported: bool)
    requires LedgerInv(who, w) && GrantInv(who, w) && LaunchInv(who, w) && TurnInv(who, w) && ReplyInv(who, w)
    requires id in w.ledger && l in w.launches && Unasked(who, w, id) && w.launches[l].worker == id
    ensures var u := Asked(w, id, l, reported);
            LedgerInv(who, u) && GrantInv(who, u) && LaunchInv(who, u) && TurnInv(who, u) && ReplyInv(who, u)
  {
    AskKeepsLedger(who, w, Asked(w, id, l, reported), id, w.launches[l].ask);
    AskedKeepsGrants(who, w, id, l, reported);
    AskedKeepsOutcomes(who, w, id, l, reported);
    AskedKeepsReplies(who, w, id, l, reported);
  }

  lemma {:induction false} OtherThreads(who: Option<string>, u: World, v: World)
    requires LedgerInv(who, u) && GrantInv(who, u) && LaunchInv(who, u) && TurnInv(who, u) && ReplyInv(who, u)
    requires ThreadInv(who, v)
    requires v == u.(threads := v.threads)
    ensures Inv(who, v)
  {
    forall l | l in v.launches ensures LaunchOk(who, v, l) { assert LaunchOk(who, u, l); }
    forall x | x in v.history ensures RecordOk(who, v, x) { assert RecordOk(who, u, x); }
    forall a | a in v.replies ensures ReplyOk(who, v, a) { assert ReplyOk(who, u, a); }
  }

  lemma {:induction false} GuardKeepsInv(who: Option<string>, w: World, tid: nat, c: Choice)
    requires Inv(who, w) && tid in w.threads && w.threads[tid].Handler? && w.threads[tid].hpc.Guarding?
    requires c.newId !in w.threads
    ensures Inv(who, GuardStep(w, tid, w.threads[tid].process, w.threads[tid].order, w.threads[tid].hpc.launch, c))
  {
    var t := w.threads[tid];
    var id, l := t.order.worker, t.hpc.launch;
    var u := GuardStep(w, tid, t.process, t.order, l, c);
    assert HandlerOk(who, w, t);
    if !GuardHolds(w, id) || c.commit == Aborted {
      assert u.replies[..|w.replies|] == w.replies;
      SomeUnused(who, w, tid, u);
    } else {
      NotYetGranted(who, w, id);
      AskedGrows(who, w, id, l, c.commit == Committed);
      AskedKeepsInv(who, w, id, l, c.commit == Committed);
      GuardThreads(who, w, u, tid, c.newId, c.commit == Committed);
      OtherThreads(who, Asked(w, id, l, c.commit == Committed), u);
    }
  }

  lemma {:induction false} GuardThreads(who: Option<string>, w: World, u: World, tid: nat, newTid: nat, reported: bool)
    requires ThreadInv(who, w) && TurnInv(who, w) && GrantInv(who, w)
    requires tid in w.threads && w.threads[tid].Handler? && w.threads[tid].hpc.Guarding? && newTid !in w.threads
    requires HandlerOk(who, w, w.threads[tid])
    requires var t := w.threads[tid];
             var id, l := t.order.worker, t.hpc.launch;
             && id in w.ledger && Unasked(who, w, id)
             && u == Asked(w, id, l, reported).(threads :=
                       if reported
                       then w.threads[tid := Handler(t.process, t.order, Waiting(l, true))][newTid := Runner(t.process,
                         l, Starting)]
                       else w.threads[tid := Handler(t.process, t.order, Dropping(l, Failure))])
    ensures ThreadInv(who, u)
  {
    AskedGrows(who, w, w.threads[tid].order.worker, w.threads[tid].hpc.launch, reported);
    if reported {
      RunnerBorn(who, w, u, tid, newTid);
    } else {
      OneThreadMoves(who, w, u, tid);
    }
  }

  lemma {:induction false} GrantedOutcome(who: Option<string>, w: World, u: World, l: nat)
    requires LaunchInv(who, w) && Grows(who, w, u) && l in w.launches && u.launches == w.launches
    ensures LaunchOk(who, u, l)
  {
    assert LaunchOk(who, w, l);
    var r := w.launches[l].outcome;
    if r.Some? && r.value.Success? { WroteGrows(who, w, u, w.launches[l].worker, r.value.thread, r.value.turn); }
  }

  lemma {:induction false} RunnerBorn(who: Option<string>, w: World, u: World, tid: nat, newTid: nat)
    requires ThreadInv(who, w) && TurnInv(who, w) && GrantInv(who, w) && Grows(who, w, u) && u.turns == w.turns
    requires tid in w.threads && w.threads[tid].Handler? && newTid !in w.threads
    requires w.threads[tid].hpc.Guarding? && HandlerOk(who, w, w.threads[tid])
    requires Unasked(who, w, w.threads[tid].order.worker)
    requires u.launches == w.launches
    requires u.granted == w.granted[w.threads[tid].order.worker := w.threads[tid].hpc.launch]
    requires var t := w.threads[tid];
             u.threads == w.threads[tid := Handler(t.process, t.order,
               Waiting(t.hpc.launch, true))][newTid := Runner(t.process, t.hpc.launch, Starting)]
    ensures ThreadInv(who, u)
  {
    var l := w.threads[tid].hpc.launch;
    forall x | x in u.threads ensures ThreadOk(who, u, u.threads[x]) {
      if x != tid && x != newTid { ThreadGrows(who, w, u, w.threads[x]); }
    }
    forall x | x in w.threads && w.threads[x].Runner? && who == Some(w.threads[tid].order.worker)
      ensures w.threads[x].launch != l
    {
      assert RunnerOk(who, w, w.threads[x]);
    }
    assert who == Some(w.threads[tid].order.worker) ==> !Begun(w.turns, l);
    forall x, y | SameRunner(who, u, x, y) ensures x == y {
      assert x != newTid && y != newTid ==> SameRunner(who, w, x, y);
    }
  }
}
