/** A launch that went through is answered from the record ever after: the run, from the first request to its repeat. */
module SpawnReplay {
  import opened Basics
  import opened Spawn
  import opened SpawnPromises

  /** Some events lead from one world to the other. */
  ghost predicate Leads(w: World, u: World) {
    exists ws: seq<World>, evs: seq<Event> :: IsRun(ws, evs) && ws[0] == w && ws[|ws| - 1] == u
  }

  lemma {:induction false} LeadsByOne(w: World, ev: Event)
    requires Enabled(w, ev)
    ensures Leads(w, Apply(w, ev))
  {
    var ws := OneStep(w, ev);
    assert IsRun(ws, [ev]) && ws[0] == w && ws[|ws| - 1] == Apply(w, ev);
  }

  lemma {:induction false} LeadsOn(w: World, u: World, v: World)
    requires Leads(w, u) && Leads(u, v)
    ensures Leads(w, v)
  {
    var ws, evs :| IsRun(ws, evs) && ws[0] == w && ws[|ws| - 1] == u;
    var vs, fs :| IsRun(vs, fs) && vs[0] == u && vs[|vs| - 1] == v;
    JoinRuns(ws, evs, vs, fs);
  }

  lemma {:induction false} RunLeads(ws: seq<World>, evs: seq<Event>)
    requires IsRun(ws, evs)
    ensures Leads(ws[0], ws[|ws| - 1])
  {
  }

  // ---- a repeated request ----

  /** The record answers the order: the newest event with its request ID carries its fingerprint, and the identity is
      complete. */
  ghost predicate OnRecord(row: Row, o: Order) {
    && row.thread != "" && row.turn != ""
    && exists i :: IsNewest(row.requests, o.request, i) && row.requests[i].digest == DigestOf(o, row)
  }

  /** From any world in which no launch of the worker is in the process's table and the record answers the order, the
      order is answered with the stored identity, as a replay, and nothing else changes. */
  lemma {:induction false} RecordAnswers(w: World, o: Order, p: nat, tid: nat) returns (u: World)
    requires ValidOrder(o) && o.worker in w.ledger && w.ledger[o.worker].eligible && OnRecord(w.ledger[o.worker], o)
    requires (p, o.worker) !in w.table && tid !in w.threads
    ensures Leads(w, u)
    ensures u == w.(replies := w.replies
                      + [Answered(o, Success(w.ledger[o.worker].thread, w.ledger[o.worker].turn, true))])
  {
    var row := w.ledger[o.worker];
    var ws, evs := ReadRun(w, o, p, tid);
    var read := ws[|ws| - 1];
    RunLeads(ws, evs);
    ReplayIff(row, o.request, DigestOf(o, row));
    var unused := AboveAll(w.launches.Keys);
    var answer := Step(tid, Plain(unused));
    u := Apply(read, answer);
    LeadsByOne(read, answer);
    LeadsOn(w, read, u);
    assert u.threads == w.threads;
  }

  // ---- the launch before it ----

  /** The turn runs, its handler waits, and the event is on record. */
  ghost predicate IsUnderWay(w: World, o: Order, row: Row, p: nat, tid: nat, rid: nat, l: nat) {
    && tid != rid && w.threads == map[tid := Handler(p, o, Waiting(l, true)), rid := Runner(p, l, Running(false))]
    && w.table == map[(p, o.worker) := l] && l in w.launches
    && w.launches[l] == Launch(p, o.worker, Ask(o.request, DigestOf(o, row)), None)
    && w.ledger == map[o.worker := row.(requests := [Ask(o.request, DigestOf(o, row))])]
    && w.replies == [] && |w.turns| == 1
  }

  lemma {:induction false} Guarded(w: World, o: Order, row: Row) returns (u: World)
    requires Initial(w) && ValidOrder(o) && row.eligible && row.thread == "" && row.turn == "" && row.requests == []
    ensures Leads(w, u) && u.threads == map[0 := Handler(1, o, Guarding(0))] && u.table == map[(1, o.worker) := 0]
    ensures u.launches == map[0 := Launch(1, o.worker, Ask(o.request, DigestOf(o, row)), None)]
    ensures u.ledger == map[o.worker := row] && u.replies == [] && u.turns == []
  {
    var known := Apply(w, Edit(o.worker, row));
    LeadsByOne(w, Edit(o.worker, row));
    var ws, evs := ReadRun(known, o, 1, 0);
    var read := ws[|ws| - 1];
    RunLeads(ws, evs);
    LeadsOn(w, known, read);
    ReplayIff(row, o.request, DigestOf(o, row));
    u := Apply(read, Step(0, Plain(0)));
    LeadsByOne(read, Step(0, Plain(0)));
    LeadsOn(w, read, u);
  }

  lemma {:induction false} Launches(w: World, o: Order, row: Row) returns (u: World)
    requires Initial(w) && ValidOrder(o) && row.eligible && row.thread == "" && row.turn == "" && row.requests == []
    ensures Leads(w, u) && IsUnderWay(u, o, row, 1, 0, 1, 0)
  {
    var guarded := Guarded(w, o, row);
    var granted := Apply(guarded, Step(0, Plain(1)));
    LeadsByOne(guarded, Step(0, Plain(1)));
    LeadsOn(w, guarded, granted);
    u := Apply(granted, Step(1, Plain(0)));
    LeadsByOne(granted, Step(1, Plain(0)));
    LeadsOn(w, granted, u);
  }

  /** The runner persists the identity and announces it. */
  lemma {:induction false} Announces(w: World, o: Order, row: Row, thread: string, turn: string) returns (u: World)
    requires IsUnderWay(w, o, row, 1, 0, 1, 0)
    ensures Leads(w, u)
    ensures u.threads == map[0 := Handler(1, o, Waiting(0, true)), 1 := Runner(1, 0, Running(true))]
    ensures u.table == w.table && u.replies == w.replies && u.turns == w.turns
    ensures u.ledger == map[o.worker := w.ledger[o.worker].(thread := thread, turn := turn)]
    ensures u.launches == w.launches[0 := w.launches[0].(outcome := Some(Success(thread, turn, false)))]
  {
    var persist, announce := Step(1, Choice(Committed, thread, turn, false, 0)), Step(1, Plain(0));
    var a := Apply(w, persist);
    LeadsByOne(w, persist);
    assert a.threads == map[0 := Handler(1, o, Waiting(0, true)), 1 := Runner(1, 0, Announcing(thread, turn))];
    u := Apply(a, announce);
    LeadsByOne(a, announce);
    LeadsOn(w, a, u);
  }

  /** ... and the request is answered. */
  lemma {:induction false} Answers(w: World, o: Order, row: Row, thread: string, turn: string) returns (u: World)
    requires IsUnderWay(w, o, row, 1, 0, 1, 0)
    ensures Leads(w, u) && u.threads == map[1 := Runner(1, 0, Running(true))] && u.table == w.table
    ensures u.ledger == map[o.worker := w.ledger[o.worker].(thread := thread, turn := turn)]
    ensures 0 in u.launches && u.launches[0].worker == o.worker
    ensures u.replies == [Answered(o, Success(thread, turn, false))] && u.turns == w.turns
  {
    var told := Announces(w, o, row, thread, turn);
    u := Apply(told, Step(0, Plain(0)));
    LeadsByOne(told, Step(0, Plain(0)));
    LeadsOn(w, told, u);
  }

  lemma {:induction false} Closes(w: World, o: Order, thread: string, turn: string) returns (u: World)
    requires w.threads == map[1 := Runner(1, 0, Running(true))]
    requires 0 in w.launches && w.launches[0].worker == o.worker && o.worker in w.ledger
    requires w.ledger[o.worker].thread == thread && w.ledger[o.worker].turn == turn
    ensures Leads(w, u) && u.threads == map[1 := Runner(1, 0, Leaving)] && u.launches == w.launches
    ensures u.table == w.table && u.ledger == w.ledger && u.replies == w.replies && u.turns == w.turns
  {
    var end, close := Step(1, Choice(Committed, thread, turn, true, 0)), Step(1, Plain(0));
    var a := Apply(w, end);
    LeadsByOne(w, end);
    u := Apply(a, close);
    LeadsByOne(a, close);
    LeadsOn(w, a, u);
    assert u.ledger == w.ledger;
  }

  /** The turn ends, and the launch leaves the table. */
  lemma {:induction false} Leaves(w: World, o: Order, thread: string, turn: string) returns (u: World)
    requires w.threads == map[1 := Runner(1, 0, Running(true))] && w.table == map[(1, o.worker) := 0]
    requires 0 in w.launches && w.launches[0].worker == o.worker && o.worker in w.ledger
    requires w.ledger[o.worker].thread == thread && w.ledger[o.worker].turn == turn
    ensures Leads(w, u) && u.threads == map[] && u.table == map[] && u.ledger == w.ledger
    ensures u.replies == w.replies && u.turns == w.turns
  {
    var closed := Closes(w, o, thread, turn);
    u := Apply(closed, Step(1, Plain(0)));
    LeadsByOne(closed, Step(1, Plain(0)));
    LeadsOn(w, closed, u);
  }

  /** From the empty ledger: a worker is registered, asked to start, starts one turn under a thread and turn ID, and
      ends it. The same order again, in any process, is answered with that identity, and starts no turn. */
  lemma {:induction false} RepeatIsReplayed(w: World, o: Order, row: Row, thread: string, turn: string, p: nat)
    returns (u: World)
    requires Initial(w) && ValidOrder(o) && row.eligible && row.thread == "" && row.turn == "" && row.requests == []
    requires thread != "" && turn != ""
    ensures Leads(w, u) && |u.turns| == 1
    ensures u.replies == [Answered(o, Success(thread, turn, false)), Answered(o, Success(thread, turn, true))]
  {
    var launched := Launches(w, o, row);
    var answered := Answers(launched, o, row, thread, turn);
    LeadsOn(w, launched, answered);
    var left := Leaves(answered, o, thread, turn);
    LeadsOn(w, answered, left);
    assert IsNewest(left.ledger[o.worker].requests, o.request, 0);
    u := RecordAnswers(left, o, p, 0);
    LeadsOn(w, left, u);
  }
}
