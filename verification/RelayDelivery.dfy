/** The undisturbed cycle as events: from any reachable world the whole system can finish what a host has pending, and
    deliver what is queued for it. */
module RelayDelivery {
  import opened Basics
  import opened RelayTables
  import opened RelayLease
  import opened RelayReceipts
  import opened RelayHandlers
  import opened RelayRunner
  import opened RelayWorld
  import opened RelaySafety
  import opened RelayReach
  import opened RelayProgress
  import opened RelayRecovery
  import opened RelayService

  lemma {:induction false} JoinRuns(ws: seq<World>, evs: seq<Event>, vs: seq<World>, fs: seq<Event>)
    requires IsRun(ws, evs) && IsRun(vs, fs) && ws[|ws| - 1] == vs[0]
    ensures IsRun(ws + vs[1..], evs + fs)
    ensures (ws + vs[1..])[0] == ws[0] && (ws + vs[1..])[|ws + vs[1..]| - 1] == vs[|vs| - 1]
  {
    var all, es := ws + vs[1..], evs + fs;
    forall i {:trigger es[i]} | 0 <= i < |es| ensures Enabled(all[i], es[i]) && all[i + 1] == Apply(all[i], es[i]) {
      JoinedAt(ws, evs, vs, fs, i);
    }
  }

  /** Some events lead from one world to the other. */
  ghost predicate Leads(w: World, u: World) {
    exists ws: seq<World>, evs: seq<Event> :: IsRun(ws, evs) && ws[0] == w && ws[|ws| - 1] == u
  }

  lemma {:induction false} LeadsNowhere(w: World)
    ensures Leads(w, w)
  {
    var evs: seq<Event> := [];
    assert IsRun([w], evs) && [w][0] == w;
  }

  lemma {:induction false} LeadsByOne(w: World, ev: Event)
    requires Enabled(w, ev)
    ensures Leads(w, Apply(w, ev))
  {
    var ws := [w, Apply(w, ev)];
    assert IsRun(ws, [ev]) && ws[0] == w && ws[|ws| - 1] == Apply(w, ev);
  }

  lemma {:induction false} LeadsOn(w: World, u: World, v: World)
    requires Leads(w, u) && Leads(u, v)
    ensures Leads(w, v)
  {
    var ws, evs :| IsRun(ws, evs) && ws[0] == w && ws[|ws| - 1] == u;
    var vs, fs :| IsRun(vs, fs) && vs[0] == u && vs[|vs| - 1] == v;
    JoinRuns(ws, evs, vs, fs);
  }

  lemma {:induction false} RunKeepsInv(ws: seq<World>, evs: seq<Event>, n: nat)
    requires IsRun(ws, evs) && Inv(ws[0]) && n < |ws|
    ensures Inv(ws[n])
  {
    if n > 0 {
      RunKeepsInv(ws, evs, n - 1);
      NextKeepsInv(ws[n - 1], evs[n - 1]);
    }
  }

  lemma {:induction false} LeadsKeepsInv(w: World, u: World)
    requires Inv(w) && Leads(w, u)
    ensures Inv(u)
  {
    var ws, evs :| IsRun(ws, evs) && ws[0] == w && ws[|ws| - 1] == u;
    RunKeepsInv(ws, evs, |ws| - 1);
  }

  // ---- one request, handled to its end ----

  /** The stages that a request goes through. */
  predicate StageFor(c: Call, s: Stage) {
    match s
    case Answered(_) => true
    case Arrived => true
    case Committing => !c.Ready? && !c.Inspect?
    case Committed => !c.Ready? && !c.Inspect?
    case Replaying(_) => c.Claim?
    case Joining => c.Claim?
    case Refusing => c.Send?
  }

  lemma {:induction false} StageLowers(t: Tables, q: Quota, c: Call, s: Stage)
    requires StageFor(c, s) && !s.Answered?
    ensures StageFor(c, Step(t, q, c, s).1) && StageRank(Step(t, q, c, s).1) < StageRank(s)
  {
  }

  /** The world after this request has been handled without interruption. */
  ghost function Handled(w: World, hid: nat): World
    requires hid in w.handlers
  {
    var (c, s) := w.handlers[hid];
    var r := RunFrom(w.t, w.q, c, s);
    w.(t := r.0, handlers := w.handlers[hid := (c, Answered(r.1))])
  }

  lemma {:induction false} HandleOn(w: World, hid: nat)
    requires hid in w.handlers && StageFor(w.handlers[hid].0, w.handlers[hid].1) && !w.handlers[hid].1.Answered?
    ensures var u := Apply(w, Handle(hid));
            && hid in u.handlers && u.handlers[hid].0 == w.handlers[hid].0
            && StageFor(u.handlers[hid].0, u.handlers[hid].1) && Handled(u, hid) == Handled(w, hid)
            && StageRank(u.handlers[hid].1) < StageRank(w.handlers[hid].1)
  {
    var (c, s) := w.handlers[hid];
    StageLowers(w.t, w.q, c, s);
    var u := Apply(w, Handle(hid));
    assert RunFrom(w.t, w.q, c, s) == RunFrom(u.t, u.q, c, u.handlers[hid].1);
    assert Handled(u, hid).handlers == Handled(w, hid).handlers;
  }

  lemma {:induction false} HandleLeads(w: World, hid: nat)
    requires hid in w.handlers && StageFor(w.handlers[hid].0, w.handlers[hid].1)
    ensures Leads(w, Handled(w, hid))
    decreases StageRank(w.handlers[hid].1)
  {
    if w.handlers[hid].1.Answered? {
      assert w.handlers[hid := w.handlers[hid]] == w.handlers;
      assert Handled(w, hid) == w;
      LeadsNowhere(w);
    } else {
      var u := Apply(w, Handle(hid));
      HandleOn(w, hid);
      HandleLeads(u, hid);
      LeadsByOne(w, Handle(hid));
      LeadsOn(w, u, Handled(w, hid));
    }
  }

  // ---- one turn of the cycle ----

  predicate Awaiting(pc: Pc) {
    pc in {AwaitClaim, AwaitInspect, AwaitReport}
  }

  predicate Runs(w: World, k: nat) {
    k in w.nodes && w.nodes[k].proc.Some? && w.nodes[k].proc.value.Receiver?
  }

  function LocalOf(w: World, k: nat): Local
    requires Runs(w, k)
  {
    w.nodes[k].proc.value.l
  }

  ghost function TurnOf(w: World, k: nat, env: Luck): Turn
    requires Runs(w, k)
  {
    TakeTurn(w.nodes[k].host, LocalOf(w, k), w.nodes[k].journal, w.t, w.q, env)
  }

  /** `u` is what a turn makes of `w`; the cycle remembers the number of its last request besides. */
  ghost predicate Took(w: World, k: nat, u: World, n: Turn) {
    && Runs(w, k) && Runs(u, k) && u.q == w.q && u.t == n.t
    && u.nodes[k].host == w.nodes[k].host && u.nodes[k].journal == n.j
    && LocalOf(u, k) == n.l.(call := LocalOf(u, k).call)
    && |u.log| == |w.log| + (if n.submitted then 1 else 0)
    && (LocalOf(w, k).pc != AskReady ==> u.owner == w.owner) && u.forged == w.forged
  }

  lemma {:induction false} BeginCommutes(l: Local, p: seq<Entry>, a: Answer, minted: string, c: nat)
    ensures BeginStep(l.(call := c), p, a, minted) == BeginStep(l, p, a, minted).(call := c)
  {
  }

  lemma {:induction false} AnswersCommute(host: string, l: Local, a: Answer, minted: string, c: nat)
    ensures ReadyAnswer(l.(call := c), a, minted) == ReadyAnswer(l, a, minted).(call := c)
    ensures ClaimAnswer(host, l.(call := c), a) == ClaimAnswer(host, l, a).(call := c)
    ensures InspectAnswer(host, l.(call := c), a, minted) == InspectAnswer(host, l, a, minted).(call := c)
    ensures ReportAnswer(l.(call := c), a) == ReportAnswer(l, a).(call := c)
  {
  }

  lemma {:induction false} SaveCommutes(host: string, l: Local, j: Journal, a: Answer, minted: string, c: nat)
    requires IsSave(l.pc)
    ensures Advance(host, l.(call := c), j, a, minted) == Advance(host, l, j, a, minted).(call := c)
  {
  }

  lemma {:induction false} StepCommutes(host: string, l: Local, j: Journal, a: Answer, minted: string, c: nat)
    requires !IsSave(l.pc)
    ensures Advance(host, l.(call := c), j, a, minted) == Advance(host, l, j, a, minted).(call := c)
  {
    BeginCommutes(l, j.pending, a, minted, c);
    AnswersCommute(host, l, a, minted, c);
  }

  lemma {:induction false} CallCommutes(host: string, l: Local, j: Journal, a: Answer, minted: string, c: nat)
    ensures Advance(host, l.(call := c), j, a, minted) == Advance(host, l, j, a, minted).(call := c)
    ensures JournalAfter(l.(call := c), j, a) == JournalAfter(l, j, a)
  {
    if IsSave(l.pc) { SaveCommutes(host, l, j, a, minted, c); } else { StepCommutes(host, l, j, a, minted, c); }
  }

  lemma {:induction false} TurnCommutes(host: string, l: Local, j: Journal, t: Tables, q: Quota, env: Luck, c: nat)
    ensures var n := TakeTurn(host, l, j, t, q, env);
            TakeTurn(host, l.(call := c), j, t, q, env) == n.(l := n.l.(call := c))
  {
    forall a: Answer, m: string
      ensures Advance(host, l.(call := c), j, a, m) == Advance(host, l, j, a, m).(call := c)
      ensures JournalAfter(l.(call := c), j, a) == JournalAfter(l, j, a)
    {
      CallCommutes(host, l, j, a, m, c);
    }
    var l1 := Advance(host, l, j, Proceed, env.receiptId);
    forall a: Answer, m: string
      ensures Advance(host, l1.(call := c), j, a, m) == Advance(host, l1, j, a, m).(call := c)
    {
      CallCommutes(host, l1, j, a, m, c);
    }
  }

  lemma {:induction false} DriveIgnoresCall(host: string, l: Local, j: Journal, t: Tables, q: Quota, env: Luck, c: nat)
    ensures Drive(host, l.(call := c), j, t, q, env) == Drive(host, l, j, t, q, env)
    decreases PcRank(l.pc)
  {
    if l.pc == Stopped {
      DriveStop(host, l, j, t, q, env);
      DriveStop(host, l.(call := c), j, t, q, env);
    } else {
      var n := TakeTurn(host, l, j, t, q, env);
      TurnCommutes(host, l, j, t, q, env, c);
      TurnLowers(host, l, j, t, q, env);
      DriveTurn(host, l, j, t, q, env, n);
      DriveTurn(host, l.(call := c), j, t, q, env, n.(l := n.l.(call := c)));
      DriveIgnoresCall(host, n.l, n.j, n.t, q, env, c);
    }
  }

  // ---- turns without a request ----

  predicate Asks(l: Local) {
    l.pc in {CallClaim, CallReport} || (l.pc == CallInspect && l.e.message.Some?)
  }

  /** What an undisturbed environment answers at a point that sends no request. */
  ghost function FairAnswer(w: World, host: string, l: Local, env: Luck): (Answer, string) {
    if l.pc == AskReady then (Told(RunCall(w.t, w.q, Ready(host)).1), env.entryId)
    else if l.pc == DoSubmit then (Returned(env.submission), env.receiptId)
    else (if IsSave(l.pc) then Saved(Stored) else Proceed, env.receiptId)
  }

  lemma {:induction false} ReadyAnswers(t: Tables, q: Quota, host: string)
    ensures RunCall(t, q, Ready(host)) == (t, IsReady(Claimable(t, host) != {}))
  {
    assert ReadyStep(t, Ready(host), Arrived).1.Answered?;
  }

  lemma {:induction false} ReadyTurn(w: World, k: nat, env: Luck, hid: nat)
    requires Runs(w, k) && LocalOf(w, k).pc == AskReady && env.entryId !in w.owner
    ensures var (a, minted) := FairAnswer(w, w.nodes[k].host, LocalOf(w, k), env);
            var ev := Cycle(k, a, minted, hid, env.now);
            Enabled(w, ev) && Took(w, k, Apply(w, ev), TurnOf(w, k, env))
  {
    ReadyAnswers(w.t, w.q, w.nodes[k].host);
  }

  lemma {:induction false} SubmitLeads(w: World, k: nat, env: Luck, hid: nat)
    requires Runs(w, k) && LocalOf(w, k).pc == DoSubmit && LocalOf(w, k).e.message.Some?
    ensures var ev := Cycle(k, Returned(env.submission), env.receiptId, hid, env.now);
            Enabled(w, ev) && Took(w, k, Apply(w, ev), TurnOf(w, k, env))
  {
    SubmitTurn(w.nodes[k].host, LocalOf(w, k), w.nodes[k].journal, w.t, w.q, env);
    SubmitShape(w, k, Returned(env.submission), env.receiptId, hid, env.now);
  }

  lemma {:induction false} SilentTurn(w: World, k: nat, env: Luck, hid: nat)
    requires Runs(w, k) && hid !in w.handlers
    requires LocalOf(w, k).pc !in {Stopped, AskReady, DoSubmit} && !Awaiting(LocalOf(w, k).pc) && !Asks(LocalOf(w, k))
    ensures var (a, minted) := FairAnswer(w, w.nodes[k].host, LocalOf(w, k), env);
            var ev := Cycle(k, a, minted, hid, env.now);
            Enabled(w, ev) && Took(w, k, Apply(w, ev), TurnOf(w, k, env))
  {
  }

  lemma {:induction false} QuietTurn(w: World, k: nat, env: Luck, hid: nat)
    requires Inv(w) && Runs(w, k) && hid !in w.handlers
    requires LocalOf(w, k).pc != Stopped && !Awaiting(LocalOf(w, k).pc) && !Asks(LocalOf(w, k))
    requires LocalOf(w, k).pc == AskReady ==> env.entryId !in w.owner
    ensures var (a, minted) := FairAnswer(w, w.nodes[k].host, LocalOf(w, k), env);
            var ev := Cycle(k, a, minted, hid, env.now);
            Enabled(w, ev) && Took(w, k, Apply(w, ev), TurnOf(w, k, env))
  {
    if LocalOf(w, k).pc == AskReady {
      ReadyTurn(w, k, env, hid);
    } else if LocalOf(w, k).pc == DoSubmit {
      assert NodeOk(FactsOf(w), k, w.nodes[k]);
      assert HasMessage(DoSubmit);
      SubmitLeads(w, k, env, hid);
    } else {
      SilentTurn(w, k, env, hid);
    }
  }

  // ---- turns with a request ----

  ghost function CallOf(host: string, l: Local, env: Luck): Call
    requires Asks(l)
  {
    Request(host, l, env.now).value
  }

  /** The request is sent: it arrives, and the cycle waits. */
  function Sent(w: World, k: nat, env: Luck, hid: nat): World
    requires Runs(w, k)
  {
    CycleStep(w, k, Proceed, env.receiptId, hid, env.now)
  }

  lemma {:induction false} SendTurn(w: World, k: nat, env: Luck, hid: nat)
    requires Runs(w, k) && hid !in w.handlers && Asks(LocalOf(w, k))
    ensures Enabled(w, Cycle(k, Proceed, env.receiptId, hid, env.now))
    ensures var u, l, host := Sent(w, k, env, hid), LocalOf(w, k), w.nodes[k].host;
            var waits := Advance(host, l, w.nodes[k].journal, Proceed, env.receiptId).(call := hid);
            && u == w.(nodes := w.nodes[k := Node(host, w.nodes[k].journal, Some(Receiver(waits)))],
                       handlers := w.handlers[hid := (CallOf(host, l, env), Arrived)])
            && Awaiting(waits.pc)
  {
  }

  lemma {:induction false} TakesAsk(w: World, k: nat, env: Luck)
    requires Runs(w, k) && Asks(LocalOf(w, k))
    ensures var l, host := LocalOf(w, k), w.nodes[k].host;
            var r := RunCall(w.t, w.q, CallOf(host, l, env));
            TurnOf(w, k, env) == Turn(Ask(host, l, w.nodes[k].journal, r.1, env.receiptId), w.nodes[k].journal, r.0,
              false)
  {
    var l, host := LocalOf(w, k), w.nodes[k].host;
    if l.pc == CallInspect {
      RunInspect(w.t, w.q, host, l.e.message.value.id);
    }
  }

  lemma {:induction false} HearTurn(w: World, k: nat, hid: nat, r: Response, minted: string, now: int)
    requires Runs(w, k) && Awaiting(LocalOf(w, k).pc) && LocalOf(w, k).call == hid && AnsweredWith(w, hid, r)
    ensures var ev := Cycle(k, Told(r), minted, hid, now);
            && Enabled(w, ev)
            && Apply(w, ev) == w.(nodes := w.nodes[k := Node(w.nodes[k].host, w.nodes[k].journal,
                                 Some(Receiver(Advance(w.nodes[k].host, LocalOf(w, k), w.nodes[k].journal, Told(r),
                                   minted))))])
  {
  }

  lemma {:induction false} AskTurn(w: World, k: nat, env: Luck, hid: nat) returns (u: World)
    requires Runs(w, k) && hid !in w.handlers && Asks(LocalOf(w, k))
    ensures Leads(w, u) && Took(w, k, u, TurnOf(w, k, env))
  {
    var l, host, j := LocalOf(w, k), w.nodes[k].host, w.nodes[k].journal;
    var sent := Sent(w, k, env, hid);
    SendTurn(w, k, env, hid);
    LeadsByOne(w, Cycle(k, Proceed, env.receiptId, hid, env.now));
    var handled := Handled(sent, hid);
    HandleLeads(sent, hid);
    LeadsOn(w, sent, handled);
    var r := RunCall(w.t, w.q, CallOf(host, l, env));
    HearTurn(handled, k, hid, r.1, env.receiptId, env.now);
    var ev := Cycle(k, Told(r.1), env.receiptId, hid, env.now);
    u := Apply(handled, ev);
    LeadsByOne(handled, ev);
    LeadsOn(w, handled, u);
    TakesAsk(w, k, env);
    CallCommutes(host, Advance(host, l, j, Proceed, env.receiptId), j, Told(r.1), env.receiptId, hid);
  }

  /** Every turn of the undisturbed cycle is something the system can do. */
  lemma {:induction false} TurnLeads(w: World, k: nat, env: Luck) returns (u: World)
    requires Inv(w) && Runs(w, k) && LocalOf(w, k).pc != Stopped && !Awaiting(LocalOf(w, k).pc)
    requires LocalOf(w, k).pc == AskReady ==> env.entryId !in w.owner
    ensures Leads(w, u) && Took(w, k, u, TurnOf(w, k, env))
  {
    var hid := AboveAll(w.handlers.Keys);
    if Asks(LocalOf(w, k)) {
      u := AskTurn(w, k, env, hid);
    } else {
      QuietTurn(w, k, env, hid);
      var (a, minted) := FairAnswer(w, w.nodes[k].host, LocalOf(w, k), env);
      var ev := Cycle(k, a, minted, hid, env.now);
      u := Apply(w, ev);
      LeadsByOne(w, ev);
    }
  }

  // ---- the whole cycle ----

  /** No step that is not a request ends waiting, and only an idle journal makes the cycle ask for work. */
  lemma {:induction false} StepLands(host: string, l: Local, j: Journal, a: Answer, minted: string)
    requires l.pc != Stopped && !Asks(l)
    ensures var n := Advance(host, l, j, a, minted);
            && !Awaiting(n.pc) && n.pc != Begin && (n.pc == AskReady ==> l.pc == Begin && Next(j.pending).None?)
  {
  }

  lemma {:induction false} TurnLands(host: string, l: Local, j: Journal, t: Tables, q: Quota, env: Luck)
    requires l.pc != Stopped && !Awaiting(l.pc)
    ensures var n := TakeTurn(host, l, j, t, q, env);
            && !Awaiting(n.l.pc) && n.l.pc != Begin
            && (n.l.pc == AskReady ==> l.pc == Begin && Next(j.pending).None?)
  {
    var m := if Asks(l) then Advance(host, l, j, Proceed, env.receiptId) else l;
    assert Asks(l) ==> Awaiting(m.pc);
    forall a: Answer, minted: string
      ensures var n := Advance(host, m, j, a, minted);
              && !Awaiting(n.pc) && n.pc != Begin && (n.pc == AskReady ==> m.pc == Begin && Next(j.pending).None?)
    {
      StepLands(host, m, j, a, minted);
    }
  }

  lemma {:induction false} RunKeepsBorn(t: Tables, q: Quota, c: Call, s: Stage)
    requires !c.Send?
    ensures RunFrom(t, q, c, s).0.born == t.born
    decreases StageRank(s)
  {
    if !s.Answered? {
      var next := Step(t, q, c, s);
      StepWritesOnlyItsBatch(t, q, c, s);
      if StageRank(next.1) < StageRank(s) { RunKeepsBorn(next.0, q, c, next.1); }
    }
  }

  lemma {:induction false} TurnKeepsBorn(host: string, l: Local, j: Journal, t: Tables, q: Quota, env: Luck)
    ensures TakeTurn(host, l, j, t, q, env).t.born == t.born
  {
    if l.pc == CallClaim {
      ClaimTurn(host, l, j, t, q, env);
      RunKeepsBorn(t, q, Claim(host, l.e.id, env.now), Arrived);
    } else if l.pc == CallReport {
      ReportTurn(host, l, j, t, q, env);
      RunKeepsBorn(t, q, Report(host, l.e.receipt, env.now), Arrived);
    } else if Asks(l) {
      InspectTurn(host, l, j, t, q, env);
    }
  }

  ghost predicate MayMint(w: World, k: nat, env: Luck)
    requires Runs(w, k)
  {
    var l := LocalOf(w, k);
    l.pc == AskReady || (l.pc == Begin && Next(w.nodes[k].journal.pending).None?) ==> env.entryId !in w.owner
  }

  ghost function DriveOf(w: World, k: nat, env: Luck): Outcome
    requires Runs(w, k)
  {
    Drive(w.nodes[k].host, LocalOf(w, k), w.nodes[k].journal, w.t, w.q, env)
  }

  lemma {:induction false} TookDrives(w: World, k: nat, u: World, env: Luck)
    requires Runs(w, k) && LocalOf(w, k).pc != Stopped && Took(w, k, u, TurnOf(w, k, env))
    ensures DriveOf(u, k, env).j == DriveOf(w, k, env).j && DriveOf(u, k, env).t == DriveOf(w, k, env).t
    ensures |u.log| + DriveOf(u, k, env).submissions == |w.log| + DriveOf(w, k, env).submissions
    ensures PcRank(LocalOf(u, k).pc) < PcRank(LocalOf(w, k).pc)
  {
    var n, host := TurnOf(w, k, env), w.nodes[k].host;
    TurnLowers(host, LocalOf(w, k), w.nodes[k].journal, w.t, w.q, env);
    DriveTurn(host, LocalOf(w, k), w.nodes[k].journal, w.t, w.q, env, n);
    DriveIgnoresCall(host, n.l, n.j, n.t, w.q, env, LocalOf(u, k).call);
  }

  lemma {:induction false} CycleLeads(w: World, k: nat, env: Luck) returns (u: World)
    requires Inv(w) && Runs(w, k) && !Awaiting(LocalOf(w, k).pc) && MayMint(w, k, env)
    ensures Leads(w, u) && k in u.nodes
    ensures u.nodes[k].journal == DriveOf(w, k, env).j && u.t == DriveOf(w, k, env).t
    ensures |u.log| == |w.log| + DriveOf(w, k, env).submissions && u.t.born == w.t.born
    decreases PcRank(LocalOf(w, k).pc)
  {
    if LocalOf(w, k).pc == Stopped {
      u := w;
      LeadsNowhere(w);
    } else {
      var v := TurnLeads(w, k, env);
      TookDrives(w, k, v, env);
      TurnKeepsBorn(w.nodes[k].host, LocalOf(w, k), w.nodes[k].journal, w.t, w.q, env);
      TurnLands(w.nodes[k].host, LocalOf(w, k), w.nodes[k].journal, w.t, w.q, env);
      LeadsKeepsInv(w, v);
      u := CycleLeads(v, k, env);
      LeadsOn(w, v, u);
    }
  }

  /** A process that dies and starts again. */
  lemma {:induction false} RestartLeads(w: World, k: nat) returns (u: World)
    requires k in w.nodes
    ensures Leads(w, u) && u == w.(nodes := w.nodes[k := w.nodes[k].(proc := Some(Receiver(START)))])
  {
    var dead := Apply(w, Exit(k));
    u := Apply(dead, Open(k, Receiver(START)));
    LeadsByOne(w, Exit(k));
    LeadsByOne(dead, Open(k, Receiver(START)));
    LeadsOn(w, dead, u);
    assert dead.nodes[k].(proc := Some(Receiver(START))) == w.nodes[k].(proc := Some(Receiver(START)));
  }

  /** One undisturbed cycle after a restart. */
  lemma {:induction false} RestartedCycle(w: World, k: nat, env: Luck) returns (u: World)
    requires Inv(w) && k in w.nodes && (Next(w.nodes[k].journal.pending).None? ==> env.entryId !in w.owner)
    ensures Leads(w, u) && Inv(u) && k in u.nodes && u.t.born == w.t.born
    ensures var o := Drive(w.nodes[k].host, START, w.nodes[k].journal, w.t, w.q, env);
            u.nodes[k].journal == o.j && u.t == o.t && |u.log| == |w.log| + o.submissions
  {
    var v := RestartLeads(w, k);
    LeadsKeepsInv(w, v);
    u := CycleLeads(v, k, env);
    LeadsOn(w, v, u);
    LeadsKeepsInv(w, u);
  }

  /** From every reachable world in which a host's pending entry can finish, events lead to one where it is done: the
      host restarts, recovers and, if the message is still deliverable, submits it once. */
  lemma {:induction false} RecoveryLeads(ws: seq<World>, evs: seq<Event>, n: nat, k: nat, env: Luck) returns (u: World)
    requires IsRun(ws, evs) && Initial(ws[0]) && n < |ws| && k in ws[n].nodes
    requires Next(ws[n].nodes[k].journal.pending).Some? && GoodLuck(ws[n].t, ws[n].nodes[k].host, env)
    requires CanFinish(ws[n].t, ws[n].q, ws[n].nodes[k].host, Next(ws[n].nodes[k].journal.pending).value)
    ensures Leads(ws[n], u) && Inv(u) && k in u.nodes
    ensures var w, node := ws[n], ws[n].nodes[k];
            var e := Next(node.journal.pending).value;
            && Finished(u.nodes[k].journal, e.id)
            && |u.log| == |w.log| + if CycleSubmits(node.journal, w.t, w.q, node.host, e, env.now) then 1 else 0
  {
    Reachable(ws, evs, n);
    RecoversIff(ws, evs, n, k, env);
    u := RestartedCycle(ws[n], k, env);
  }

  // ---- from a queued message to its submission ----

  /** What an idle host needs to deliver the oldest message queued for it. */
  ghost predicate CanDeliver(t: Tables, q: Quota, host: string, j: Journal, env: Luck) {
    && Next(j.pending).None? && |HostAttempts(t, host)| < q.attemptsPerHost && (host, env.entryId) !in t.attempts
    && OldestQueued(t, host).Some? && Allowed(j, t.messages[OldestQueued(t, host).value].thread)
  }

  lemma {:induction false} FreshClaimDelivers(t: Tables, q: Quota, host: string, j: Journal, env: Luck)
    requires CanDeliver(t, q, host, j, env)
    ensures ClaimRecorded(t, q, host, env.entryId)
    ensures ClaimDelivers(ClaimBatch(t, q, host, env.entryId, env.now), j, host, env.entryId)
  {
    var id := OldestQueued(t, host).value;
    assert IsClaimable(t, host, id);
  }

  /** An idle cycle up to its claim. */
  lemma {:induction false} DriveIdle(host: string, j: Journal, t: Tables, q: Quota, env: Luck)
    returns (l: Local, j1: Journal)
    requires Next(j.pending).None? && Claimable(t, host) != {}
    ensures l.pc == CallClaim && l.e == Entry(env.entryId, Claiming, None, NO_RECEIPT)
    ensures j1 == j.(pending := Save(j.pending, l.e))
    ensures Drive(host, START, j, t, q, env) == Drive(host, l, j1, t, q, env)
  {
    var l1 := START.(pc := AskReady);
    DriveTurn(host, START, j, t, q, env, Turn(l1, j, t, false));
    ReadyAnswers(t, q, host);
    var l2 := l1.(pc := SaveNew, e := Entry(env.entryId, Claiming, None, NO_RECEIPT));
    DriveTurn(host, l1, j, t, q, env, Turn(l2, j, t, false));
    SaveTurn(host, l2, j, t, q, env);
    l, j1 := l2.(pc := CallClaim), j.(pending := Save(j.pending, l2.e));
    DriveTurn(host, l2, j, t, q, env, Turn(l, j1, t, false));
  }

  lemma {:induction false} DriveDelivers(host: string, j: Journal, t: Tables, q: Quota, env: Luck)
    requires LeaseInv(t) && ReceiptsInv(t) && GoodLuck(t, host, env) && CanDeliver(t, q, host, j, env)
    requires forall id :: id in t.messages ==> IsText(id, 110)
    ensures Drive(host, START, j, t, q, env).submissions == 1
    ensures Finished(Drive(host, START, j, t, q, env).j, env.entryId)
  {
    var l, j1 := DriveIdle(host, j, t, q, env);
    SaveFind(j.pending, l.e, l.e.id);
    FreshClaimDelivers(t, q, host, j, env);
    assert ClaimDelivers(ClaimBatch(t, q, host, env.entryId, env.now), j1, host, env.entryId);
    DriveClaim(host, l, j1, t, q, env);
  }

  lemma {:induction false} InvTables(w: World)
    requires Inv(w)
    ensures LeaseInv(w.t) && ReceiptsInv(w.t)
  {
  }

  /** From every reachable world in which a host is idle and the oldest message queued for it is for an enrolled
      thread, events lead to one more submission. */
  lemma {:induction false} DeliveryLeads(ws: seq<World>, evs: seq<Event>, n: nat, k: nat, env: Luck) returns (u: World)
    requires IsRun(ws, evs) && Initial(ws[0]) && n < |ws| && k in ws[n].nodes && env.entryId !in ws[n].owner
    requires GoodLuck(ws[n].t, ws[n].nodes[k].host, env)
    requires CanDeliver(ws[n].t, ws[n].q, ws[n].nodes[k].host, ws[n].nodes[k].journal, env)
    ensures Leads(ws[n], u) && Inv(u) && k in u.nodes && Finished(u.nodes[k].journal, env.entryId)
    ensures |u.log| == |ws[n].log| + 1 && u.t.born == ws[n].t.born
  {
    Reachable(ws, evs, n);
    IdsAlwaysFit(ws, evs, n);
    InvTables(ws[n]);
    DriveDelivers(ws[n].nodes[k].host, ws[n].nodes[k].journal, ws[n].t, ws[n].q, env);
    u := RestartedCycle(ws[n], k, env);
  }

  // ---- the first delivery of all ----

  lemma {:induction false} CallLeads(w: World, hid: nat, c: Call) returns (u: World)
    requires hid !in w.handlers && IsHost(c.host)
    ensures Leads(w, u) && u.t == RunCall(w.t, w.q, c).0
    ensures u.q == w.q && u.nodes == w.nodes && u.log == w.log && u.owner == w.owner
    ensures u.handlers.Keys == w.handlers.Keys + {hid}
    ensures u.forged == if ClaimsSubmission(c) then w.forged + {(c.host, c.receipt.message)} else w.forged
  {
    var v := Apply(w, Arrive(hid, c));
    LeadsByOne(w, Arrive(hid, c));
    HandleLeads(v, hid);
    u := Handled(v, hid);
    LeadsOn(w, v, u);
  }

  /** An operator enables the thread on this host. */
  lemma {:induction false} EnrolLeads(w: World, k: nat, thread: string) returns (u: World)
    requires k in w.nodes && w.nodes[k].proc == None
    ensures Leads(w, u)
    ensures u == w.(nodes := w.nodes[k := w.nodes[k].(journal := RelayRunner.Enroll(w.nodes[k].journal, thread, true))])
  {
    var open := Open(k, Registrar(thread, true, Calling));
    var told, kept := Enrol(k, Told(Registered), None), Enrol(k, Saved(Stored), None);
    var a := Apply(w, open);
    var b := Apply(a, told);
    u := Apply(b, kept);
    LeadsByOne(w, open);
    LeadsByOne(a, told);
    LeadsOn(w, a, b);
    LeadsByOne(b, kept);
    LeadsOn(w, b, u);
    assert b.nodes[k] == w.nodes[k].(proc := Some(Registrar(thread, true, Writing(true))));
  }

  ghost predicate PositiveQuota(q: Quota) {
    q.tasksPerHost > 0 && q.messagesPerSender > 0 && q.activeMessagesPerSender > 0 && q.activeMessagesPerTarget > 0
      && q.attemptsPerHost > 0
  }

  /** The host's own task is enrolled at the coordinator, and one message to it is queued. */
  lemma {:induction false} OneQueued(q: Quota, host: string, thread: string, title: string, b: MessageBody, now: int)
    returns (t: Tables)
    requires PositiveQuota(q) && IsHost(host) && IsText(title, 200) && ValidMessage(b) && b.target == host
    requires b.thread == thread
    ensures var enrolled := RunCall(EMPTY_TABLES, q, Call.Register(host, thread, title, true, now)).0;
            t == RunCall(enrolled, q, Call.Send(host, b, now)).0
    ensures |t.born| == 1 && t.born[0].thread == thread && t.born[0].prompt == b.prompt
    ensures t.attempts == map[] && t.receipts == [] && OldestQueued(t, host).Some?
            && forall id :: id in t.messages ==> t.messages[id].thread == thread
  {
    RunRegister(EMPTY_TABLES, q, host, thread, title, true, now);
    var enrolled := TaskBatch(EMPTY_TABLES, q, host, thread, title, true, now);
    assert HostTasks(EMPTY_TABLES, host) == {};
    RunNewSend(enrolled, q, host, b, now);
    t := SendBatch(enrolled, q, host, b, now);
    assert SentBy(enrolled, host) == {} && ActiveFrom(enrolled, host) == {} && ActiveTo(enrolled, host) == {};
    var id := MessageId(host, b.request);
    assert IsClaimable(t, host, id);
    assert (t.messages[id].created, id) in Claimable(t, host);
  }

  /** Nothing has happened yet but that the thread is enrolled on both sides and one message is queued. */
  ghost predicate IsSetUp(w: World, u: World, k: nat, thread: string, prompt: string)
    requires k in w.nodes
  {
    && k in u.nodes && u.q == w.q && u.log == w.log && u.owner == w.owner && u.forged == w.forged
    && u.nodes[k].host == w.nodes[k].host && u.nodes[k].journal == Journal(map[thread := true], [])
    && |u.t.born| == 1 && u.t.born[0].thread == thread && u.t.born[0].prompt == prompt
    && u.t.attempts == map[] && u.t.receipts == [] && OldestQueued(u.t, w.nodes[k].host).Some?
    && forall id :: id in u.t.messages ==> u.t.messages[id].thread == thread
  }

  lemma {:induction false} SetUpLeads(w: World, k: nat, title: string, b: MessageBody, now: int) returns (u: World)
    requires Initial(w) && k in w.nodes && PositiveQuota(w.q) && IsText(title, 200)
    requires ValidMessage(b) && b.target == w.nodes[k].host
    ensures Leads(w, u) && IsSetUp(w, u, k, b.thread, b.prompt)
  {
    var host := w.nodes[k].host;
    var t := OneQueued(w.q, host, b.thread, title, b, now);
    var w1 := CallLeads(w, 0, Call.Register(host, b.thread, title, true, now));
    var w2 := CallLeads(w1, 1, Call.Send(host, b, now));
    LeadsOn(w, w1, w2);
    u := EnrolLeads(w2, k, b.thread);
    LeadsOn(w, w2, u);
  }

  lemma {:induction false} SetUpDelivers(w: World, u: World, k: nat, thread: string, prompt: string, env: Luck)
    requires Initial(w) && k in w.nodes && PositiveQuota(w.q) && IsSetUp(w, u, k, thread, prompt)
    ensures CanDeliver(u.t, u.q, u.nodes[k].host, u.nodes[k].journal, env) && env.entryId !in u.owner && u.log == []
    ensures FindReceipt(u.t.receipts, u.nodes[k].host, env.receiptId).None?
  {
    var host := w.nodes[k].host;
    assert HostAttempts(u.t, host) == {};
    assert IsClaimable(u.t, host, OldestQueued(u.t, host).value);
  }

  /** The machine does deliver: from any initial world a task can be enrolled, a message sent, claimed and submitted
      with its thread and prompt. */
  lemma {:induction false} FirstDelivery(w: World, k: nat, title: string, b: MessageBody, env: Luck) returns (u: World)
    requires Initial(w) && k in w.nodes && PositiveQuota(w.q) && IsText(title, 200)
    requires ValidMessage(b) && b.target == w.nodes[k].host && IsUuid(env.entryId) && IsUuid(env.receiptId)
    ensures Leads(w, u) && |u.log| == 1 && u.log[0].thread == b.thread && u.log[0].prompt == b.prompt
    ensures k in u.nodes && Finished(u.nodes[k].journal, env.entryId)
  {
    var v := SetUpLeads(w, k, title, b, env.now);
    SetUpDelivers(w, v, k, b.thread, b.prompt, env);
    u := DeliveredFrom(w, v, k, env);
    LoggedAsBorn(u);
  }

  lemma {:induction false} DeliveredFrom(w: World, v: World, k: nat, env: Luck) returns (u: World)
    requires Initial(w) && Leads(w, v) && k in v.nodes && env.entryId !in v.owner
    requires GoodLuck(v.t, v.nodes[k].host, env) && CanDeliver(v.t, v.q, v.nodes[k].host, v.nodes[k].journal, env)
    ensures Leads(w, u) && Inv(u) && k in u.nodes && Finished(u.nodes[k].journal, env.entryId)
    ensures |u.log| == |v.log| + 1 && u.t.born == v.t.born
  {
    var ws, evs :| IsRun(ws, evs) && ws[0] == w && ws[|ws| - 1] == v;
    u := DeliveryLeads(ws, evs, |ws| - 1, k, env);
    LeadsOn(w, v, u);
  }

  lemma {:induction false} LoggedAsBorn(u: World)
    requires Inv(u) && |u.log| == 1 && |u.t.born| == 1
    ensures u.log[0].thread == u.t.born[0].thread && u.log[0].prompt == u.t.born[0].prompt
  {
    assert SubmissionOk(FactsOf(u), FactsOf(u).log[0]);
  }
}
