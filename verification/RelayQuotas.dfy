/** The coordinator's quotas hold in every reachable world, and a request is told 429 exactly when it meets one. */
module RelayQuotas {
  import opened Basics
  import opened RelayTables
  import opened RelayLease
  import opened RelayHandlers
  import opened RelayWorld
  import opened RelaySafety
  import opened RelayReach
  import opened RelayProgress
  import opened RelayService

  ghost predicate WithinQuota(t: Tables, q: Quota, host: string) {
    && |HostTasks(t, host)| <= q.tasksPerHost && |HostAttempts(t, host)| <= q.attemptsPerHost
    && |SentBy(t, host)| <= q.messagesPerSender && |ActiveFrom(t, host)| <= q.activeMessagesPerSender
    && |ActiveTo(t, host)| <= q.activeMessagesPerTarget
  }

  lemma {:induction false} OneMore<T>(a: set<T>, b: set<T>, x: T)
    requires b <= a + {x}
    ensures |b| <= |a| + 1
  {
    SubsetSize(b, a + {x});
  }

  // ---- every batch ----

  lemma {:induction false} TaskWithin(t: Tables, q: Quota, host: string, thread: string, title: string, enabled: bool,
          now: int, who: string)
    requires WithinQuota(t, q, who)
    ensures WithinQuota(TaskBatch(t, q, host, thread, title, enabled, now), q, who)
  {
    var u := TaskBatch(t, q, host, thread, title, enabled, now);
    if who == host && (host, thread) !in t.tasks {
      OneMore(HostTasks(t, who), HostTasks(u, who), (host, thread));
    } else {
      SubsetSize(HostTasks(u, who), HostTasks(t, who));
    }
    SameCounts(t, u, who);
  }

  lemma {:induction false} SameCounts(t: Tables, u: Tables, who: string)
    requires u.messages == t.messages && u.attempts == t.attempts
    ensures SentBy(u, who) == SentBy(t, who) && ActiveFrom(u, who) == ActiveFrom(t, who)
    ensures ActiveTo(u, who) == ActiveTo(t, who) && HostAttempts(u, who) == HostAttempts(t, who)
  {
  }

  lemma {:induction false} RowAdds(t: Tables, u: Tables, id: string, row: Row, who: string)
    requires u.messages == t.messages[id := row] && id !in t.messages
    ensures SentBy(u, who) <= SentBy(t, who) + (if who == row.sender then {id} else {})
    ensures ActiveFrom(u, who) <= ActiveFrom(t, who) + (if who == row.sender then {id} else {})
    ensures ActiveTo(u, who) <= ActiveTo(t, who) + (if who == row.target then {id} else {})
  {
  }

  /** At most one row is added, by an admitted send. */
  lemma {:induction false} SendAdds(t: Tables, q: Quota, host: string, b: MessageBody, now: int, who: string)
    ensures var u, id := SendBatch(t, q, host, b, now), MessageId(host, b.request);
            && SentBy(u, who) <= SentBy(t, who) + (if who == host then {id} else {})
            && ActiveFrom(u, who) <= ActiveFrom(t, who) + (if who == host then {id} else {})
            && ActiveTo(u, who) <= ActiveTo(t, who) + (if who == b.target then {id} else {})
            && u.tasks == t.tasks && u.attempts == t.attempts && (!SendAdmitted(t, q, host, b) ==> u == t)
  {
    var u, id := SendBatch(t, q, host, b, now), MessageId(host, b.request);
    if u != t {
      RowAdds(t, u, id, u.messages[id], who);
    }
  }

  lemma {:induction false} SendWithin(t: Tables, q: Quota, host: string, b: MessageBody, now: int, who: string)
    requires WithinQuota(t, q, who)
    ensures WithinQuota(SendBatch(t, q, host, b, now), q, who)
  {
    var id := MessageId(host, b.request);
    SendAdds(t, q, host, b, now, who);
    AddedWithin(t, SendBatch(t, q, host, b, now), q, host, b, id, who);
  }

  lemma {:induction false} AddedWithin(t: Tables, u: Tables, q: Quota, host: string, b: MessageBody, id: string,
          who: string)
    requires WithinQuota(t, q, who) && u.tasks == t.tasks && u.attempts == t.attempts
    requires !SendAdmitted(t, q, host, b) ==> u == t
    requires SentBy(u, who) <= SentBy(t, who) + (if who == host then {id} else {})
    requires ActiveFrom(u, who) <= ActiveFrom(t, who) + (if who == host then {id} else {})
    requires ActiveTo(u, who) <= ActiveTo(t, who) + (if who == b.target then {id} else {})
    ensures WithinQuota(u, q, who)
  {
    assert HostTasks(u, who) == HostTasks(t, who) && HostAttempts(u, who) == HostAttempts(t, who);
    if SendAdmitted(t, q, host, b) {
      MaybeOneMore(SentBy(t, who), SentBy(u, who), id, who == host);
      MaybeOneMore(ActiveFrom(t, who), ActiveFrom(u, who), id, who == host);
      MaybeOneMore(ActiveTo(t, who), ActiveTo(u, who), id, who == b.target);
    }
  }

  lemma {:induction false} MaybeOneMore<T>(a: set<T>, b: set<T>, x: T, more: bool)
    requires b <= a + if more then {x} else {}
    ensures |b| <= |a| + if more then 1 else 0
  {
    if more { OneMore(a, b, x); } else { SubsetSize(b, a); }
  }

  /** No row is new, and none is active again. */
  ghost predicate Settles(t: Tables, u: Tables) {
    && u.tasks == t.tasks
    && forall id :: id in u.messages ==>
         && id in t.messages && u.messages[id].sender == t.messages[id].sender
         && u.messages[id].target == t.messages[id].target
         && (t.messages[id].state == Completed ==> u.messages[id].state == Completed)
  }

  lemma {:induction false} SettlesWithin(t: Tables, u: Tables, q: Quota, who: string)
    requires Settles(t, u) && WithinQuota(t, q, who) && |HostAttempts(u, who)| <= q.attemptsPerHost
    ensures WithinQuota(u, q, who)
  {
    SubsetSize(SentBy(u, who), SentBy(t, who));
    SubsetSize(ActiveFrom(u, who), ActiveFrom(t, who));
    SubsetSize(ActiveTo(u, who), ActiveTo(t, who));
    assert HostTasks(u, who) == HostTasks(t, who);
  }

  lemma {:induction false} ClaimSettles(t: Tables, q: Quota, host: string, request: string, now: int)
    ensures Settles(t, ClaimBatch(t, q, host, request, now))
    ensures ClaimBatch(t, q, host, request, now).attempts == AttemptInsert(t, q, host, request, now)
  {
  }

  lemma {:induction false} ClaimWithin(t: Tables, q: Quota, host: string, request: string, now: int, who: string)
    requires WithinQuota(t, q, who)
    ensures WithinQuota(ClaimBatch(t, q, host, request, now), q, who)
  {
    var u := ClaimBatch(t, q, host, request, now);
    ClaimSettles(t, q, host, request, now);
    if who == host && u.attempts != t.attempts {
      OneMore(HostAttempts(t, who), HostAttempts(u, who), (host, request));
    } else {
      SubsetSize(HostAttempts(u, who), HostAttempts(t, who));
    }
    SettlesWithin(t, u, q, who);
  }

  lemma {:induction false} ReportWithin(t: Tables, q: Quota, host: string, b: ReceiptBody, now: int, who: string)
    requires WithinQuota(t, q, who)
    ensures WithinQuota(ReceiptBatch(t, host, b, now), q, who)
  {
    var u := ReceiptBatch(t, host, b, now);
    assert HostAttempts(u, who) == HostAttempts(t, who);
    SettlesWithin(t, u, q, who);
  }

  lemma {:induction false} CompactWithin(t: Tables, q: Quota, cutoff: int, who: string)
    requires WithinQuota(t, q, who)
    ensures WithinQuota(Compact(t, cutoff), q, who)
  {
    var u := Compact(t, cutoff);
    SubsetSize(HostAttempts(u, who), HostAttempts(t, who));
    SettlesWithin(t, u, q, who);
  }

  lemma {:induction false} BatchWithin(t: Tables, q: Quota, c: Call, who: string)
    requires WithinQuota(t, q, who)
    ensures WithinQuota(Batch(t, q, c), q, who)
  {
    match c
    case Register(h, th, ti, e, n) => TaskWithin(t, q, h, th, ti, e, n, who);
    case Send(h, b, n) => SendWithin(t, q, h, b, n, who);
    case Claim(h, r, n) => ClaimWithin(t, q, h, r, n, who);
    case Report(h, b, n) => ReportWithin(t, q, h, b, n, who);
    case _ =>
  }

  lemma {:induction false} NextWithin(w: World, ev: Event, who: string)
    requires WithinQuota(w.t, w.q, who) && Enabled(w, ev)
    ensures Apply(w, ev).q == w.q && WithinQuota(Apply(w, ev).t, w.q, who)
  {
    if ev.Handle? {
      var h := w.handlers[ev.hid];
      StepWritesOnlyItsBatch(w.t, w.q, h.0, h.1);
      BatchWithin(w.t, w.q, h.0, who);
    } else if ev.Retain? {
      CompactWithin(w.t, w.q, ev.cutoff, who);
    }
  }

  /** In every reachable world no host exceeds its quota of tasks, claim attempts, messages sent, messages sent and not
      completed, and messages addressed to it and not completed. */
  lemma {:induction false} QuotasHold(ws: seq<World>, evs: seq<Event>, n: nat, who: string)
    requires IsRun(ws, evs) && Initial(ws[0]) && n < |ws|
    ensures ws[n].q == ws[0].q && WithinQuota(ws[n].t, ws[n].q, who)
  {
    if n == 0 {
      var t := ws[0].t;
      assert HostTasks(t, who) == {} && HostAttempts(t, who) == {} && SentBy(t, who) == {};
      assert ActiveFrom(t, who) == {} && ActiveTo(t, who) == {};
    } else {
      QuotasHold(ws, evs, n - 1, who);
      NextWithin(ws[n - 1], evs[n - 1], who);
    }
  }

  // ---- refusals ----

  /** The quota that a valid new request meets. */
  ghost predicate MeetsQuota(t: Tables, q: Quota, c: Call) {
    match c
    case Register(host, thread, title, _, _) =>
      && IsUuid(thread) && IsText(title, 200)
      && (host, thread) !in t.tasks && |HostTasks(t, host)| >= q.tasksPerHost
    case Send(host, b, _) =>
      && ValidMessage(b) && MessageId(host, b.request) !in t.messages && Enrolled(t, b.target, b.thread)
      && (|SentBy(t, host)| >= q.messagesPerSender || |ActiveFrom(t, host)| >= q.activeMessagesPerSender
          || |ActiveTo(t, b.target)| >= q.activeMessagesPerTarget)
    case Claim(host, request, _) =>
      IsUuid(request) && (host, request) !in t.attempts && |HostAttempts(t, host)| >= q.attemptsPerHost
    case _ => false
  }

  lemma {:induction false} RegisterRefused(t: Tables, q: Quota, c: Call)
    requires c.Register?
    ensures RunCall(t, q, c).1 == Refused(429) <==> MeetsQuota(t, q, c)
    ensures MeetsQuota(t, q, c) ==> RunCall(t, q, c).0 == t
  {
    if IsUuid(c.thread) && IsText(c.title, 200) {
      RunRegister(t, q, c.host, c.thread, c.title, c.enabled, c.now);
    } else {
      assert RegisterStep(t, q, c, Arrived).1 == Answered(Refused(400));
    }
  }

  lemma {:induction false} SendRefused(t: Tables, q: Quota, c: Call)
    requires c.Send?
    ensures RunCall(t, q, c).1 == Refused(429) <==> MeetsQuota(t, q, c)
    ensures MeetsQuota(t, q, c) ==> RunCall(t, q, c).0 == t
  {
    if ValidMessage(c.message) && MessageId(c.host, c.message.request) !in t.messages {
      RunNewSend(t, q, c.host, c.message, c.now);
    } else {
      assert SendStep(t, q, c, Arrived).1.Answered?;
    }
  }

  lemma {:induction false} ClaimRefused(t: Tables, q: Quota, c: Call)
    requires c.Claim? && LeaseInv(t)
    ensures RunCall(t, q, c).1 == Refused(429) <==> MeetsQuota(t, q, c)
    ensures MeetsQuota(t, q, c) ==> RunCall(t, q, c).0 == t
  {
    if IsUuid(c.request) {
      RunClaim(t, q, c.host, c.request, c.now);
    } else {
      assert ClaimStep(t, q, c, Arrived).1 == Answered(Refused(400));
    }
  }

  lemma {:induction false} OthersRefused(t: Tables, q: Quota, c: Call)
    requires c.Ready? || c.Report? || c.Inspect?
    ensures RunCall(t, q, c).1 != Refused(429)
  {
    if c.Report? {
      assert RunCall(t, q, c).1 == RunFrom(t, q, c, Arrived).1;
      var u := ReceiptBatch(t, c.host, c.receipt, c.now);
      assert ReportStep(t, c, Arrived).1 == Committing ==>
          RunCall(t, q, c) == RunFrom(t, q, c, Committing) == RunFrom(u, q, c, Committed);
    }
  }

  /** An undisturbed request is told 429 iff it is well formed, not stored yet, and meets a quota; and then it changed
      nothing. */
  lemma {:induction false} RefusedIffQuotaMet(t: Tables, q: Quota, c: Call)
    requires LeaseInv(t)
    ensures RunCall(t, q, c).1 == Refused(429) <==> MeetsQuota(t, q, c)
    ensures MeetsQuota(t, q, c) ==> RunCall(t, q, c).0 == t
  {
    match c
    case Register(_, _, _, _, _) => RegisterRefused(t, q, c);
    case Send(_, _, _) => SendRefused(t, q, c);
    case Claim(_, _, _) => ClaimRefused(t, q, c);
    case _ => OthersRefused(t, q, c);
  }
}
