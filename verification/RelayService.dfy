/** The coordinator as a service: one object whose tables the request handlers update in place. */
module RelayService {
  import opened Basics
  import opened Listing
  import opened RelayTables
  import opened RelayLease
  import opened RelayReceipts
  import opened RelayHandlers
  import opened RelayProgress

  /** Task listings: rows of one host above a cursor, in thread order. */
  function ThreadsAfter(tasks: map<(string, string), Task>, host: string, cursor: string): set<string> {
    set k | k in tasks && k.0 == host && Less(cursor, k.1) :: k.1
  }

  ghost function PageRows(tasks: map<(string, string), Task>, host: string, cursor: string): (rows: seq<string>)
    ensures forall x :: x in rows ==> x in ThreadsAfter(tasks, host, cursor)
  {
    LessIsStrict();
    First(Less, ThreadsAfter(tasks, host, cursor), 101)
  }

  /** One page of a host's tasks and the cursor of the next one, empty on the last page. */
  ghost predicate IsTaskPage(tasks: map<(string, string), Task>, host: string, cursor: string,
          page: seq<(string, Task)>, next: string) {
    var rows := PageRows(tasks, host, cursor);
    && |page| == (if |rows| > 100 then 100 else |rows|)
    && (forall i :: 0 <= i < |page| ==>
         page[i].0 == rows[i] && (host, rows[i]) in tasks && page[i].1 == tasks[(host, rows[i])])
    && next == if |rows| > 100 then rows[99] else ""
  }

  /** A page, or the refusal of a malformed host or cursor. */
  datatype TaskListing = Page(rows: seq<(string, Task)>, next: string) | Malformed

  // ---- one undisturbed request, case by case ----

  lemma {:induction false} RunKeepsInv(t: Tables, q: Quota, c: Call, s: Stage)
    requires TablesInv(t) && StageOk(c, s)
    ensures TablesInv(RunFrom(t, q, c, s).0)
    decreases StageRank(s)
  {
    if !s.Answered? {
      StepKeepsInv(t, q, c, s);
      var next := Step(t, q, c, s);
      if StageRank(next.1) < StageRank(s) {
        RunKeepsInv(next.0, q, c, next.1);
      }
    }
  }

  lemma {:induction false} RunRegister(t: Tables, q: Quota, host: string, thread: string, title: string, enabled: bool,
          now: int)
    requires IsUuid(thread) && IsText(title, 200)
    ensures var u := TaskBatch(t, q, host, thread, title, enabled, now);
            RunCall(t, q, Call.Register(host, thread, title, enabled, now))
            == (u, if (host, thread) in u.tasks then Registered else Refused(429))
  {
    var c := Call.Register(host, thread, title, enabled, now);
    var u := TaskBatch(t, q, host, thread, title, enabled, now);
    assert RunCall(t, q, c) == RunFrom(t, q, c, Committing) == RunFrom(u, q, c, Committed);
  }

  lemma {:induction false} RunNewSend(t: Tables, q: Quota, host: string, b: MessageBody, now: int)
    requires ValidMessage(b) && MessageId(host, b.request) !in t.messages
    ensures var u, id := SendBatch(t, q, host, b, now), MessageId(host, b.request);
            RunCall(t, q, Call.Send(host, b, now))
            == (u, if id in u.messages then ShowSent(u, id, b)
                   else Refused(if Enrolled(u, b.target, b.thread) then 429 else 409))
  {
    var c := Call.Send(host, b, now);
    var u := SendBatch(t, q, host, b, now);
    assert RunCall(t, q, c) == RunFrom(t, q, c, Committing) == RunFrom(u, q, c, Committed);
    if MessageId(host, b.request) !in u.messages {
      assert RunFrom(u, q, c, Committed) == RunFrom(u, q, c, Refusing);
    }
  }

  lemma {:induction false} RunStoredReport(t: Tables, q: Quota, host: string, b: ReceiptBody, now: int)
    requires ValidReceipt(b) && FindReceipt(t.receipts, host, b.request).Some?
    ensures var stored := FindReceipt(t.receipts, host, b.request).value;
            RunCall(t, q, Call.Report(host, b, now))
              == (t, if SameReceipt(stored, b) then Receipted(stored) else Refused(409))
  {
    assert ReportStep(t, Call.Report(host, b, now), Arrived).1.Answered?;
  }

  lemma {:induction false} RunNewReport(t: Tables, q: Quota, host: string, b: ReceiptBody, now: int)
    requires ValidReceipt(b) && FindReceipt(t.receipts, host, b.request).None?
    ensures var u := ReceiptBatch(t, host, b, now);
            var stored := FindReceipt(u.receipts, host, b.request);
            RunCall(t, q, Call.Report(host, b, now))
            == (u, if stored.Some? && SameReceipt(stored.value, b) then Receipted(stored.value) else Refused(409))
  {
    var c := Call.Report(host, b, now);
    assert ReportStep(t, c, Arrived) == (t, Committing);
    assert RunCall(t, q, c) == RunFrom(t, q, c, Committing) == RunFrom(ReceiptBatch(t, host, b, now), q, c, Committed);
  }

  /** The retention deletes, one after another, amount to the batch. */
  lemma {:induction false} CompactInSteps(t: Tables, cutoff: int, gone: set<string>,
          kept: map<(string, string), Attempt>)
    requires gone == set id | id in t.messages && t.messages[id].state == Completed && t.messages[id].updated < cutoff
    requires kept == map k
             | k in t.attempts && !(t.attempts[k].message.Some? && t.attempts[k].message.value in gone) :: t.attempts[k]
    ensures Compact(t, cutoff)
            == t.(receipts := Without(t.receipts, gone),
                  messages := map id | id in t.messages && id !in gone :: t.messages[id],
                  attempts := map k | k in kept && !(kept[k].message.None? && kept[k].created < cutoff) :: kept[k])
  {
    assert gone == set id | id in t.messages && Expired(t, cutoff, id);
    assert Compact(t, cutoff).attempts == map k
      | k in kept && !(kept[k].message.None? && kept[k].created < cutoff) :: kept[k];
  }

  lemma {:induction false} CompactKeepsInv(t: Tables, cutoff: int)
    requires TablesInv(t)
    ensures TablesInv(Compact(t, cutoff))
  {
    CompactKeepsLease(t, cutoff);
    CompactKeepsReceipts(t, cutoff);
  }

  class Coordinator {
    const q: Quota
    var tasks: map<(string, string), Task>
    var messages: map<string, Row>
    var attempts: map<(string, string), Attempt>
    var receipts: seq<Receipt>
    var born: seq<Birth>
    var leases: map<nat, (string, string)>

    ghost function Contents(): Tables
      reads this
    {
      Tables(tasks, messages, attempts, receipts, born, leases)
    }

    ghost predicate Valid()
      reads this
    {
      TablesInv(Contents()) && forall k :: k in tasks ==> IsUuid(k.1)
    }

    constructor (q: Quota)
      ensures Valid() && Contents() == EMPTY_TABLES && this.q == q
    {
      this.q := q;
      tasks, messages, attempts, receipts, born, leases := map[], map[], map[], [], [], map[];
    }

    method Register(host: string, thread: string, title: string, enabled: bool, now: int) returns (r: Response)
      requires Valid()
      modifies this`tasks
      ensures Valid()
      ensures (Contents(), r) == RunCall(old(Contents()), q, Call.Register(host, thread, title, enabled, now))
    {
      ghost var t := Contents();
      RunKeepsInv(t, q, Call.Register(host, thread, title, enabled, now), Arrived);
      if !IsUuid(thread) || !IsText(title, 200) {
        return Refused(400);
      }
      RunRegister(t, q, host, thread, title, enabled, now);
      var mine := set k | k in tasks && k.0 == host;
      assert mine == HostTasks(t, host);
      if (host, thread) in tasks || |mine| < q.tasksPerHost {
        tasks := tasks[(host, thread) := Task(title, enabled, now)];
      }
      if (host, thread) !in tasks {
        return Refused(429);
      }
      return Registered;
    }

    method Send(host: string, b: MessageBody, now: int) returns (r: Response)
      requires Valid()
      modifies this`messages, this`born
      ensures Valid()
      ensures (Contents(), r) == RunCall(old(Contents()), q, Call.Send(host, b, now))
    {
      ghost var t := Contents();
      RunKeepsInv(t, q, Call.Send(host, b, now), Arrived);
      if !ValidMessage(b) {
        return Refused(400);
      }
      var id := MessageId(host, b.request);
      if id !in messages {
        RunNewSend(t, q, host, b, now);
        InsertMessage(id, host, b, now);
      }
      if id !in messages {
        if (b.target, b.thread) !in tasks || !tasks[(b.target, b.thread)].enabled {
          return Refused(409);
        }
        return Refused(429);
      }
      var m := messages[id];
      if m.target != b.target || m.thread != b.thread || m.prompt != b.prompt {
        return Refused(409);
      }
      return Shown(View(id, m));
    }

    /** The conditional INSERT: enrolment and the three quotas are part of the statement, and a stored ID is left
        alone. */
    method InsertMessage(id: string, host: string, b: MessageBody, now: int)
      requires id == MessageId(host, b.request)
      modifies this`messages, this`born
      ensures Contents() == SendBatch(old(Contents()), q, host, b, now)
    {
      ghost var t := Contents();
      if id in messages {
        return;
      }
      var sent := set k | k in messages && messages[k].sender == host;
      var active := set k | k in messages && messages[k].sender == host && messages[k].state != Completed;
      var inbound := set k | k in messages && messages[k].target == b.target && messages[k].state != Completed;
      assert sent == SentBy(t, host) && active == ActiveFrom(t, host) && inbound == ActiveTo(t, b.target);
      if (b.target, b.thread) in tasks && tasks[(b.target, b.thread)].enabled
         && |sent| < q.messagesPerSender && |active| < q.activeMessagesPerSender
         && |inbound| < q.activeMessagesPerTarget
      {
        messages := messages[id := Row(host, b.request, b.target, b.thread, b.prompt, Queued, "", "", "", now, now,
          |born|)];
        born := born + [Birth(id, host, b.request, b.target, b.thread, b.prompt)];
      }
    }

    method Claim(host: string, request: string, now: int) returns (r: Response)
      requires Valid()
      modifies this`messages, this`attempts, this`leases
      ensures Valid()
      ensures (Contents(), r) == RunCall(old(Contents()), q, Call.Claim(host, request, now))
    {
      ghost var t := Contents();
      RunKeepsInv(t, q, Call.Claim(host, request, now), Arrived);
      if !IsUuid(request) {
        return Refused(400);
      }
      if (host, request) in attempts {
        RunKnownClaim(t, q, host, request, now);
        var known := attempts[(host, request)].message;
        if known.None? || known.value !in messages {
          return Delivered(None);
        }
        return Delivered(Some(View(known.value, messages[known.value])));
      }
      RunNewClaim(t, q, host, request, now);
      LeaseOldest(host, request, now);
      if (host, request) !in attempts {
        return Refused(429);
      }
      var taken := attempts[(host, request)].message;
      if taken.None? || taken.value !in messages {
        return Delivered(None);
      }
      return Delivered(Some(View(taken.value, messages[taken.value])));
    }

    /** The claim batch. */
    method LeaseOldest(host: string, request: string, now: int)
      modifies this`messages, this`attempts, this`leases
      ensures Contents() == ClaimBatch(old(Contents()), q, host, request, now)
    {
      InsertAttempt(host, request, now);
      LeaseMessage(host, request, now);
    }

    /** First statement of the claim batch; a stored attempt is left alone. */
    method InsertAttempt(host: string, request: string, now: int)
      modifies this`attempts
      ensures attempts == AttemptInsert(old(Contents()), q, host, request, now)
    {
      ghost var t := Contents();
      var mine := set k | k in attempts && k.0 == host;
      assert mine == HostAttempts(t, host);
      if (host, request) !in attempts && |mine| < q.attemptsPerHost {
        var queued := set id | id in messages && messages[id].target == host && messages[id].state == Queued
                               && (host, messages[id].thread) in tasks && tasks[(host, messages[id].thread)].enabled
                      :: (messages[id].created, id);
        assert queued == Claimable(t, host);
        var oldest: Option<string> := None;
        if queued != {} {
          BeforeIsStrict();
          LeastExists(Before, queued);
          var k :| k in queued && IsLeast(Before, k, queued);
          oldest := Some(k.1);
          assert OldestQueued(t, host).Some?;
          LeastUnique(Before, k, (t.messages[OldestQueued(t, host).value].created, OldestQueued(t, host).value),
            queued);
        }
        attempts := attempts[(host, request) := Attempt(oldest, now)];
      }
    }

    /** Second statement: the attempt's message leaves the queue. */
    method LeaseMessage(host: string, request: string, now: int)
      modifies this`messages, this`leases
      ensures var target := LeaseTarget(old(messages), attempts, host, request);
              && (target.None? ==> messages == old(messages) && leases == old(leases))
              && (target.Some? ==>
                    && messages == old(messages)[target.value := old(messages)[target.value].(state := Dispatching,
                         attempt := request, updated := now)]
                    && leases == old(leases)[old(messages)[target.value].life := (host, request)])
    {
      if (host, request) in attempts && attempts[(host, request)].message.Some? {
        var id := attempts[(host, request)].message.value;
        if id in messages && messages[id].state == Queued {
          leases := leases[messages[id].life := (host, request)];
          messages := messages[id := messages[id].(state := Dispatching, attempt := request, updated := now)];
        }
      }
    }

    method Report(host: string, b: ReceiptBody, now: int) returns (r: Response)
      requires Valid()
      modifies this`messages, this`receipts
      ensures Valid()
      ensures (Contents(), r) == RunCall(old(Contents()), q, Call.Report(host, b, now))
    {
      ghost var t := Contents();
      RunKeepsInv(t, q, Call.Report(host, b, now), Arrived);
      if !ValidReceipt(b) {
        return Refused(400);
      }
      var existing := FindReceipt(receipts, host, b.request);
      if existing.Some? {
        RunStoredReport(t, q, host, b, now);
        return if SameReceipt(existing.value, b) then Receipted(existing.value) else Refused(409);
      }
      RunNewReport(t, q, host, b, now);
      InsertReceipt(host, b, now);
      var stored := FindReceipt(receipts, host, b.request);
      return if stored.Some? && SameReceipt(stored.value, b) then Receipted(stored.value) else Refused(409);
    }

    /** The receipt batch: the guarded INSERT, then the guarded projection onto the message. */
    method InsertReceipt(host: string, b: ReceiptBody, now: int)
      modifies this`messages, this`receipts
      ensures Contents() == ReceiptBatch(old(Contents()), host, b, now)
    {
      if b.message in messages && messages[b.message].target == host && Permits(messages[b.message].state, b.state)
         && FindReceipt(receipts, host, b.request).None?
      {
        receipts := receipts + [Receipt(host, b.request, b.message, b.state, b.submission, b.evidence, now)];
      }
      var stored := FindReceipt(receipts, host, b.request);
      if b.message in messages && messages[b.message].target == host && Permits(messages[b.message].state, b.state)
         && stored.Some? && SameReceipt(stored.value, b)
      {
        var row := messages[b.message];
        messages := messages[b.message := row.(state := b.state, evidence := b.evidence, updated := now,
                                               submission := if b.submission == "" then row.submission
                                                             else b.submission)];
      }
    }

    method Inspect(host: string, id: string) returns (r: Response)
      ensures (Contents(), r) == RunCall(Contents(), q, Call.Inspect(host, id))
    {
      RunInspect(Contents(), q, host, id);
      if !IsText(id, 110) {
        return Refused(400);
      }
      if id !in messages || (messages[id].sender != host && messages[id].target != host) {
        return Refused(404);
      }
      return Shown(View(id, messages[id]));
    }

    /** Scheduled retention. */
    method CompactRelay(cutoff: int)
      requires Valid()
      modifies this`messages, this`attempts, this`receipts
      ensures Valid() && Contents() == Compact(old(Contents()), cutoff)
    {
      CompactKeepsInv(Contents(), cutoff);
      DeleteExpired(cutoff);
    }

    /** The deletes of one batch, in order; the claims table is left out. */
    method DeleteExpired(cutoff: int)
      modifies this`messages, this`attempts, this`receipts
      ensures Contents() == Compact(old(Contents()), cutoff)
    {
      ghost var t := Contents();
      var gone := set id | id in messages && messages[id].state == Completed && messages[id].updated < cutoff;
      receipts := Without(receipts, gone);
      attempts := map k | k in attempts
        && !(attempts[k].message.Some? && attempts[k].message.value in gone) :: attempts[k];
      CompactInSteps(t, cutoff, gone, attempts);
      messages := map id | id in messages && id !in gone :: messages[id];
      attempts := map k | k in attempts && !(attempts[k].message.None? && attempts[k].created < cutoff) :: attempts[k];
    }

    method ListTasks(target: string, cursor: string) returns (r: TaskListing)
      ensures r == Malformed <==> !IsHost(target) || (cursor != "" && !IsUuid(cursor))
      ensures r.Page? ==> IsTaskPage(tasks, target, cursor, r.rows, r.next)
    {
      if !IsHost(target) || (cursor != "" && !IsUuid(cursor)) {
        return Malformed;
      }
      var found := FindThreads(tasks, target, cursor);
      var page: seq<(string, Task)> := [];
      for i := 0 to if |found| > 100 then 100 else |found|
        invariant |page| == i
        invariant forall j :: 0 <= j < i ==>
                    page[j].0 == found[j] && (target, found[j]) in tasks && page[j].1 == tasks[(target, found[j])]
      {
        assert found[i] in ThreadsAfter(tasks, target, cursor);
        page := page + [(found[i], tasks[(target, found[i])])];
      }
      return Page(page, if |found| > 100 then found[99] else "");
    }
  }

  method FindThreads(tasks: map<(string, string), Task>, target: string, cursor: string) returns (found: seq<string>)
    ensures found == PageRows(tasks, target, cursor)
  {
    LessIsStrict();
    found := SelectFirst(Less, ThreadsAfter(tasks, target, cursor), 101);
  }
}
