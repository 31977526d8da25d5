/** The exclusive lease: what every batch and the retention job keep true of the coordinator's tables. */
module RelayLease {
  import opened Basics
  import opened RelayTables

  ghost predicate RowBorn(t: Tables, id: string)
    requires id in t.messages
  {
    var row := t.messages[id];
    && row.life < |t.born|
    && t.born[row.life] == Birth(id, row.sender, row.request, row.target, row.thread, row.prompt)
    && IsHost(row.target) && IsUuid(row.thread) && IsText(row.prompt, 16384)
  }

  /** A queued row was never leased; any other row is held by the one attempt it names. */
  ghost predicate RowLeased(t: Tables, id: string)
    requires id in t.messages
  {
    var row := t.messages[id];
    if row.state == Queued then row.attempt == "" && row.life !in t.leases
    else
      && row.life in t.leases && t.leases[row.life] == (row.target, row.attempt)
      && (row.target, row.attempt) in t.attempts && t.attempts[(row.target, row.attempt)].message == Some(id)
  }

  ghost predicate AttemptOk(t: Tables, k: (string, string))
    requires k in t.attempts
  {
    t.attempts[k].message.Some? ==>
      var id := t.attempts[k].message.value;
      id in t.messages && t.messages[id].state != Queued && t.messages[id].target == k.0
        && t.messages[id].attempt == k.1
  }

  ghost predicate LeaseInv(t: Tables) {
    && (forall id :: id in t.messages ==> RowBorn(t, id))
    && (forall id :: id in t.messages ==> RowLeased(t, id))
    && (forall k :: k in t.attempts ==> AttemptOk(t, k))
    && (forall n :: n in t.leases ==> n < |t.born|)
  }

  /** Rows that differ only in state are told apart by their lifetimes. */
  lemma {:induction false} LifeNamesRow(t: Tables, a: string, b: string)
    requires LeaseInv(t) && a in t.messages && b in t.messages
    requires t.messages[a].life == t.messages[b].life
    ensures a == b
  {
    assert RowBorn(t, a) && RowBorn(t, b);
  }

  /** The lease as the documentation states it: a message is queued iff no attempt references it,
      and any other message is referenced by exactly one attempt, its own. */
  lemma {:induction false} ExclusiveLease(t: Tables, id: string)
    requires LeaseInv(t) && id in t.messages
    ensures t.messages[id].state == Queued <==> forall k :: k in t.attempts ==> t.attempts[k].message != Some(id)
    ensures t.messages[id].state != Queued ==>
              && (t.messages[id].target, t.messages[id].attempt) in t.attempts
              && forall k :: k in t.attempts ==>
                   (t.attempts[k].message == Some(id) <==> k == (t.messages[id].target, t.messages[id].attempt))
  {
    assert RowLeased(t, id);
    forall k | k in t.attempts && t.attempts[k].message == Some(id)
      ensures k == (t.messages[id].target, t.messages[id].attempt) && t.messages[id].state != Queued
    {
      assert AttemptOk(t, k);
    }
  }

  // ---- what every batch keeps ----

  /** History only grows, and a row lifetime never goes back to the queue or changes its content. */
  ghost predicate Grows(t: Tables, u: Tables) {
    && |t.born| <= |u.born| && (forall n: nat :: n < |t.born| ==> u.born[n] == t.born[n])
    && (forall n :: n in t.leases ==> n in u.leases && u.leases[n] == t.leases[n])
  }

  function Rank(s: State): nat {
    match s
    case Queued => 0
    case Dispatching => 1
    case Submitted => 2
    case Uncertain => 2
    case Acknowledged => 3
    case Completed => 4
  }

  ghost predicate RowAdvances(r: Row, s: Row) {
    && r.sender == s.sender && r.request == s.request && r.target == s.target && r.thread == s.thread
    && r.prompt == s.prompt
    && (r == s || Rank(r.state) < Rank(s.state))
    && (r.state == Queued || r.attempt == s.attempt)
  }

  ghost predicate Advances(t: Tables, u: Tables) {
    && Grows(t, u)
    && (forall id :: id in t.messages && id in u.messages && t.messages[id].life == u.messages[id].life
          ==> RowAdvances(t.messages[id], u.messages[id]))
    && (forall id :: id in t.messages && id in u.messages && t.messages[id].life != u.messages[id].life
          ==> |t.born| <= u.messages[id].life)
  }

  lemma {:induction false} TaskBatchKeepsLease(t: Tables, q: Quota, host: string, thread: string, title: string,
          enabled: bool, now: int)
    requires LeaseInv(t)
    ensures LeaseInv(TaskBatch(t, q, host, thread, title, enabled, now))
    ensures Advances(t, TaskBatch(t, q, host, thread, title, enabled, now))
  {
    var u := TaskBatch(t, q, host, thread, title, enabled, now);
    assert u.messages == t.messages && u.attempts == t.attempts && u.born == t.born && u.leases == t.leases;
    forall id | id in u.messages ensures RowBorn(u, id) && RowLeased(u, id) {
      assert RowBorn(t, id) && RowLeased(t, id);
    }
    forall k | k in u.attempts ensures AttemptOk(u, k) { assert AttemptOk(t, k); }
  }

  lemma {:induction false} SendBatchKeepsLease(t: Tables, q: Quota, host: string, b: MessageBody, now: int)
    requires LeaseInv(t) && IsHost(b.target) && IsUuid(b.thread) && IsText(b.prompt, 16384)
    ensures LeaseInv(SendBatch(t, q, host, b, now))
  {
    var u := SendBatch(t, q, host, b, now);
    forall id | id in u.messages ensures RowBorn(u, id) && RowLeased(u, id) { SentRow(t, q, host, b, now, id); }
    forall k | k in u.attempts ensures AttemptOk(u, k) {
      assert AttemptOk(t, k);
    }
    assert forall n :: n in u.leases ==> n in t.leases;
  }

  lemma {:induction false} SentRow(t: Tables, q: Quota, host: string, b: MessageBody, now: int, id: string)
    requires LeaseInv(t) && IsHost(b.target) && IsUuid(b.thread) && IsText(b.prompt, 16384)
    requires id in SendBatch(t, q, host, b, now).messages
    ensures RowBorn(SendBatch(t, q, host, b, now), id) && RowLeased(SendBatch(t, q, host, b, now), id)
  {
    if id in t.messages { assert RowBorn(t, id) && RowLeased(t, id); }
  }

  lemma {:induction false} SendBatchAdvances(t: Tables, q: Quota, host: string, b: MessageBody, now: int)
    ensures Advances(t, SendBatch(t, q, host, b, now))
  {
  }

  lemma {:induction false} ClaimBatchKeepsLease(t: Tables, q: Quota, host: string, request: string, now: int)
    requires LeaseInv(t)
    ensures LeaseInv(ClaimBatch(t, q, host, request, now))
  {
    var u := ClaimBatch(t, q, host, request, now);
    if (host, request) in t.attempts {
      ClaimReplayIsNoop(t, q, host, request, now);
    } else {
      forall id | id in u.messages ensures RowBorn(u, id) && RowLeased(u, id) {
        ClaimRow(t, q, host, request, now, id);
      }
      forall k | k in u.attempts ensures AttemptOk(u, k) {
        ClaimAttempt(t, q, host, request, now, k);
      }
    }
  }

  /** An attempt that exists is never given another message. */
  lemma {:induction false} ClaimReplayIsNoop(t: Tables, q: Quota, host: string, request: string, now: int)
    requires LeaseInv(t) && (host, request) in t.attempts
    ensures ClaimBatch(t, q, host, request, now) == t
  {
    assert AttemptOk(t, (host, request));
  }

  lemma {:induction false} ClaimRow(t: Tables, q: Quota, host: string, request: string, now: int, id: string)
    requires LeaseInv(t) && (host, request) !in t.attempts && id in t.messages
    ensures id in ClaimBatch(t, q, host, request, now).messages
    ensures RowBorn(ClaimBatch(t, q, host, request, now), id)
    ensures RowLeased(ClaimBatch(t, q, host, request, now), id)
  {
    assert RowBorn(t, id) && RowLeased(t, id);
    match LeaseTarget(t.messages, AttemptInsert(t, q, host, request, now), host, request)
    case None =>
    case Some(chosen) =>
      if id != chosen && t.messages[id].life == t.messages[chosen].life {
        LifeNamesRow(t, id, chosen);
      }
  }

  lemma {:induction false} ClaimAttempt(t: Tables, q: Quota, host: string, request: string, now: int,
          k: (string, string))
    requires LeaseInv(t) && (host, request) !in t.attempts && k in ClaimBatch(t, q, host, request, now).attempts
    ensures AttemptOk(ClaimBatch(t, q, host, request, now), k)
  {
    if k != (host, request) { assert AttemptOk(t, k); }
  }

  lemma {:induction false} LeasedAdvances(t: Tables, u: Tables, id: string, row: Row, host: string, request: string)
    requires id in t.messages && t.messages[id].state == Queued && t.messages[id].life !in t.leases
    requires row.state == Dispatching
    requires row == t.messages[id].(state := Dispatching, attempt := row.attempt, updated := row.updated)
    requires u == t.(attempts := u.attempts, messages := t.messages[id := row],
             leases := t.leases[row.life := (host, request)])
    ensures Advances(t, u)
  {
  }

  lemma {:induction false} ClaimBatchAdvances(t: Tables, q: Quota, host: string, request: string, now: int)
    requires LeaseInv(t)
    ensures Advances(t, ClaimBatch(t, q, host, request, now))
  {
    var u := ClaimBatch(t, q, host, request, now);
    match LeaseTarget(t.messages, AttemptInsert(t, q, host, request, now), host, request)
    case None =>
    case Some(chosen) =>
      assert RowLeased(t, chosen);
      LeasedAdvances(t, u, chosen, u.messages[chosen], host, request);
  }

  lemma {:induction false} ReceiptBatchKeepsLease(t: Tables, host: string, b: ReceiptBody, now: int)
    requires LeaseInv(t)
    ensures LeaseInv(ReceiptBatch(t, host, b, now))
  {
    var u := ReceiptBatch(t, host, b, now);
    forall id | id in u.messages ensures RowBorn(u, id) && RowLeased(u, id) {
      ReceiptRow(t, host, b, now, id);
    }
    forall k | k in u.attempts ensures AttemptOk(u, k) {
      ReceiptAttempt(t, host, b, now, k);
    }
    assert u.leases == t.leases && u.born == t.born;
  }

  lemma {:induction false} ReceiptRow(t: Tables, host: string, b: ReceiptBody, now: int, id: string)
    requires LeaseInv(t) && id in ReceiptBatch(t, host, b, now).messages
    ensures RowBorn(ReceiptBatch(t, host, b, now), id) && RowLeased(ReceiptBatch(t, host, b, now), id)
  {
    var u := ReceiptBatch(t, host, b, now);
    assert RowBorn(t, id) && RowLeased(t, id);
    if id == b.message && Projects(t, host, b, now) {
      assert u.messages[id] == Reported(t.messages[id], b, now);
      assert t.messages[id].state != Queued && b.state != Queued;
    } else {
      assert u.messages[id] == t.messages[id];
    }
  }

  lemma {:induction false} ReceiptAttempt(t: Tables, host: string, b: ReceiptBody, now: int, k: (string, string))
    requires LeaseInv(t) && k in t.attempts
    ensures AttemptOk(ReceiptBatch(t, host, b, now), k)
  {
    assert AttemptOk(t, k);
  }

  lemma {:induction false} ReceiptBatchAdvances(t: Tables, host: string, b: ReceiptBody, now: int)
    ensures Advances(t, ReceiptBatch(t, host, b, now))
  {
  }

  lemma {:induction false} CompactKeepsLease(t: Tables, cutoff: int)
    requires LeaseInv(t)
    ensures LeaseInv(Compact(t, cutoff))
    ensures Advances(t, Compact(t, cutoff))
  {
    var u := Compact(t, cutoff);
    forall id | id in u.messages ensures RowBorn(u, id) && RowLeased(u, id) {
      assert RowBorn(t, id) && RowLeased(t, id);
    }
    forall k | k in u.attempts ensures AttemptOk(u, k) {
      assert AttemptOk(t, k);
    }
  }
}
