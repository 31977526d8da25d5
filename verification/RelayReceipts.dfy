/** Receipts are the message's history: for every live message they spell the path to its state. */
module RelayReceipts {
  import opened Basics
  import opened RelayTables

  /** States reported for one message, in insertion order. */
  function History(rs: seq<Receipt>, id: string): seq<State> {
    if rs == [] then []
    else (if rs[0].message == id then [rs[0].state] else []) + History(rs[1..], id)
  }

  /** The walks through the state diagram that end in `s`, leaving out the queue and the dispatch. */
  predicate PathTo(h: seq<State>, s: State) {
    match s
    case Queued => h == []
    case Dispatching => h == []
    case Submitted => h == [Submitted]
    case Uncertain => h == [Uncertain]
    case Acknowledged => h in {[Acknowledged], [Submitted, Acknowledged], [Uncertain, Acknowledged]}
    case Completed => h in {[Acknowledged, Completed], [Submitted, Acknowledged, Completed],
      [Uncertain, Acknowledged, Completed]}
  }

  ghost predicate ReceiptsInv(t: Tables) {
    && (forall i :: 0 <= i < |t.receipts| ==>
          && t.receipts[i].message in t.messages
          && t.messages[t.receipts[i].message].target == t.receipts[i].host)
    && (forall i, j :: 0 <= i < j < |t.receipts| ==>
          t.receipts[i].host != t.receipts[j].host || t.receipts[i].request != t.receipts[j].request)
    && (forall id :: id in t.messages ==> PathTo(History(t.receipts, id), t.messages[id].state))
  }

  /** At most three receipts, at most one of each kind, and the last one is the state. */
  lemma {:induction false} HistoryIsState(t: Tables, id: string)
    requires ReceiptsInv(t) && id in t.messages
    ensures |History(t.receipts, id)| <= 3
    ensures forall i, j :: 0 <= i < j < |History(t.receipts, id)| ==>
            History(t.receipts, id)[i] != History(t.receipts, id)[j]
    ensures History(t.receipts, id) == [] <==> t.messages[id].state in {Queued, Dispatching}
    ensures var h := History(t.receipts, id); h != [] ==> h[|h| - 1] == t.messages[id].state
  {
    assert PathTo(History(t.receipts, id), t.messages[id].state);
  }

  // ---- lookups ----

  lemma {:induction false} FindMeans(rs: seq<Receipt>, host: string, request: string)
    ensures FindReceipt(rs, host, request).None? <==>
              forall i :: 0 <= i < |rs| ==> rs[i].host != host || rs[i].request != request
    ensures FindReceipt(rs, host, request).Some? ==>
              exists i :: 0 <= i < |rs| && rs[i] == FindReceipt(rs, host, request).value
                          && rs[i].host == host && rs[i].request == request
  {
    if rs != [] {
      FindMeans(rs[1..], host, request);
      if rs[0].host == host && rs[0].request == request {
        assert rs[0] == FindReceipt(rs, host, request).value;
      } else {
        var r := FindReceipt(rs[1..], host, request);
        if r.Some? {
          var i :| 0 <= i < |rs[1..]| && rs[1..][i] == r.value;
          assert rs[i + 1] == r.value;
        }
        forall i | 0 <= i < |rs| && r.None? ensures rs[i].host != host || rs[i].request != request {
          if i > 0 { assert rs[i] == rs[1..][i - 1]; }
        }
        assert forall i :: 0 <= i < |rs[1..]| ==> rs[1..][i] == rs[i + 1];
      }
    }
  }

  lemma {:induction false} FindAppended(rs: seq<Receipt>, r: Receipt)
    requires FindReceipt(rs, r.host, r.request).None?
    ensures FindReceipt(rs + [r], r.host, r.request) == Some(r)
  {
    if rs != [] {
      assert (rs + [r])[1..] == rs[1..] + [r];
      FindAppended(rs[1..], r);
    }
  }

  lemma {:induction false} HistoryAppend(rs: seq<Receipt>, r: Receipt, id: string)
    ensures History(rs + [r], id) == if r.message == id then History(rs, id) + [r.state] else History(rs, id)
  {
    if rs == [] {
      assert rs + [r] == [r];
    } else {
      var longer: seq<Receipt> := rs + [r];
      HistoryAppend(rs[1..], r, id);
      assert longer[0] == rs[0] && longer[1..] == rs[1..] + [r];
      var first: seq<State> := if rs[0].message == id then [rs[0].state] else [];
      assert History(longer, id) == first + History(rs[1..] + [r], id);
      assert first + (History(rs[1..], id) + [r.state]) == (first + History(rs[1..], id)) + [r.state];
    }
  }

  lemma {:induction false} HistoryHas(rs: seq<Receipt>, i: nat)
    requires i < |rs|
    ensures rs[i].state in History(rs, rs[i].message)
  {
    if i > 0 {
      assert rs[i] == rs[1..][i - 1];
      HistoryHas(rs[1..], i - 1);
    }
  }

  lemma {:induction false} HistoryOfNone(rs: seq<Receipt>, id: string)
    requires forall i :: 0 <= i < |rs| ==> rs[i].message != id
    ensures History(rs, id) == []
  {
    if rs != [] {
      forall i | 0 <= i < |rs[1..]| ensures rs[1..][i].message != id { assert rs[1..][i] == rs[i + 1]; }
      HistoryOfNone(rs[1..], id);
    }
  }

  lemma {:induction false} WithoutKeepsHistory(rs: seq<Receipt>, gone: set<string>, id: string)
    requires id !in gone
    ensures History(Without(rs, gone), id) == History(rs, id)
  {
    if rs != [] {
      WithoutKeepsHistory(rs[1..], gone, id);
      if rs[0].message !in gone {
        assert Without(rs, gone)[1..] == Without(rs[1..], gone);
      }
    }
  }

  /** Deletion keeps the surviving receipts, in order. */
  lemma {:induction false} WithoutIsSubsequence(rs: seq<Receipt>, gone: set<string>) returns (at: seq<nat>)
    ensures |at| == |Without(rs, gone)|
    ensures forall i :: 0 <= i < |at| ==>
            at[i] < |rs| && rs[at[i]] == Without(rs, gone)[i] && rs[at[i]].message !in gone
    ensures forall i, j :: 0 <= i < j < |at| ==> at[i] < at[j]
  {
    if rs == [] {
      at := [];
    } else {
      var rest := WithoutIsSubsequence(rs[1..], gone);
      at := seq(|rest|, i requires 0 <= i < |rest| => rest[i] + 1);
      if rs[0].message !in gone {
        at := [0] + at;
      }
    }
  }

  // ---- the receipts batch ----

  /** A stored receipt already moved its message past the states from which it could move it again. */
  lemma {:induction false} StoredReceiptIsSpent(t: Tables, host: string, b: ReceiptBody)
    requires ReceiptsInv(t)
    requires FindReceipt(t.receipts, host, b.request).Some?
    requires SameReceipt(FindReceipt(t.receipts, host, b.request).value, b)
    ensures !ReceiptAdmitted(t, host, b)
  {
    FindMeans(t.receipts, host, b.request);
    var i :| 0 <= i < |t.receipts| && t.receipts[i] == FindReceipt(t.receipts, host, b.request).value;
    HistoryHas(t.receipts, i);
    assert PathTo(History(t.receipts, b.message), t.messages[b.message].state);
  }

  /** A known request ID changes nothing, whatever content comes with it. */
  lemma {:induction false} ReceiptReplayIsNoop(t: Tables, host: string, b: ReceiptBody, now: int)
    requires ReceiptsInv(t) && FindReceipt(t.receipts, host, b.request).Some?
    ensures ReceiptBatch(t, host, b, now) == t
  {
    if SameReceipt(FindReceipt(t.receipts, host, b.request).value, b) {
      StoredReceiptIsSpent(t, host, b);
    }
  }

  /** A receipt row is inserted iff the message makes the reported transition in the same batch. */
  lemma {:induction false} ReceiptInsertedIffMoved(t: Tables, host: string, b: ReceiptBody, now: int)
    requires ReceiptsInv(t)
    ensures Projects(t, host, b, now) <==> |ReceiptInsert(t, host, b, now)| == |t.receipts| + 1
    ensures !Projects(t, host, b, now) ==> ReceiptBatch(t, host, b, now) == t
    ensures Projects(t, host, b, now) ==>
              && ReceiptAdmitted(t, host, b)
              && ReceiptBatch(t, host, b, now).messages[b.message].state == b.state
              && ReceiptBatch(t, host, b, now).receipts
                 == t.receipts + [Receipt(host, b.request, b.message, b.state, b.submission, b.evidence, now)]
  {
    if FindReceipt(t.receipts, host, b.request).Some? {
      ReceiptReplayIsNoop(t, host, b, now);
      if SameReceipt(FindReceipt(t.receipts, host, b.request).value, b) {
        StoredReceiptIsSpent(t, host, b);
      }
    } else {
      FindAppended(t.receipts, Receipt(host, b.request, b.message, b.state, b.submission, b.evidence, now));
    }
  }

  lemma {:induction false} ReceiptBatchKeepsReceipts(t: Tables, host: string, b: ReceiptBody, now: int)
    requires ReceiptsInv(t) && Reportable(b.state)
    ensures ReceiptsInv(ReceiptBatch(t, host, b, now))
  {
    ReceiptInsertedIffMoved(t, host, b, now);
    if Projects(t, host, b, now) {
      var u := ReceiptBatch(t, host, b, now);
      var r := Receipt(host, b.request, b.message, b.state, b.submission, b.evidence, now);
      FindMeans(t.receipts, host, b.request);
      forall id | id in u.messages ensures PathTo(History(u.receipts, id), u.messages[id].state) {
        HistoryAppend(t.receipts, r, id);
        assert PathTo(History(t.receipts, id), t.messages[id].state);
        if id == b.message {
          PathExtends(History(t.receipts, id), t.messages[id].state, b.state);
        }
      }
    }
  }

  lemma {:induction false} PathExtends(h: seq<State>, s: State, to: State)
    requires PathTo(h, s) && Permits(s, to)
    ensures PathTo(h + [to], to)
  {
    assert h == [] || h == [h[0]] || h == [h[0], h[1]];
    assert h + [to] == if h == [] then [to] else if |h| == 1 then [h[0], to] else [h[0], h[1], to];
  }

  // ---- the other batches ----

  lemma {:induction false} SameMessagesKeepReceipts(t: Tables, u: Tables)
    requires ReceiptsInv(t) && u.messages == t.messages && u.receipts == t.receipts
    ensures ReceiptsInv(u)
  {
  }

  lemma {:induction false} SendBatchKeepsReceipts(t: Tables, q: Quota, host: string, b: MessageBody, now: int)
    requires ReceiptsInv(t)
    ensures ReceiptsInv(SendBatch(t, q, host, b, now))
  {
    var u := SendBatch(t, q, host, b, now);
    forall id | id in u.messages ensures PathTo(History(u.receipts, id), u.messages[id].state) {
      if id in t.messages {
        assert u.messages[id] == t.messages[id];
      } else {
        HistoryOfNone(t.receipts, id);
      }
    }
  }

  lemma {:induction false} ClaimBatchKeepsReceipts(t: Tables, q: Quota, host: string, request: string, now: int)
    requires ReceiptsInv(t)
    ensures ReceiptsInv(ClaimBatch(t, q, host, request, now))
  {
    var u := ClaimBatch(t, q, host, request, now);
    forall id | id in u.messages ensures PathTo(History(u.receipts, id), u.messages[id].state) {
      assert PathTo(History(t.receipts, id), t.messages[id].state);
    }
  }

  lemma {:induction false} CompactKeepsReceipts(t: Tables, cutoff: int)
    requires ReceiptsInv(t)
    ensures ReceiptsInv(Compact(t, cutoff))
  {
    var u := Compact(t, cutoff);
    var gone := set id | id in t.messages && Expired(t, cutoff, id);
    var at := WithoutIsSubsequence(t.receipts, gone);
    forall id | id in u.messages ensures PathTo(History(u.receipts, id), u.messages[id].state) {
      WithoutKeepsHistory(t.receipts, gone, id);
    }
  }
}
