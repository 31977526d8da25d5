/** One step of a receiving cycle keeps the invariant of its node. */
module RelayCycle {
  import opened Basics
  import opened RelayRunner
  import opened RelayWorld
  import opened RelaySafety

  lemma {:induction false} HeldIsEntryOk(f: Facts, k: nat, host: string, j: Journal, l: Local)
    requires IsSave(l.pc) && EntryHeld(f, k, host, j, l)
    ensures EntryOk(f, k, l.e)
  {
  }

  lemma {:induction false} SavedPending(f: Facts, k: nat, host: string, j: Journal, l: Local)
    requires PendingOk(f, k, j.pending) && IsSave(l.pc) && EntryHeld(f, k, host, j, l)
    ensures PendingOk(f, k, Save(j.pending, l.e))
    ensures OthersDone(Save(j.pending, l.e), l.e.id)
    ensures Find(Save(j.pending, l.e), l.e.id) == Some(l.e)
  {
    HeldIsEntryOk(f, k, host, j, l);
    SaveMembers(j.pending, l.e);
    SaveDistinct(j.pending, l.e);
    SaveFind(j.pending, l.e, l.e.id);
  }

  lemma {:induction false} SavedOk(f: Facts, k: nat, host: string, j: Journal, l: Local)
    requires IsSave(l.pc) && EntryHeld(f, k, host, j, l)
    requires OthersDone(Save(j.pending, l.e), l.e.id) && Find(Save(j.pending, l.e), l.e.id) == Some(l.e)
    ensures LocalOk(f, k, host, j.(pending := Save(j.pending, l.e)), l.(pc := AfterSave(l.pc)))
  {
  }

  lemma {:induction false} SaveStep(f: Facts, k: nat, host: string, j: Journal, l: Local, a: Answer, minted: string)
    requires PendingOk(f, k, j.pending) && LocalOk(f, k, host, j, l) && IsSave(l.pc)
    ensures PendingOk(f, k, JournalAfter(l, j, a).pending)
    ensures LocalOk(f, k, host, JournalAfter(l, j, a), Advance(host, l, j, a, minted))
  {
    if a == Saved(Stored) {
      SavedPending(f, k, host, j, l);
      SavedOk(f, k, host, j, l);
    } else {
      if a == Saved(StoredButFailed) { SavedPending(f, k, host, j, l); }
      assert Advance(host, l, j, a, minted) == Stop(l);
    }
  }

  lemma {:induction false} BeginOk(f: Facts, k: nat, host: string, j: Journal, l: Local, a: Answer, minted: string)
    requires PendingOk(f, k, j.pending)
    ensures LocalOk(f, k, host, j, BeginStep(l, j.pending, a, minted))
  {
    NextIsFirstOpen(j.pending);
    if a == Proceed && Next(j.pending).Some? {
      var e := Next(j.pending).value;
      assert EntryOk(f, k, e);
      assert OthersDone(j.pending, e.id);
    }
  }

  lemma {:induction false} NewEntryOk(f: Facts, k: nat, host: string, j: Journal, l: Local, a: Answer, minted: string)
    requires PendingOk(f, k, j.pending) && LocalOk(f, k, host, j, l) && l.pc == AskReady && LogOk(f)
    requires minted !in f.owner
    ensures LocalOk(f.(owner := f.owner[minted := k]), k, host, j, ReadyAnswer(l, a, minted))
  {
    FindIsMember(j.pending, minted);
    forall e | e in j.pending ensures e.id != minted { assert EntryOk(f, k, e); }
    forall i | 0 <= i < |f.log| ensures f.log[i].entry != minted { assert SubmissionOk(f, f.log[i]); }
  }

  lemma {:induction false} ClaimOk(f: Facts, k: nat, host: string, j: Journal, l: Local, a: Answer)
    requires LocalOk(f, k, host, j, l) && l.pc == AwaitClaim
    ensures LocalOk(f, k, host, j, ClaimAnswer(host, l, a))
  {
  }

  lemma {:induction false} InspectOk(f: Facts, k: nat, host: string, j: Journal, l: Local, a: Answer, minted: string)
    requires LocalOk(f, k, host, j, l) && l.pc == AwaitInspect
    requires a.Told? ==> ResponseOk(f, a.response)
    ensures LocalOk(f, k, host, j, InspectAnswer(host, l, a, minted))
  {
  }

  lemma {:induction false} AllowedOk(f: Facts, k: nat, host: string, j: Journal, l: Local, a: Answer)
    requires LocalOk(f, k, host, j, l) && l.pc == CheckAllowed
    ensures LocalOk(f, k, host, j, AllowedStep(l, j, a))
  {
  }

  /** The submission itself: the entry was never logged, and its lease makes the new log line valid. */
  lemma {:induction false} SubmitOk(f: Facts, k: nat, host: string, j: Journal, l: Local, outcome: Option<string>)
    requires LocalOk(f, k, host, j, l) && l.pc == DoSubmit
    ensures var m := l.e.message.value;
            var valid := if outcome.Some? && IsUuid(outcome.value) then outcome else None;
            var g := f.(log := f.log + [Submission(k, l.e.id, l.life, m.id, m.row.thread, m.row.prompt, valid)]);
            LocalOk(g, k, host, j, SubmitAnswer(l, outcome))
  {
    var m := l.e.message.value;
    var valid := if outcome.Some? && IsUuid(outcome.value) then outcome else None;
    var log := f.log + [Submission(k, l.e.id, l.life, m.id, m.row.thread, m.row.prompt, valid)];
    assert log[|f.log|].message == m.id && log[|f.log|].outcome == valid;
    if valid.Some? { assert Vouched(log, m.id, valid.value); }
  }

  lemma {:induction false} SubmitLogOk(f: Facts, k: nat, host: string, j: Journal, l: Local, outcome: Option<string>)
    requires LocalOk(f, k, host, j, l) && l.pc == DoSubmit && LogOk(f)
    ensures var m := l.e.message.value;
            LogOk(f.(log := f.log + [Submission(k, l.e.id, l.life, m.id, m.row.thread, m.row.prompt, outcome)]))
  {
    var m := l.e.message.value;
    var s := Submission(k, l.e.id, l.life, m.id, m.row.thread, m.row.prompt, outcome);
    var g := f.(log := f.log + [s]);
    forall i | 0 <= i < |g.log| ensures SubmissionOk(g, g.log[i]) {
      if i < |f.log| { assert SubmissionOk(f, f.log[i]); }
    }
    forall i, j | 0 <= i < j < |g.log| ensures g.log[i].entry != g.log[j].entry {
      if j == |f.log| { assert !Logged(f.log, l.e.id); }
    }
  }

  /** Logging one's own entry does not disturb the journal: that entry is already past its claim. */
  lemma {:induction false} SubmitPendingOk(f: Facts, k: nat, host: string, j: Journal, l: Local, s: Submission)
    requires PendingOk(f, k, j.pending) && LocalOk(f, k, host, j, l) && l.pc == DoSubmit && s.entry == l.e.id
    ensures PendingOk(f.(log := f.log + [s]), k, j.pending)
  {
    var g := f.(log := f.log + [s]);
    FindIsMember(j.pending, l.e.id);
    forall e | e in j.pending ensures EntryOk(g, k, e) {
      assert EntryOk(f, k, e);
      HonestGrows(f, g, e);
      if e.id == l.e.id { SameEntry(j.pending, e); }
    }
  }

  lemma {:induction false} SameEntry(p: seq<Entry>, e: Entry)
    requires Distinct(p) && e in p
    ensures Find(p, e.id) == Some(e)
  {
    FindIsMember(p, e.id);
  }

  lemma {:induction false} ReportOk(f: Facts, k: nat, host: string, j: Journal, l: Local, a: Answer)
    requires LocalOk(f, k, host, j, l) && l.pc == AwaitReport
    ensures LocalOk(f, k, host, j, ReportAnswer(l, a))
  {
  }

  lemma {:induction false} PassOk(f: Facts, k: nat, host: string, j: Journal, l: Local, a: Answer, minted: string)
    requires LocalOk(f, k, host, j, l) && l.pc in {CallClaim, CallInspect, CallReport, Stopped}
    ensures LocalOk(f, k, host, j, Advance(host, l, j, a, minted))
  {
  }

  /** Steps that neither mint an entry nor submit. */
  lemma {:induction false} QuietStep(f: Facts, k: nat, host: string, j: Journal, l: Local, a: Answer, minted: string)
    requires PendingOk(f, k, j.pending) && LocalOk(f, k, host, j, l)
    requires l.pc != AskReady && l.pc != DoSubmit
    requires a.Told? ==> ResponseOk(f, a.response)
    ensures PendingOk(f, k, JournalAfter(l, j, a).pending)
    ensures LocalOk(f, k, host, JournalAfter(l, j, a), Advance(host, l, j, a, minted))
  {
    if IsSave(l.pc) {
      SaveStep(f, k, host, j, l, a, minted);
    } else {
      assert JournalAfter(l, j, a) == j;
      match l.pc
      case Begin => BeginOk(f, k, host, j, l, a, minted);
      case AwaitClaim => ClaimOk(f, k, host, j, l, a);
      case AwaitInspect => InspectOk(f, k, host, j, l, a, minted);
      case CheckAllowed => AllowedOk(f, k, host, j, l, a);
      case AwaitReport => ReportOk(f, k, host, j, l, a);
      case _ => PassOk(f, k, host, j, l, a, minted);
    }
  }

  lemma {:induction false} LocalIgnoresCall(f: Facts, k: nat, host: string, j: Journal, l: Local, hid: nat)
    requires LocalOk(f, k, host, j, l)
    ensures LocalOk(f, k, host, j, l.(call := hid))
  {
  }
}
