/** What every reachable world keeps, and the promises that follow: no submission is repeated, no receipt is untrue. */
module RelaySafety {
  import opened Basics
  import opened RelayTables
  import opened RelayHandlers
  import opened RelayRunner
  import opened RelayWorld

  /** The growing part of a world: everything the local invariants refer to. */
  datatype Facts = Facts(owner: map<string, nat>, log: seq<Submission>, born: seq<Birth>,
                         leases: map<nat, (string, string)>)

  function FactsOf(w: World): Facts {
    Facts(w.owner, w.log, w.t.born, w.t.leases)
  }

  ghost predicate Extends(f: Facts, g: Facts) {
    && (forall x :: x in f.owner ==> x in g.owner && g.owner[x] == f.owner[x])
    && |f.log| <= |g.log| && (forall i: nat :: i < |f.log| ==> g.log[i] == f.log[i])
    && |f.born| <= |g.born| && (forall n: nat :: n < |f.born| ==> g.born[n] == f.born[n])
    && (forall n :: n in f.leases ==> n in g.leases && g.leases[n] == f.leases[n])
  }

  predicate Logged(log: seq<Submission>, id: string) {
    exists i :: 0 <= i < |log| && log[i].entry == id
  }

  /** A submission for this message was made and returned `submission`. */
  predicate Vouched(log: seq<Submission>, message: string, submission: string) {
    exists i :: 0 <= i < |log| && log[i].message == message && log[i].outcome == Some(submission)
  }

  // ---- responses ----

  ghost predicate Seen(f: Facts, v: View) {
    && v.row.life < |f.born|
    && f.born[v.row.life] == Birth(v.id, v.row.sender, v.row.request, v.row.target, v.row.thread, v.row.prompt)
    && (v.row.state != Queued ==> v.row.life in f.leases && f.leases[v.row.life] == (v.row.target, v.row.attempt))
  }

  ghost predicate ResponseOk(f: Facts, r: Response) {
    && (r.Shown? ==> Seen(f, r.view))
    && (r.Delivered? && r.message.Some? ==> Seen(f, r.message.value))
  }

  /** A report of success is either vouched for or came from another client. */
  ghost predicate CallOk(f: Facts, forged: set<(string, string)>, c: Call) {
    (c.Report? && c.receipt.state == Submitted && (c.host, c.receipt.message) !in forged) ==>
      Vouched(f.log, c.receipt.message, c.receipt.submission)
  }

  ghost predicate HandlerOk(f: Facts, forged: set<(string, string)>, h: (Call, Stage)) {
    && StageOk(h.0, h.1)
    && (h.1.Answered? ==> ResponseOk(f, h.1.response))
    && CallOk(f, forged, h.0)
  }

  ghost predicate RowVouched(f: Facts, forged: set<(string, string)>, id: string, row: Row) {
    row.state == Submitted && (row.target, id) !in forged ==> Vouched(f.log, id, row.submission)
  }

  // ---- journals ----

  /** A receipt that says `submitted` repeats what a submission of this very message returned. */
  ghost predicate Honest(f: Facts, e: Entry) {
    e.receipt.state == Submitted ==> Vouched(f.log, e.receipt.message, e.receipt.submission)
  }

  ghost predicate EntryOk(f: Facts, k: nat, e: Entry) {
    && e.id in f.owner && f.owner[e.id] == k
    && (e.phase in {Claiming, Leased} ==> !Logged(f.log, e.id))
    && (e.phase in {Leased, Submitting, Reporting} ==> e.message.Some?)
    && Honest(f, e)
  }

  ghost predicate PendingOk(f: Facts, k: nat, p: seq<Entry>) {
    && Distinct(p) && OneOpen(p)
    && forall e :: e in p ==> EntryOk(f, k, e)
  }

  /** The phase the journal holds for the cycle's entry at each program point. */
  function StoredPhase(pc: Pc): Option<Phase> {
    match pc
    case SaveNew => None
    case CallClaim => Some(Claiming)
    case AwaitClaim => Some(Claiming)
    case SaveEmpty => Some(Claiming)
    case SaveReady => Some(Claiming)
    case CallInspect => Some(Leased)
    case AwaitInspect => Some(Leased)
    case SaveSkip => Some(Leased)
    case CheckAllowed => Some(Leased)
    case SaveRefused => Some(Leased)
    case SaveDispatching => Some(Leased)
    case DoSubmit => Some(Submitting)
    case SaveOutcome => Some(Submitting)
    case SaveRecovered => Some(Submitting)
    case CallReport => Some(Reporting)
    case AwaitReport => Some(Reporting)
    case SaveDone => Some(Reporting)
    case _ => None
  }

  /** The phase the cycle itself has reached. */
  function HeldPhase(pc: Pc): Phase {
    match pc
    case SaveNew => Claiming
    case CallClaim => Claiming
    case AwaitClaim => Claiming
    case SaveReady => Leased
    case CallInspect => Leased
    case AwaitInspect => Leased
    case CheckAllowed => Leased
    case SaveDispatching => Submitting
    case DoSubmit => Submitting
    case SaveRefused => Reporting
    case SaveOutcome => Reporting
    case SaveRecovered => Reporting
    case CallReport => Reporting
    case AwaitReport => Reporting
    case _ => Done
  }

  predicate HasEntry(pc: Pc) {
    pc !in {Begin, AskReady, Stopped}
  }

  predicate BeforeSubmit(pc: Pc) {
    HasEntry(pc) && pc !in {SaveOutcome, SaveRecovered, CallReport, AwaitReport, SaveDone}
  }

  predicate HasMessage(pc: Pc) {
    HasEntry(pc) && pc !in {SaveNew, CallClaim, AwaitClaim, SaveEmpty}
  }

  /** The inspected row: this attempt holds its lifetime, and its content is the entry's. */
  ghost predicate Holds(f: Facts, host: string, l: Local)
    requires l.e.message.Some?
  {
    var m := l.e.message.value;
    && l.life in f.leases && f.leases[l.life] == (host, l.e.id)
    && l.life < |f.born| && f.born[l.life].id == m.id && f.born[l.life].thread == m.row.thread
    && f.born[l.life].prompt == m.row.prompt
  }

  ghost predicate LocalOk(f: Facts, k: nat, host: string, j: Journal, l: Local) {
    && (l.pc == AskReady ==> forall e :: e in j.pending ==> e.phase == Done)
    && (HasEntry(l.pc) ==> EntryHeld(f, k, host, j, l))
  }

  ghost predicate EntryHeld(f: Facts, k: nat, host: string, j: Journal, l: Local)
    requires HasEntry(l.pc)
  {
    && l.e.id in f.owner && f.owner[l.e.id] == k
    && OthersDone(j.pending, l.e.id)
    && l.e.phase == HeldPhase(l.pc)
    && StoredOk(j.pending, l)
    && (BeforeSubmit(l.pc) ==> !Logged(f.log, l.e.id))
    && (HasMessage(l.pc) ==> l.e.message.Some?)
    && Honest(f, l.e)
    && (l.pc in {CheckAllowed, SaveDispatching, DoSubmit} ==>
         Holds(f, host, l) && l.e.receipt.state == Uncertain && l.e.receipt.message == l.e.message.value.id)
    && (l.pc in {CheckAllowed, SaveRefused, SaveDispatching} ==> l.e.receipt.state == Uncertain)
    && (l.pc in {SaveDispatching, DoSubmit} ==> Allowed(j, l.e.message.value.row.thread))
  }

  ghost predicate StoredOk(p: seq<Entry>, l: Local)
    requires HasEntry(l.pc)
  {
    match StoredPhase(l.pc)
    case None => Find(p, l.e.id).None?
    case Some(ph) =>
      Find(p, l.e.id).Some? && Find(p, l.e.id).value.phase == ph
        && (ph == l.e.phase && l.pc != CheckAllowed ==> Find(p, l.e.id).value == l.e)
  }

  ghost predicate NodeOk(f: Facts, k: nat, n: Node) {
    && PendingOk(f, k, n.journal.pending)
    && (n.proc.Some? && n.proc.value.Receiver? ==> LocalOk(f, k, n.host, n.journal, n.proc.value.l))
    && (n.proc.Some? && n.proc.value.AutoEnroller? && n.proc.value.stage != CheckLocal ==>
          !(n.proc.value.thread in n.journal.enrolled && !n.journal.enrolled[n.proc.value.thread]))
  }

  // ---- the submission log ----

  ghost predicate SubmissionOk(f: Facts, s: Submission) {
    && s.entry in f.owner && f.owner[s.entry] == s.node
    && s.life in f.leases && f.leases[s.life].1 == s.entry
    && s.life < |f.born| && f.born[s.life].id == s.message && f.born[s.life].thread == s.thread
    && f.born[s.life].prompt == s.prompt
  }

  ghost predicate LogOk(f: Facts) {
    && (forall i :: 0 <= i < |f.log| ==> SubmissionOk(f, f.log[i]))
    && (forall i, j :: 0 <= i < j < |f.log| ==> f.log[i].entry != f.log[j].entry)
  }

  ghost predicate Inv(w: World) {
    && TablesInv(w.t)
    && (forall h :: h in w.handlers ==> HandlerOk(FactsOf(w), w.forged, w.handlers[h]))
    && (forall id :: id in w.t.messages ==> RowVouched(FactsOf(w), w.forged, id, w.t.messages[id]))
    && (forall k :: k in w.nodes ==> NodeOk(FactsOf(w), k, w.nodes[k]))
    && LogOk(FactsOf(w))
  }

  // ---- growth ----

  lemma {:induction false} VouchedGrows(log: seq<Submission>, more: seq<Submission>, message: string,
          submission: string)
    requires Vouched(log, message, submission)
    requires |log| <= |more| && forall i: nat :: i < |log| ==> more[i] == log[i]
    ensures Vouched(more, message, submission)
  {
    var i :| 0 <= i < |log| && log[i].message == message && log[i].outcome == Some(submission);
    assert more[i] == log[i];
  }

  lemma {:induction false} HandlerGrows(f: Facts, g: Facts, forged: set<(string, string)>, more: set<(string, string)>,
          h: (Call, Stage))
    requires Extends(f, g) && forged <= more && HandlerOk(f, forged, h)
    ensures HandlerOk(g, more, h)
  {
    if h.0.Report? && h.0.receipt.state == Submitted && (h.0.host, h.0.receipt.message) !in more {
      VouchedGrows(f.log, g.log, h.0.receipt.message, h.0.receipt.submission);
    }
  }

  lemma {:induction false} RowVouchedGrows(f: Facts, g: Facts, forged: set<(string, string)>,
          more: set<(string, string)>, id: string, row: Row)
    requires Extends(f, g) && forged <= more && RowVouched(f, forged, id, row)
    ensures RowVouched(g, more, id, row)
  {
    if row.state == Submitted && (row.target, id) !in more {
      VouchedGrows(f.log, g.log, id, row.submission);
    }
  }

  /** Growth that adds no submission for an entry of node `k`. */
  ghost predicate QuietFor(f: Facts, g: Facts, k: nat) {
    forall i :: |f.log| <= i < |g.log| ==> g.log[i].entry in g.owner && g.owner[g.log[i].entry] != k
  }

  lemma {:induction false} NotLoggedStays(f: Facts, g: Facts, k: nat, id: string)
    requires Extends(f, g) && QuietFor(f, g, k)
    requires id in f.owner && f.owner[id] == k && !Logged(f.log, id)
    ensures !Logged(g.log, id)
  {
  }

  lemma {:induction false} HonestGrows(f: Facts, g: Facts, e: Entry)
    requires Extends(f, g) && Honest(f, e)
    ensures Honest(g, e)
  {
    if e.receipt.state == Submitted {
      VouchedGrows(f.log, g.log, e.receipt.message, e.receipt.submission);
    }
  }

  lemma {:induction false} EntryGrows(f: Facts, g: Facts, k: nat, e: Entry)
    requires Extends(f, g) && QuietFor(f, g, k) && EntryOk(f, k, e)
    ensures EntryOk(g, k, e)
  {
    HonestGrows(f, g, e);
    if e.phase in {Claiming, Leased} { NotLoggedStays(f, g, k, e.id); }
  }

  lemma {:induction false} PendingGrows(f: Facts, g: Facts, k: nat, p: seq<Entry>)
    requires Extends(f, g) && QuietFor(f, g, k) && PendingOk(f, k, p)
    ensures PendingOk(g, k, p)
  {
    forall e | e in p ensures EntryOk(g, k, e) { EntryGrows(f, g, k, e); }
  }

  lemma {:induction false} LocalGrows(f: Facts, g: Facts, k: nat, host: string, j: Journal, l: Local)
    requires Extends(f, g) && QuietFor(f, g, k) && LocalOk(f, k, host, j, l)
    ensures LocalOk(g, k, host, j, l)
  {
    if HasEntry(l.pc) {
      HonestGrows(f, g, l.e);
      if BeforeSubmit(l.pc) { NotLoggedStays(f, g, k, l.e.id); }
    }
  }

  lemma {:induction false} NodeGrows(f: Facts, g: Facts, k: nat, n: Node)
    requires Extends(f, g) && QuietFor(f, g, k) && NodeOk(f, k, n)
    ensures NodeOk(g, k, n)
  {
    PendingGrows(f, g, k, n.journal.pending);
    if n.proc.Some? && n.proc.value.Receiver? { LocalGrows(f, g, k, n.host, n.journal, n.proc.value.l); }
  }

  lemma {:induction false} LogGrows(f: Facts, g: Facts)
    requires Extends(f, g) && g.log == f.log && LogOk(f)
    ensures LogOk(g)
  {
    forall i | 0 <= i < |g.log| ensures SubmissionOk(g, g.log[i]) { assert SubmissionOk(f, f.log[i]); }
  }

  lemma {:induction false} ExtendsReflexive(f: Facts)
    ensures Extends(f, f)
  {
  }
}
