/** The receiving host: its durable journal and one delivery/recovery cycle, cut at every effect. */
module RelayRunner {
  import opened Basics
  import opened RelayTables
  import opened RelayHandlers

  /** Journal phases `claiming`, `ready`, `dispatching`, `reporting` and `done`. */
  datatype Phase = Claiming | Leased | Submitting | Reporting | Done

  datatype Entry = Entry(id: string, phase: Phase, message: Option<View>, receipt: ReceiptBody)

  datatype Journal = Journal(enrolled: map<string, bool>, pending: seq<Entry>)

  const NO_RECEIPT := ReceiptBody("", "", Queued, "", "")

  const RESTARTED := "host restarted after submission began; inspect destination before any resend"
  const NOT_ENABLED := "destination task is not enabled in this host's local enrollment"
  const UNCERTAIN :=
    "Codex submission outcome uncertain; inspect destination and local process status before any resend"

  // ---- journal rows ----

  /** The oldest row that is not done. */
  function Next(p: seq<Entry>): Option<Entry> {
    if p == [] then None else if p[0].phase != Done then Some(p[0]) else Next(p[1..])
  }

  /** Insert, or replace in place on the same ID. */
  function Save(p: seq<Entry>, e: Entry): seq<Entry> {
    if p == [] then [e]
    else if p[0].id == e.id then [e] + p[1..]
    else [p[0]] + Save(p[1..], e)
  }

  function Find(p: seq<Entry>, id: string): Option<Entry> {
    if p == [] then None else if p[0].id == id then Some(p[0]) else Find(p[1..], id)
  }

  predicate Allowed(j: Journal, thread: string) {
    thread in j.enrolled && j.enrolled[thread]
  }

  function Enroll(j: Journal, thread: string, enabled: bool): Journal {
    j.(enrolled := j.enrolled[thread := enabled])
  }

  // ---- program points of one cycle, each just before an effect ----

  datatype Pc =
    | Begin | AskReady
    | SaveNew | CallClaim | AwaitClaim | SaveEmpty | SaveReady
    | CallInspect | AwaitInspect | SaveSkip
    | CheckAllowed | SaveRefused | SaveDispatching | DoSubmit | SaveOutcome
    | SaveRecovered
    | CallReport | AwaitReport | SaveDone
    | Stopped

  /** `call` names the request in flight; `life` is the row lifetime last inspected (for the proofs only). */
  datatype Local = Local(pc: Pc, e: Entry, call: nat, life: nat)

  /** A save that reports an error may or may not have reached the disk. */
  datatype SaveResult = Stored | StoredButFailed | NotStored

  datatype Answer =
    | Proceed
    | Failed
    | Told(response: Response)
    | Saved(result: SaveResult)
    | Returned(submission: Option<string>)

  predicate ClaimMatches(host: string, e: Entry, m: View) {
    m.row.target == host && m.row.attempt == e.id && IsUuid(m.row.thread) && m.id != ""
      && Utf8Len(m.row.prompt) <= 16384
  }

  predicate StillMine(host: string, e: Entry, current: View)
    requires e.message.Some?
  {
    var m := e.message.value;
    current.id == m.id && current.row.thread == m.row.thread && current.row.target == host
    && current.row.attempt == e.id && current.row.prompt == m.row.prompt
  }

  function Stop(l: Local): Local {
    l.(pc := Stopped)
  }

  function UncertainReceipt(minted: string, e: Entry, evidence: string): ReceiptBody
    requires e.message.Some?
  {
    ReceiptBody(minted, e.message.value.id, Uncertain, "", evidence)
  }

  function Resume(l: Local, e: Entry, minted: string): Local {
    match e.phase
    case Claiming => l.(pc := CallClaim, e := e)
    case Leased => l.(pc := CallInspect, e := e)
    case Submitting =>
      if e.message.None? then Stop(l)
      else l.(pc := SaveRecovered, e := e.(phase := Reporting, receipt := UncertainReceipt(minted, e, RESTARTED)))
    case Reporting => l.(pc := CallReport, e := e)
    case Done => Stop(l)
  }

  predicate IsSave(pc: Pc) {
    pc in {SaveNew, SaveEmpty, SaveReady, SaveSkip, SaveRefused, SaveDispatching, SaveOutcome, SaveRecovered, SaveDone}
  }

  function AfterSave(pc: Pc): Pc {
    match pc
    case SaveNew => CallClaim
    case SaveReady => CallInspect
    case SaveDispatching => DoSubmit
    case SaveRefused => CallReport
    case SaveOutcome => CallReport
    case SaveRecovered => CallReport
    case _ => Stopped
  }

  function BeginStep(l: Local, p: seq<Entry>, a: Answer, minted: string): Local {
    if a != Proceed then Stop(l)
    else match Next(p)
         case Some(e) => Resume(l, e, minted)
         case None => l.(pc := AskReady)
  }

  function ReadyAnswer(l: Local, a: Answer, minted: string): Local {
    if a == Told(IsReady(true)) then l.(pc := SaveNew, e := Entry(minted, Claiming, None, NO_RECEIPT)) else Stop(l)
  }

  function ClaimAnswer(host: string, l: Local, a: Answer): Local {
    if a.Told? && a.response.Delivered? then
      match a.response.message
      case None => l.(pc := SaveEmpty, e := l.e.(message := None, phase := Done))
      case Some(m) =>
        if ClaimMatches(host, l.e, m) then l.(pc := SaveReady, e := l.e.(message := Some(m), phase := Leased))
        else Stop(l)
    else Stop(l)
  }

  function InspectAnswer(host: string, l: Local, a: Answer, minted: string): Local {
    if a.Told? && a.response.Shown? && l.e.message.Some? && StillMine(host, l.e, a.response.view) then
      match a.response.view.row.state
      case Dispatching =>
        l.(pc := CheckAllowed, e := l.e.(receipt := UncertainReceipt(minted, l.e, "")),
          life := a.response.view.row.life)
      case Queued => Stop(l)
      case _ => l.(pc := SaveSkip, e := l.e.(phase := Done))
    else Stop(l)
  }

  function AllowedStep(l: Local, j: Journal, a: Answer): Local {
    if l.e.message.Some? && a == Proceed && Allowed(j, l.e.message.value.row.thread)
    then l.(pc := SaveDispatching, e := l.e.(phase := Submitting))
    else l.(pc := SaveRefused, e := l.e.(phase := Reporting, receipt := l.e.receipt.(evidence := NOT_ENABLED)))
  }

  function SubmitAnswer(l: Local, submission: Option<string>): Local {
    var r := l.e.receipt;
    var receipt := if submission.Some? && IsUuid(submission.value)
                   then r.(state := Submitted, submission := submission.value)
                   else r.(evidence := UNCERTAIN);
    l.(pc := SaveOutcome, e := l.e.(phase := Reporting, receipt := receipt))
  }

  function ReportAnswer(l: Local, a: Answer): Local {
    if a.Told? && a.response.Receipted? then l.(pc := SaveDone, e := l.e.(phase := Done)) else Stop(l)
  }

  /** The cycle's next program point and entry, given what the environment answered. */
  function Advance(host: string, l: Local, j: Journal, a: Answer, minted: string): Local {
    match l.pc
    case Begin => BeginStep(l, j.pending, a, minted)
    case AskReady => ReadyAnswer(l, a, minted)
    case CallClaim => l.(pc := AwaitClaim)
    case AwaitClaim => ClaimAnswer(host, l, a)
    case CallInspect => if l.e.message.Some? then l.(pc := AwaitInspect) else Stop(l)
    case AwaitInspect => InspectAnswer(host, l, a, minted)
    case CheckAllowed => AllowedStep(l, j, a)
    case DoSubmit => SubmitAnswer(l, if a.Returned? then a.submission else None)
    case CallReport => l.(pc := AwaitReport)
    case AwaitReport => ReportAnswer(l, a)
    case Stopped => l
    case _ => if a == Saved(Stored) then l.(pc := AfterSave(l.pc)) else Stop(l)
  }

  /** Only saves change the journal, and only when they reach the disk. */
  function JournalAfter(l: Local, j: Journal, a: Answer): Journal {
    if IsSave(l.pc) && a in {Saved(Stored), Saved(StoredButFailed)} then j.(pending := Save(j.pending, l.e)) else j
  }

  const START := Local(Begin, Entry("", Done, None, NO_RECEIPT), 0, 0)

  // ---- facts about journal rows ----

  ghost predicate Distinct(p: seq<Entry>) {
    forall i, j :: 0 <= i < j < |p| ==> p[i].id != p[j].id
  }

  ghost predicate OthersDone(p: seq<Entry>, id: string) {
    forall e :: e in p && e.id != id ==> e.phase == Done
  }

  ghost predicate OneOpen(p: seq<Entry>) {
    forall e, f :: e in p && f in p && e.phase != Done && f.phase != Done ==> e.id == f.id
  }

  lemma {:induction false} SaveFind(p: seq<Entry>, e: Entry, id: string)
    ensures Find(Save(p, e), id) == if id == e.id then Some(e) else Find(p, id)
  {
    if p != [] && p[0].id != e.id {
      SaveFind(p[1..], e, id);
      assert Save(p, e)[1..] == Save(p[1..], e);
    }
  }

  lemma {:induction false} SaveMembers(p: seq<Entry>, e: Entry)
    ensures forall x :: x in Save(p, e) ==> x == e || x in p
  {
    if p != [] && p[0].id != e.id {
      SaveMembers(p[1..], e);
      assert p == [p[0]] + p[1..];
    }
  }

  lemma {:induction false} SaveDistinct(p: seq<Entry>, e: Entry)
    requires Distinct(p)
    ensures Distinct(Save(p, e))
    ensures forall x :: x in Save(p, e) && x.id == e.id ==> x == e
  {
    if p != [] {
      forall i, j | 0 <= i < j < |p[1..]| ensures p[1..][i].id != p[1..][j].id {
        assert p[1..][i] == p[i + 1] && p[1..][j] == p[j + 1];
      }
      if p[0].id != e.id {
        SaveDistinct(p[1..], e);
        SaveMembers(p[1..], e);
        forall x | x in Save(p[1..], e) ensures x.id != p[0].id {
          if x in p[1..] {
            var i :| 0 <= i < |p[1..]| && p[1..][i] == x;
            assert p[i + 1] == x;
          }
        }
      }
    }
  }

  lemma {:induction false} FindIsMember(p: seq<Entry>, id: string)
    ensures Find(p, id).Some? ==> Find(p, id).value in p && Find(p, id).value.id == id
    ensures Find(p, id).None? ==> forall e :: e in p ==> e.id != id
  {
    if p != [] {
      FindIsMember(p[1..], id);
      assert p == [p[0]] + p[1..];
    }
  }

  /** The entry at this place is open and every earlier row is done. */
  predicate FirstOpenAt(p: seq<Entry>, i: nat) {
    i < |p| && p[i].phase != Done && forall j :: 0 <= j < i ==> p[j].phase == Done
  }

  lemma {:induction false} NextIsAt(p: seq<Entry>) returns (i: nat)
    requires Next(p).Some?
    ensures FirstOpenAt(p, i) && Next(p) == Some(p[i])
  {
    if p[0].phase != Done {
      i := 0;
    } else {
      var k := NextIsAt(p[1..]);
      i := k + 1;
      forall j | 0 <= j < i ensures p[j].phase == Done {
        if j > 0 { assert p[1..][j - 1] == p[j]; }
      }
    }
  }

  lemma {:induction false} NoneIsOpen(p: seq<Entry>)
    requires Next(p).None?
    ensures forall e :: e in p ==> e.phase == Done
  {
    if p != [] {
      NoneIsOpen(p[1..]);
      assert p == [p[0]] + p[1..];
    }
  }

  lemma {:induction false} FindAt(p: seq<Entry>, i: nat)
    requires Distinct(p) && i < |p|
    ensures Find(p, p[i].id) == Some(p[i])
  {
    if i > 0 {
      var rest := p[1..];
      assert p[0].id != p[i].id && rest[i - 1] == p[i];
      forall a, b | 0 <= a < b < |rest| ensures rest[a].id != rest[b].id {
        assert rest[a] == p[a + 1] && rest[b] == p[b + 1];
      }
      FindAt(rest, i - 1);
    }
  }

  /** The next entry is the oldest open row: it is open, every earlier row is done, and there is none iff all are
      done. */
  lemma {:induction false} NextIsFirstOpen(p: seq<Entry>)
    requires Distinct(p)
    ensures Next(p).Some? ==> exists i: nat :: FirstOpenAt(p, i) && Next(p) == Some(p[i])
    ensures Next(p).Some? ==>
              Next(p).value in p && Next(p).value.phase != Done && Find(p, Next(p).value.id) == Next(p)
    ensures Next(p).None? <==> forall e :: e in p ==> e.phase == Done
  {
    if Next(p).Some? {
      var i := NextIsAt(p);
      FindAt(p, i);
    } else {
      NoneIsOpen(p);
    }
  }
}
