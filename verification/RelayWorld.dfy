/** Coordinator, receiving hosts and everything that can happen between their steps: other clients, lost requests
    and responses, saves that fail or fail ambiguously, process deaths, retention, enrolment changes. */
module RelayWorld {
  import opened Basics
  import opened RelayTables
  import opened RelayHandlers
  import opened RelayRunner

  /** Session-start enrolment after its local check, and manual registration. */
  datatype EnrolStage = CheckLocal | Scanning | Revoking | Calling | Writing(enabled: bool)

  datatype Proc =
    | Receiver(l: Local)
    | AutoEnroller(thread: string, stage: EnrolStage)
    | Registrar(thread: string, enabled: bool, stage: EnrolStage)

  /** One journal and the process that holds its lock. Several nodes may run for one host. */
  datatype Node = Node(host: string, journal: Journal, proc: Option<Proc>)

  /** A call to `Queue.Submit`, with what it returned. */
  datatype Submission = Submission(node: nat, entry: string, life: nat, message: string, thread: string, prompt: string,
                                   outcome: Option<string>)

  /** `owner`, `log` and `forged` are history: who minted an entry ID, every submission, and for which messages a client
      of which host, other than the receivers, claimed a submission. */
  datatype World = World(t: Tables, q: Quota, handlers: map<nat, (Call, Stage)>, nodes: map<nat, Node>,
                         log: seq<Submission>, owner: map<string, nat>, forged: set<(string, string)>)

  datatype Event =
    | Arrive(hid: nat, call: Call)
    | Handle(hid: nat)
    | Retain(cutoff: int)
    | Open(node: nat, proc: Proc)
    | Exit(node: nat)
    | Cycle(node: nat, answer: Answer, minted: string, hid: nat, now: int)
    | Enrol(node: nat, answer: Answer, found: Option<bool>)

  predicate ClaimsSubmission(c: Call) {
    c.Report? && c.receipt.state == Submitted
  }

  /** Processes start at their first program point, and only when nobody holds the lock. */
  predicate CanOpen(p: Proc) {
    match p
    case Receiver(l) => l == START
    case AutoEnroller(_, s) => s == CheckLocal
    case Registrar(_, enabled, s) => s == if enabled then Calling else Revoking
  }

  /** The request an awaiting cycle sent has been answered with `r`. */
  predicate AnsweredWith(w: World, hid: nat, r: Response) {
    hid in w.handlers && w.handlers[hid].1 == Answered(r)
  }

  /** What the environment may answer at a program point. */
  predicate AnswerFits(w: World, l: Local, a: Answer, minted: string, hid: nat) {
    match l.pc
    case AskReady => (a.Told? ==> a.response.IsReady?) && minted !in w.owner
    case CallClaim => hid !in w.handlers
    case CallInspect => hid !in w.handlers
    case CallReport => hid !in w.handlers
    case AwaitClaim => a == Failed || (a.Told? && AnsweredWith(w, l.call, a.response))
    case AwaitInspect => a == Failed || (a.Told? && AnsweredWith(w, l.call, a.response))
    case AwaitReport => a == Failed || (a.Told? && AnsweredWith(w, l.call, a.response))
    case _ => true
  }

  predicate Enabled(w: World, ev: Event) {
    match ev
    case Arrive(hid, call) => hid !in w.handlers && IsHost(call.host)
    case Handle(hid) => hid in w.handlers
    case Retain(_) => true
    case Open(k, p) => k in w.nodes && w.nodes[k].proc == None && CanOpen(p)
    case Exit(k) => k in w.nodes
    case Cycle(k, a, minted, hid, _) =>
      k in w.nodes && w.nodes[k].proc.Some? && w.nodes[k].proc.value.Receiver?
      && AnswerFits(w, w.nodes[k].proc.value.l, a, minted, hid)
    case Enrol(k, _, _) => k in w.nodes && w.nodes[k].proc.Some? && !w.nodes[k].proc.value.Receiver?
  }

  // ---- receiver steps ----

  /** The request sent at a call point. */
  function Request(host: string, l: Local, now: int): Option<Call> {
    match l.pc
    case CallClaim => Some(Call.Claim(host, l.e.id, now))
    case CallInspect => if l.e.message.Some? then Some(Call.Inspect(host, l.e.message.value.id)) else None
    case CallReport => Some(Call.Report(host, l.e.receipt, now))
    case _ => None
  }

  /** What counts as the outcome of a submission: the ID it returned, if that is one. */
  function ValidSubmission(a: Answer): Option<string> {
    if a.Returned? && a.submission.Some? && IsUuid(a.submission.value) then a.submission else None
  }

  function LogAfter(w: World, k: nat, l: Local, a: Answer): seq<Submission> {
    if l.pc == DoSubmit && l.e.message.Some? then
      var m := l.e.message.value;
      w.log + [Submission(k, l.e.id, l.life, m.id, m.row.thread, m.row.prompt, ValidSubmission(a))]
    else w.log
  }

  function CycleStep(w: World, k: nat, a: Answer, minted: string, hid: nat, now: int): World
    requires k in w.nodes && w.nodes[k].proc.Some? && w.nodes[k].proc.value.Receiver?
  {
    var n := w.nodes[k];
    var l := n.proc.value.l;
    var next := Advance(n.host, l, n.journal, a, minted);
    var request := Request(n.host, l, now);
    var l' := if request.Some? then next.(call := hid) else next;
    w.(nodes := w.nodes[k := Node(n.host, JournalAfter(l, n.journal, a), Some(Receiver(l')))],
       handlers := if request.Some? then w.handlers[hid := (request.value, Arrived)] else w.handlers,
       log := LogAfter(w, k, l, a),
       owner := if l'.pc == SaveNew && l.pc == AskReady then w.owner[minted := k] else w.owner)
  }

  // ---- enrolment steps ----

  /** A local write of the enrolment row that may fail, before or after reaching the disk. */
  function Write(n: Node, thread: string, enabled: bool, a: Answer, after: Option<Proc>): Node {
    Node(n.host,
         if a in {Saved(Stored), Saved(StoredButFailed)} then RelayRunner.Enroll(n.journal, thread, enabled)
         else n.journal,
         if a == Saved(Stored) then after else None)
  }

  /** `found` is what the central scan and registration ended in: disabled, enabled, or an error. */
  function EnrolStep(n: Node, a: Answer, found: Option<bool>): Node
    requires n.proc.Some? && !n.proc.value.Receiver?
  {
    match n.proc.value
    case AutoEnroller(thread, CheckLocal) =>
      if a != Proceed || (thread in n.journal.enrolled && !n.journal.enrolled[thread]) then n.(proc := None)
      else n.(proc := Some(AutoEnroller(thread, Scanning)))
    case AutoEnroller(thread, Scanning) =>
      (match found
       case None => n.(proc := None)
       case Some(enabled) => n.(proc := Some(AutoEnroller(thread, Writing(enabled)))))
    case AutoEnroller(thread, Writing(enabled)) => Write(n, thread, enabled, a, None)
    case Registrar(thread, enabled, Revoking) => Write(n, thread, false, a, Some(Registrar(thread, enabled, Calling)))
    case Registrar(thread, enabled, Calling) =>
      if a.Told? && a.response.Registered? then n.(proc := Some(Registrar(thread, enabled, Writing(enabled))))
      else n.(proc := None)
    case Registrar(thread, enabled, Writing(_)) => Write(n, thread, enabled, a, None)
    case _ => n.(proc := None)
  }

  // ---- the machine ----

  ghost function Apply(w: World, ev: Event): World
    requires Enabled(w, ev)
  {
    match ev
    case Arrive(hid, call) =>
      w.(handlers := w.handlers[hid := (call, Arrived)],
         forged := if ClaimsSubmission(call) then w.forged + {(call.host, call.receipt.message)} else w.forged)
    case Handle(hid) =>
      var r := Step(w.t, w.q, w.handlers[hid].0, w.handlers[hid].1);
      w.(t := r.0, handlers := w.handlers[hid := (w.handlers[hid].0, r.1)])
    case Retain(cutoff) => w.(t := Compact(w.t, cutoff))
    case Open(k, p) => w.(nodes := w.nodes[k := w.nodes[k].(proc := Some(p))])
    case Exit(k) => w.(nodes := w.nodes[k := w.nodes[k].(proc := None)])
    case Cycle(k, a, minted, hid, now) => CycleStep(w, k, a, minted, hid, now)
    case Enrol(k, a, found) => w.(nodes := w.nodes[k := EnrolStep(w.nodes[k], a, found)])
  }

  /** Empty tables, empty journals, nobody running. */
  ghost predicate Initial(w: World) {
    && w.t == EMPTY_TABLES && w.handlers == map[] && w.log == [] && w.owner == map[] && w.forged == {}
    && forall k :: k in w.nodes ==>
         IsHost(w.nodes[k].host) && w.nodes[k].journal == Journal(map[], []) && w.nodes[k].proc == None
  }

  ghost predicate IsRun(ws: seq<World>, evs: seq<Event>) {
    && |ws| == |evs| + 1
    && forall i {:trigger evs[i]} :: 0 <= i < |evs| ==> Enabled(ws[i], evs[i]) && ws[i + 1] == Apply(ws[i], evs[i])
  }
}
