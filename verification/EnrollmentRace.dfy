/** Session-start enrolment while others write: which central revocations its scan sees, which survive, and a run in
    which one does not. */
module EnrollmentRace {
  import opened Basics
  import opened RelayTables
  import opened RelayHandlers
  import opened RelayRunner
  import opened RelayWorld
  import opened RelayProgress
  import opened RelayService
  import opened RelayEnrollment
  import opened RelayDelivery
  import opened RelayExceptions

  // ---- the scan ----

  /** The pages of one scan, each answered from the tasks of its own moment. */
  ghost predicate IsScan(ts: seq<map<(string, string), Task>>, host: string, cursors: seq<string>,
          pages: seq<seq<(string, Task)>>) {
    && |cursors| == |ts| + 1 && |pages| == |ts| && cursors[0] == ""
    && forall i {:trigger pages[i]} :: 0 <= i < |ts| ==> IsTaskPage(ts[i], host, cursors[i], pages[i], cursors[i + 1])
  }

  predicate Shows(page: seq<(string, Task)>, thread: string) {
    exists i :: 0 <= i < |page| && page[i].0 == thread
  }

  lemma {:induction false} StillAhead(ts: seq<map<(string, string), Task>>, host: string, cursors: seq<string>,
          pages: seq<seq<(string, Task)>>, thread: string, n: nat)
    requires IsScan(ts, host, cursors, pages) && n <= |ts| && thread != ""
    requires forall i :: 0 <= i < n ==> (host, thread) in ts[i]
    requires forall i {:trigger pages[i]} :: 0 <= i < n ==> !Shows(pages[i], thread)
    ensures Less(cursors[n], thread) && (n > 0 ==> cursors[n] != "")
  {
    if n > 0 {
      StillAhead(ts, host, cursors, pages, thread, n - 1);
      assert !Shows(pages[n - 1], thread);
      PageCovers(ts[n - 1], host, cursors[n - 1], pages[n - 1], cursors[n], thread);
    }
  }

  /** A scan read to its end sees every thread that is listed all along, whatever else is registered meanwhile. */
  lemma {:induction false} ListedIsSeen(ts: seq<map<(string, string), Task>>, host: string, cursors: seq<string>,
          pages: seq<seq<(string, Task)>>, thread: string) returns (i: nat)
    requires IsScan(ts, host, cursors, pages) && ts != [] && cursors[|ts|] == "" && thread != ""
    requires forall i :: 0 <= i < |ts| ==> (host, thread) in ts[i]
    ensures i < |ts| && (thread, ts[i][(host, thread)]) in pages[i]
  {
    if forall n {:trigger pages[n]} :: 0 <= n < |ts| ==> !Shows(pages[n], thread) {
      StillAhead(ts, host, cursors, pages, thread, |ts|);
    }
    i :| 0 <= i < |ts| && Shows(pages[i], thread);
    var x :| 0 <= x < |pages[i]| && pages[i][x].0 == thread;
    assert IsTaskPage(ts[i], host, cursors[i], pages[i], cursors[i + 1]);
    assert pages[i][x] == (thread, ts[i][(host, thread)]);
  }

  // ---- the registration ----

  /** What the coordinator holds after an enrolment whose scan did or did not see the thread. */
  ghost function AfterEnrolment(seen: bool, t: Tables, q: Quota, host: string, thread: string, now: int): Tables {
    if seen then t else RunCall(t, q, Call.Register(host, thread, TITLE + thread, true, now)).0
  }

  /** A central revocation survives exactly when the scan saw the thread: the registration that follows a scan in vain
      enables whatever row it meets. */
  lemma {:induction false} RevocationSurvivesIff(seen: bool, t: Tables, q: Quota, host: string, thread: string,
          now: int)
    requires IsUuid(thread) && (host, thread) in t.tasks && !t.tasks[(host, thread)].enabled
    ensures !Enrolled(AfterEnrolment(seen, t, q, host, thread, now), host, thread) <==> seen
  {
    TitleFits(thread);
    RunRegister(t, q, host, thread, TITLE + thread, true, now);
  }

  // ---- a run that loses one ----

  function Disabled(n: Node, thread: string): Node {
    n.(journal := RelayRunner.Enroll(n.journal, thread, false))
  }

  lemma {:induction false} StartsRevoking(w: World, m: nat, thread: string) returns (u: World)
    requires m in w.nodes && w.nodes[m].proc == None
    ensures Leads(w, u)
    ensures var n := Disabled(w.nodes[m], thread);
            u == w.(nodes := w.nodes[m := n.(proc := Some(Registrar(thread, false, Calling)))])
  {
    var open, write := Open(m, Registrar(thread, false, Revoking)), Enrol(m, Saved(Stored), None);
    var starting := Apply(w, open);
    u := Apply(starting, write);
    LeadsByOne(w, open);
    LeadsByOne(starting, write);
    LeadsOn(w, starting, u);
  }

  lemma {:induction false} EndsRevoking(w: World, m: nat, thread: string) returns (u: World)
    requires m in w.nodes && w.nodes[m].proc == Some(Registrar(thread, false, Calling))
    requires thread in w.nodes[m].journal.enrolled && !w.nodes[m].journal.enrolled[thread]
    ensures Leads(w, u) && u == w.(nodes := w.nodes[m := w.nodes[m].(proc := None)])
  {
    var hear, write := Enrol(m, Told(Registered), None), Enrol(m, Saved(Stored), None);
    var heard := Apply(w, hear);
    u := Apply(heard, write);
    LeadsByOne(w, hear);
    LeadsByOne(heard, write);
    LeadsOn(w, heard, u);
    assert w.nodes[m].journal.enrolled[thread := false] == w.nodes[m].journal.enrolled;
  }

  /** An operator revokes the thread on another journal of the host, `--disabled`: locally, centrally, locally again. */
  lemma {:induction false} Revokes(w: World, m: nat, thread: string, title: string, now: int) returns (u: World)
    requires m in w.nodes && w.nodes[m].proc == None && IsHost(w.nodes[m].host) && IsUuid(thread) && IsText(title, 200)
    requires w.t.tasks == map[] && w.q.tasksPerHost > 0
    ensures Leads(w, u) && u.q == w.q && u.nodes == w.nodes[m := Disabled(w.nodes[m], thread)]
    ensures u.t.tasks == map[(w.nodes[m].host, thread) := Task(title, false, now)]
  {
    var host := w.nodes[m].host;
    var begun := StartsRevoking(w, m, thread);
    var told := Calls(begun, Call.Register(host, thread, title, false, now));
    RunRegister(begun.t, begun.q, host, thread, title, false, now);
    assert HostTasks(begun.t, host) == {};
    u := EndsRevoking(told, m, thread);
    LeadsOn(w, begun, told);
    LeadsOn(w, told, u);
  }

  /** The enrolment that scanned in vain registers, and writes what it was told. */
  lemma {:induction false} Registers(w: World, k: nat, thread: string, now: int) returns (u: World)
    requires k in w.nodes && w.nodes[k].proc == Some(AutoEnroller(thread, Scanning)) && IsHost(w.nodes[k].host)
    requires IsUuid(thread) && (w.nodes[k].host, thread) in w.t.tasks
    ensures Leads(w, u) && u.t == AfterEnrolment(false, w.t, w.q, w.nodes[k].host, thread, now)
    ensures u.nodes == w.nodes[k := Node(w.nodes[k].host, RelayRunner.Enroll(w.nodes[k].journal, thread, true), None)]
    ensures Enrolled(u.t, w.nodes[k].host, thread)
  {
    var host := w.nodes[k].host;
    TitleFits(thread);
    RunRegister(w.t, w.q, host, thread, TITLE + thread, true, now);
    var told := Calls(w, Call.Register(host, thread, TITLE + thread, true, now));
    var heard := Apply(told, Enrol(k, Proceed, Some(true)));
    u := Apply(heard, Enrol(k, Saved(Stored), None));
    LeadsByOne(told, Enrol(k, Proceed, Some(true)));
    LeadsByOne(heard, Enrol(k, Saved(Stored), None));
    LeadsOn(w, told, heard);
    LeadsOn(w, heard, u);
  }

  /** Two journals of one host: one finishes its scan of an empty listing, the other revokes the thread, locally and
      centrally, and the first registers. The revocation is gone from the coordinator, and the first journal
      delivers. */
  lemma {:induction false} RevocationIsLost(w: World, k: nat, m: nat, thread: string, title: string, now: int)
    returns (scanned: World, revoked: World, u: World)
    requires Initial(w) && k in w.nodes && m in w.nodes && k != m && w.nodes[k].host == w.nodes[m].host
    requires IsUuid(thread) && IsText(title, 200) && w.q.tasksPerHost > 0
    ensures Leads(w, scanned) && Leads(scanned, revoked) && Leads(revoked, u) && {k, m} <= u.nodes.Keys
    ensures {k, m} <= scanned.nodes.Keys && scanned.nodes[k].proc == Some(AutoEnroller(thread, Scanning))
    ensures scanned.t.tasks == map[]
    ensures revoked.t.tasks == map[(w.nodes[k].host, thread) := Task(title, false, now)]
    ensures Enrolled(u.t, w.nodes[k].host, thread) && RelayRunner.Allowed(u.nodes[k].journal, thread)
    ensures thread in u.nodes[m].journal.enrolled && !u.nodes[m].journal.enrolled[thread]
  {
    var starting := Apply(w, Open(k, AutoEnroller(thread, CheckLocal)));
    scanned := Apply(starting, Enrol(k, Proceed, None));
    LeadsByOne(w, Open(k, AutoEnroller(thread, CheckLocal)));
    LeadsByOne(starting, Enrol(k, Proceed, None));
    LeadsOn(w, starting, scanned);
    revoked := Revokes(scanned, m, thread, title, now);
    u := Registers(revoked, k, thread, now);
  }
}
