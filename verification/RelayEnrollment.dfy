/** Session-start enrolment against the live coordinator: scan every page of this host's tasks, never reverse a
    revocation, register only what nobody has registered. */
module RelayEnrollment {
  import opened Basics
  import opened Listing
  import opened RelayTables
  import opened RelayHandlers
  import opened RelayRunner
  import opened RelayService
  import opened RelayReceiver

  datatype Outcome =
    | IsEnrolled
    | IsRevoked
    | IsDisabled     // the policy turns automatic enrolment off
    | BadPolicy      // "enrollment policy does not match this host and OS user"
    | BadEvent       // "invalid enrollment event"
    | Unreached      // a request or a response was lost, or the listing was refused
    | Unwritten      // the local write reported an error
    | Unreadable     // the local row could not be read
    | BadCursor      // "invalid enrollment pagination cursor"
    | Rejected       // the coordinator refused the registration

  // ---- pages ----

  /** A thread above the cursor is on the page, or above the page's last thread. */
  lemma {:induction false} PageCovers(tasks: map<(string, string), Task>, host: string, cursor: string,
          page: seq<(string, Task)>, next: string, thread: string)
    requires IsTaskPage(tasks, host, cursor, page, next)
    requires (host, thread) in tasks && Less(cursor, thread)
    requires forall i :: 0 <= i < |page| ==> page[i].0 != thread
    ensures next != "" && Less(next, thread)
  {
    var rows := PageRows(tasks, host, cursor);
    forall i | 0 <= i < |rows| && i < 100 ensures rows[i] != thread {
      assert page[i].0 == rows[i];
    }
    assert thread in ThreadsAfter(tasks, host, cursor);
    RowsCover(tasks, host, cursor, rows, thread);
  }

  lemma {:induction false} RowsCover(tasks: map<(string, string), Task>, host: string, cursor: string,
          rows: seq<string>, thread: string)
    requires rows == PageRows(tasks, host, cursor) && thread in ThreadsAfter(tasks, host, cursor)
    requires forall i :: 0 <= i < |rows| && i < 100 ==> rows[i] != thread
    ensures |rows| == 101 && Less(rows[99], thread)
  {
    LessIsStrict();
    PageCut(Less, ThreadsAfter(tasks, host, cursor), 100, rows, thread);
  }

  /** The next cursor is a listed thread beyond the current one. */
  lemma {:induction false} CursorMoves(tasks: map<(string, string), Task>, host: string, cursor: string,
          page: seq<(string, Task)>, next: string)
    requires IsTaskPage(tasks, host, cursor, page, next) && next != ""
    ensures (host, next) in tasks && Less(cursor, next)
    ensures ThreadsAfter(tasks, host, next) < ThreadsAfter(tasks, host, cursor)
  {
    assert next in PageRows(tasks, host, cursor);
    assert next in ThreadsAfter(tasks, host, cursor);
    LessIrreflexive(next);
    assert next !in ThreadsAfter(tasks, host, next);
    forall x | x in ThreadsAfter(tasks, host, next) ensures x in ThreadsAfter(tasks, host, cursor) {
      LessTransitive(cursor, next, x);
    }
  }

  const TITLE := "Codex task "

  lemma {:induction false} TitleFits(thread: string)
    requires IsUuid(thread)
    ensures IsText(TITLE + thread, 200)
  {
    Utf8Bound(TITLE + thread);
  }

  /** This host's row for the thread, if the page shows it. */
  method FindOnPage(page: seq<(string, Task)>, thread: string) returns (found: Option<Task>)
    ensures found.Some? ==> exists i :: 0 <= i < |page| && page[i] == (thread, found.value)
    ensures found.None? ==> forall i :: 0 <= i < |page| ==> page[i].0 != thread
  {
    for i := 0 to |page|
      invariant forall k :: 0 <= k < i ==> page[k].0 != thread
    {
      if page[i].0 == thread {
        assert page[i] == (thread, page[i].1);
        return Some(page[i].1);
      }
    }
    return None;
  }

  /** Read all central pages until the thread shows up or the listing ends. Either may be cut short by a lost
      request. */
  method ScanCentral(c: Coordinator, host: string, thread: string) returns (found: Option<Task>, error: Option<Outcome>)
    requires c.Valid() && thread != ""
    ensures error.None? ==> (found.Some? <==> (host, thread) in c.tasks)
    ensures error.None? && found.Some? ==> found.value == c.tasks[(host, thread)]
    ensures error.Some? ==> error.value == Unreached
  {
    var cursor, seen := "", {};
    while true
      invariant (host, thread) in c.tasks ==> Less(cursor, thread)
      invariant forall x :: x in seen ==> x == cursor || Less(x, cursor)
      decreases ThreadsAfter(c.tasks, host, cursor)
    {
      var reached: bool := *;
      if !reached {
        return None, Some(Unreached);
      }
      var listed := c.ListTasks(host, cursor);
      if listed == Malformed {
        return None, Some(Unreached);
      }
      var page, next := listed.rows, listed.next;
      found := FindOnPage(page, thread);
      if found.Some? {
        ghost var i :| 0 <= i < |page| && page[i] == (thread, found.value);
        return found, None;
      }
      if (host, thread) in c.tasks {
        PageCovers(c.tasks, host, cursor, page, next, thread);
      }
      if next == "" {
        return None, None;
      }
      CursorMoves(c.tasks, host, cursor, page, next);
      CursorIsNew(seen, cursor, next);
      if !IsUuid(next) || next in seen {
        return None, Some(BadCursor);
      }
      seen := seen + {next};
      cursor := next;
    }
  }

  lemma {:induction false} CursorIsNew(seen: set<string>, cursor: string, next: string)
    requires forall x :: x in seen ==> x == cursor || Less(x, cursor)
    requires Less(cursor, next)
    ensures next !in seen
    ensures forall x :: x in seen + {next} ==> x == next || Less(x, next)
  {
    LessIrreflexive(next);
    forall x | x in seen ensures Less(x, next) {
      if x != cursor {
        LessTransitive(x, cursor, next);
      }
    }
  }

  /** Enrolment of a session's thread. No revocation, local or central, is ever reversed; the thread becomes locally
      enabled only while the coordinator lists it as enabled. */
  method EnrolThread(c: Coordinator, j: JournalStore, host: string, thread: string, now: int) returns (o: Outcome)
    requires c.Valid() && IsUuid(thread)
    modifies c`tasks, j`enrolled
    ensures c.Valid()
    ensures thread in old(j.enrolled) && !old(j.enrolled)[thread] ==>
              j.enrolled == old(j.enrolled) && c.tasks == old(c.tasks) && o in {IsRevoked, Unreadable}
    ensures c.tasks == old(c.tasks)
            || ((host, thread) !in old(c.tasks)
                 && c.tasks == old(c.tasks)[(host, thread) := Task(TITLE + thread, true, now)])
    ensures j.enrolled == old(j.enrolled)
            || (Enrolled(c.Contents(), host, thread) && j.enrolled == old(j.enrolled)[thread := true])
            || ((host, thread) in c.tasks && !c.tasks[(host, thread)].enabled
                 && j.enrolled == old(j.enrolled)[thread := false])
    ensures o == IsEnrolled ==> RelayRunner.Allowed(j.Rows(), thread) && Enrolled(c.Contents(), host, thread)
    ensures o == IsRevoked ==> thread in j.enrolled && !j.enrolled[thread]
    ensures o == Rejected ==> (host, thread) !in c.tasks && |HostTasks(c.Contents(), host)| >= c.q.tasksPerHost
    ensures o !in {IsDisabled, BadPolicy, BadEvent, BadCursor}
  {
    var readable: bool := *;
    if !readable {
      return Unreadable;
    }
    if thread in j.enrolled && !j.enrolled[thread] {
      return IsRevoked;
    }
    var found, error := ScanCentral(c, host, thread);
    if error.Some? {
      return error.value;
    }
    if found.Some? {
      var kept := j.Enroll(thread, found.value.enabled);
      return if kept != Stored then Unwritten else if found.value.enabled then IsEnrolled else IsRevoked;
    }
    TitleFits(thread);
    var r := RegisterNew(c, host, thread, now);
    var reached: bool := *;
    if !reached || r != Registered {
      return if reached then Rejected else Unreached;
    }
    var kept := j.Enroll(thread, true);
    return if kept == Stored then IsEnrolled else Unwritten;
  }

  method RegisterNew(c: Coordinator, host: string, thread: string, now: int) returns (r: Response)
    requires c.Valid() && IsUuid(thread) && IsText(TITLE + thread, 200) && (host, thread) !in c.tasks
    modifies c`tasks
    ensures c.Valid()
    ensures r == Registered ==> c.tasks == old(c.tasks)[(host, thread) := Task(TITLE + thread, true, now)]
    ensures r != Registered ==> c.tasks == old(c.tasks) && |HostTasks(c.Contents(), host)| >= c.q.tasksPerHost
  {
    RunRegister(c.Contents(), c.q, host, thread, TITLE + thread, true, now);
    r := c.Register(host, thread, TITLE + thread, true, now);
  }

  // ---- what comes first ----

  datatype Policy = Policy(enabled: bool, host: string, osUser: string)

  datatype SessionStart = SessionStart(session: string, event: string, source: string)

  /** A session that starts or resumes here, under a policy for this host and OS user. */
  predicate Eligible(p: Policy, host: string, uid: string, e: SessionStart) {
    && p.enabled && p.host == host && p.osUser == uid
    && e.event == "SessionStart" && e.source in {"startup", "resume"} && IsUuid(e.session)
  }

  /** Automatic enrolment at the start of a session: nothing is touched unless policy and event are in order, and then
      no revocation that it meets is reversed. */
  method AutoEnroll(c: Coordinator, j: JournalStore, p: Policy, host: string, uid: string, e: SessionStart, now: int)
    returns (o: Outcome)
    requires c.Valid()
    modifies c`tasks, j`enrolled
    ensures c.Valid()
    ensures o in {IsDisabled, BadPolicy, BadEvent} <==> !Eligible(p, host, uid, e)
    ensures o == IsDisabled <==> !p.enabled
    ensures o == BadPolicy <==> p.enabled && (p.host != host || p.osUser != uid)
    ensures !Eligible(p, host, uid, e) ==> c.tasks == old(c.tasks) && j.enrolled == old(j.enrolled)
    ensures e.session in old(j.enrolled) && !old(j.enrolled)[e.session] ==>
              c.tasks == old(c.tasks) && j.enrolled == old(j.enrolled)
    ensures c.tasks == old(c.tasks)
            || ((host, e.session) !in old(c.tasks)
                 && c.tasks == old(c.tasks)[(host, e.session) := Task(TITLE + e.session, true, now)])
    ensures j.enrolled == old(j.enrolled)
            || (Enrolled(c.Contents(), host, e.session) && j.enrolled == old(j.enrolled)[e.session := true])
            || ((host, e.session) in c.tasks && !c.tasks[(host, e.session)].enabled
                 && j.enrolled == old(j.enrolled)[e.session := false])
    ensures o == IsEnrolled ==> RelayRunner.Allowed(j.Rows(), e.session) && Enrolled(c.Contents(), host, e.session)
    ensures o == IsRevoked ==> e.session in j.enrolled && !j.enrolled[e.session]
    ensures o == Rejected ==> (host, e.session) !in c.tasks && |HostTasks(c.Contents(), host)| >= c.q.tasksPerHost
    ensures o != BadCursor
  {
    if !p.enabled {
      return IsDisabled;
    }
    if p.host != host || p.osUser != uid {
      return BadPolicy;
    }
    if e.event != "SessionStart" || e.source !in {"startup", "resume"} || !IsUuid(e.session) {
      return BadEvent;
    }
    o := EnrolThread(c, j, host, e.session, now);
  }
}
