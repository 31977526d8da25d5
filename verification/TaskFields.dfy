/** What each field of an indexed task says, read off the snapshots in their order of arrival: a snapshot that beats the
    record is applied, and a field shows what the last applied one gave for it. */
module TaskFields {
  import opened Basics
  import opened TaskIndex
  import opened TaskConvergence
  import opened TaskLedger
  import opened TaskCollections
  import opened TaskHistory

  /** Snapshot `i` lists the task, and is newer than everything the record knew when it arrived. */
  ghost predicate Lands(ss: seq<Snapshot>, k: (string, string), i: int) {
    && 0 <= i < |ss| && Sees(ss, k, i)
    && (k in Fold(ss[..i]) ==> Older(Fold(ss[..i])[k].state, StampOf(ss[i])))
  }

  /** What it said of the task. */
  function Said(ss: seq<Snapshot>, k: (string, string), i: int): Observation
    requires 0 <= i < |ss| && Sees(ss, k, i)
  {
    Observed(ss[i].tasks, k.1).value
  }

  ghost predicate IsLastAt<T(!new)>(ss: seq<Snapshot>, k: (string, string),
          gives: (Snapshot, Observation) -> Option<T>, value: T, i: int)
  {
    && Lands(ss, k, i) && gives(ss[i], Said(ss, k, i)) == Some(value)
    && forall j :: i < j && Lands(ss, k, j) ==> gives(ss[j], Said(ss, k, j)) == None
  }

  /** The value is what the last landing snapshot that gives one gave, or the initial one if none did. */
  ghost predicate IsLast<T(!new)>(ss: seq<Snapshot>, k: (string, string), gives: (Snapshot, Observation) -> Option<T>,
          initial: T, value: T) {
    || (exists i :: IsLastAt(ss, k, gives, value, i))
    || (value == initial && forall i :: Lands(ss, k, i) ==> gives(ss[i], Said(ss, k, i)) == None)
  }

  /** A field that every merge fills from the observation if that gives a value, and that nothing else touches. */
  ghost predicate IsGiven<T(!new)>(field: Task -> T, gives: (Snapshot, Observation) -> Option<T>, initial: T) {
    && (forall e: Option<Task>, s: Snapshot, o: Observation ::
          field(MergeTask(e, s, o))
          == match gives(s, o)
             case Some(v) => v
             case None => if e.Some? then field(e.value) else initial)
    && (forall t: Task, s: Snapshot, c: Option<Classification> :: field(Classify(t, s, c)) == field(t))
    && (forall t: Task, s: Snapshot :: field(MarkAbsent(t, s)) == field(t))
  }

  // ---- one more snapshot ----

  lemma {:induction false} EarlierLands(ss: seq<Snapshot>, k: (string, string), i: int)
    requires ss != [] && i < |ss| - 1
    ensures Lands(ss, k, i) <==> Lands(ss[..|ss| - 1], k, i)
  {
    if 0 <= i { assert ss[..|ss| - 1][..i] == ss[..i]; }
  }

  /** What the last snapshot made of the record. */
  lemma {:induction false} LastStep(ss: seq<Snapshot>, k: (string, string))
    requires ss != []
    ensures var n := |ss| - 1;
            var before, after := Lookup(Fold(ss[..n]), k), Lookup(Fold(ss), k);
            if Lands(ss, k, n) then after == Some(MergeTask(before, ss[n], Said(ss, k, n)))
            else if before.None? then after.None?
            else || after == before
                 || after == Some(MarkAbsent(before.value, ss[n]))
                 || exists c :: after == Some(Classify(before.value, ss[n], c))
  {
    AppliedEverywhere(Fold(ss[..|ss| - 1]), ss[|ss| - 1], k);
  }

  lemma {:induction false} LastIsNew<T(!new)>(ss: seq<Snapshot>, k: (string, string),
          gives: (Snapshot, Observation) -> Option<T>, initial: T, value: T)
    requires ss != [] && Lands(ss, k, |ss| - 1) && gives(ss[|ss| - 1], Said(ss, k, |ss| - 1)) == Some(value)
    ensures IsLast(ss, k, gives, initial, value)
  {
    assert IsLastAt(ss, k, gives, value, |ss| - 1);
  }

  lemma {:induction false} LastStays<T(!new)>(ss: seq<Snapshot>, k: (string, string),
          gives: (Snapshot, Observation) -> Option<T>, value: T, i: int)
    requires ss != [] && IsLastAt(ss[..|ss| - 1], k, gives, value, i)
    requires Lands(ss, k, |ss| - 1) ==> gives(ss[|ss| - 1], Said(ss, k, |ss| - 1)) == None
    ensures IsLastAt(ss, k, gives, value, i)
  {
    forall j | j < |ss| - 1 ensures Lands(ss, k, j) <==> Lands(ss[..|ss| - 1], k, j) { EarlierLands(ss, k, j); }
  }

  lemma {:induction false} LastIsOld<T(!new)>(ss: seq<Snapshot>, k: (string, string),
          gives: (Snapshot, Observation) -> Option<T>, initial: T, value: T)
    requires ss != [] && IsLast(ss[..|ss| - 1], k, gives, initial, value)
    requires Lands(ss, k, |ss| - 1) ==> gives(ss[|ss| - 1], Said(ss, k, |ss| - 1)) == None
    ensures IsLast(ss, k, gives, initial, value)
  {
    var rest := ss[..|ss| - 1];
    if exists i :: IsLastAt(rest, k, gives, value, i) {
      var i :| IsLastAt(rest, k, gives, value, i);
      LastStays(ss, k, gives, value, i);
    } else {
      forall i | Lands(ss, k, i) && i < |ss| - 1 ensures Lands(rest, k, i) { EarlierLands(ss, k, i); }
    }
  }

  /** Before a task is in the index no snapshot lands on it. */
  lemma {:induction false} NothingLands(ss: seq<Snapshot>, k: (string, string), i: int)
    requires k !in Fold(ss)
    ensures !Lands(ss, k, i)
  {
    if ss != [] {
      LastStep(ss, k);
      assert Lookup(Fold(ss), k) == None;
      if i < |ss| - 1 {
        EarlierLands(ss, k, i);
        NothingLands(ss[..|ss| - 1], k, i);
      }
    }
  }

  lemma {:induction false} FieldIsLast<T(!new)>(ss: seq<Snapshot>, k: (string, string), field: Task -> T,
          gives: (Snapshot, Observation) -> Option<T>, initial: T)
    requires IsGiven(field, gives, initial) && k in Fold(ss)
    ensures IsLast(ss, k, gives, initial, field(Fold(ss)[k]))
  {
    var n := |ss| - 1;
    var x := Fold(ss[..n]);
    LastStep(ss, k);
    if k in x { FieldIsLast(ss[..n], k, field, gives, initial); }
    if Lands(ss, k, n) && gives(ss[n], Said(ss, k, n)).Some? {
      LastIsNew(ss, k, gives, initial, field(Fold(ss)[k]));
    } else {
      if k !in x {
        forall i ensures !Lands(ss[..n], k, i) { NothingLands(ss[..n], k, i); }
      }
      LastIsOld(ss, k, gives, initial, field(Fold(ss)[k]));
    }
  }

  // ---- the fields ----

  function Given(value: string): Option<string> {
    if value != "" then Some(value) else None
  }

  function GivenTitle(s: Snapshot, o: Observation): Option<string> { Given(o.title) }

  function GivenDescription(s: Snapshot, o: Observation): Option<string> { Given(o.description) }

  function GivenCwd(s: Snapshot, o: Observation): Option<string> { Given(o.cwd) }

  function GivenProject(s: Snapshot, o: Observation): Option<string> { Given(o.project) }

  function GivenStatus(s: Snapshot, o: Observation): Option<string> { Given(o.status) }

  function GivenCoordinator(s: Snapshot, o: Observation): Option<bool> { o.coordinator }

  function GivenCursor(s: Snapshot, o: Observation): Option<string> { o.waitCursor }

  function GivenUnread(s: Snapshot, o: Observation): Option<bool> { Some(o.unread) }

  function GivenUpdated(s: Snapshot, o: Observation): Option<int> { Some(if o.updated != 0 then o.updated else s.at) }

  function GivenTombstone(s: Snapshot, o: Observation): Option<Option<int>> {
    Some(if o.tombstoned then Some(s.at) else None)
  }

  function GivenSource(s: Snapshot, o: Observation): Option<string> { Some(s.source) }

  function GivenStamp(s: Snapshot, o: Observation): Option<Stamp> { Some(Stamp(s.at, s.request)) }

  /** Title, description, directory, project and status are the last non-empty ones given. */
  lemma {:induction false} TextsAreLast(ss: seq<Snapshot>, k: (string, string))
    requires k in Fold(ss)
    ensures IsLast(ss, k, GivenTitle, "", Fold(ss)[k].title)
    ensures IsLast(ss, k, GivenDescription, "", Fold(ss)[k].description)
    ensures IsLast(ss, k, GivenCwd, "", Fold(ss)[k].cwd)
    ensures IsLast(ss, k, GivenProject, "", Fold(ss)[k].project)
    ensures IsLast(ss, k, GivenStatus, "", Fold(ss)[k].status)
  {
    TitlesAreLast(ss, k);
    PlacesAreLast(ss, k);
    FieldIsLast(ss, k, (t: Task) => t.status, GivenStatus, "");
  }

  lemma {:induction false} TitlesAreLast(ss: seq<Snapshot>, k: (string, string))
    requires k in Fold(ss)
    ensures IsLast(ss, k, GivenTitle, "", Fold(ss)[k].title)
    ensures IsLast(ss, k, GivenDescription, "", Fold(ss)[k].description)
  {
    FieldIsLast(ss, k, (t: Task) => t.title, GivenTitle, "");
    FieldIsLast(ss, k, (t: Task) => t.description, GivenDescription, "");
  }

  lemma {:induction false} PlacesAreLast(ss: seq<Snapshot>, k: (string, string))
    requires k in Fold(ss)
    ensures IsLast(ss, k, GivenCwd, "", Fold(ss)[k].cwd) && IsLast(ss, k, GivenProject, "", Fold(ss)[k].project)
  {
    FieldIsLast(ss, k, (t: Task) => t.cwd, GivenCwd, "");
    FieldIsLast(ss, k, (t: Task) => t.project, GivenProject, "");
  }

  /** The coordinator flag and the wait cursor are the last ones given at all. */
  lemma {:induction false} OptionsAreLast(ss: seq<Snapshot>, k: (string, string))
    requires k in Fold(ss)
    ensures IsLast(ss, k, GivenCoordinator, false, Fold(ss)[k].coordinator)
    ensures IsLast(ss, k, GivenCursor, "", Fold(ss)[k].waitCursor)
  {
    FieldIsLast(ss, k, (t: Task) => t.coordinator, GivenCoordinator, false);
    FieldIsLast(ss, k, (t: Task) => t.waitCursor, GivenCursor, "");
  }

  /** Unread flag, update time, tombstone, source and listing stamp are those of the last snapshot that landed. */
  lemma {:induction false} StatesAreLast(ss: seq<Snapshot>, k: (string, string))
    requires k in Fold(ss)
    ensures IsLast(ss, k, GivenUnread, false, Fold(ss)[k].unread)
    ensures IsLast(ss, k, GivenUpdated, 0, Fold(ss)[k].updated)
    ensures IsLast(ss, k, GivenTombstone, None, Fold(ss)[k].tombstoned)
    ensures IsLast(ss, k, GivenSource, "", Fold(ss)[k].source)
    ensures IsLast(ss, k, GivenStamp, NEVER, Fold(ss)[k].seen)
  {
    FlagsAreLast(ss, k);
    FieldIsLast(ss, k, (t: Task) => t.source, GivenSource, "");
    FieldIsLast(ss, k, (t: Task) => t.seen, GivenStamp, NEVER);
  }

  lemma {:induction false} FlagsAreLast(ss: seq<Snapshot>, k: (string, string))
    requires k in Fold(ss)
    ensures IsLast(ss, k, GivenUnread, false, Fold(ss)[k].unread)
    ensures IsLast(ss, k, GivenUpdated, 0, Fold(ss)[k].updated)
    ensures IsLast(ss, k, GivenTombstone, None, Fold(ss)[k].tombstoned)
  {
    FieldIsLast(ss, k, (t: Task) => t.unread, GivenUnread, false);
    FieldIsLast(ss, k, (t: Task) => t.updated, GivenUpdated, 0);
    FieldIsLast(ss, k, (t: Task) => t.tombstoned, GivenTombstone, None);
  }

  // ---- fields that remember the first snapshot ----

  ghost predicate IsFirst(ss: seq<Snapshot>, k: (string, string), i: int) {
    Lands(ss, k, i) && forall j :: j < i ==> !Lands(ss, k, j)
  }

  lemma {:induction false} FirstStays(ss: seq<Snapshot>, k: (string, string), i: int)
    requires ss != [] && IsFirst(ss[..|ss| - 1], k, i)
    ensures IsFirst(ss, k, i)
  {
    forall j | j < |ss| - 1 ensures Lands(ss, k, j) <==> Lands(ss[..|ss| - 1], k, j) { EarlierLands(ss, k, j); }
  }

  lemma {:induction false} FirstIsLast(ss: seq<Snapshot>, k: (string, string))
    requires ss != [] && k !in Fold(ss[..|ss| - 1]) && Lands(ss, k, |ss| - 1)
    ensures IsFirst(ss, k, |ss| - 1)
  {
    forall j | j < |ss| - 1 ensures !Lands(ss, k, j) {
      EarlierLands(ss, k, j);
      NothingLands(ss[..|ss| - 1], k, j);
    }
  }

  /** First-seen is the time of the first snapshot that landed. */
  lemma {:induction false} FirstSeenIsFirst(ss: seq<Snapshot>, k: (string, string)) returns (i: int)
    requires k in Fold(ss)
    ensures IsFirst(ss, k, i) && Fold(ss)[k].firstSeen == ss[i].at
  {
    var n := |ss| - 1;
    LastStep(ss, k);
    if k in Fold(ss[..n]) {
      i := FirstSeenIsFirst(ss[..n], k);
      FirstStays(ss, k, i);
    } else {
      i := n;
      FirstIsLast(ss, k);
    }
  }

  function GivenCreated(s: Snapshot, o: Observation): Option<int> {
    if o.created != 0 then Some(o.created) else None
  }

  /** No landing snapshot gave a creation time. */
  ghost predicate NoneCreated(ss: seq<Snapshot>, k: (string, string)) {
    forall j :: Lands(ss, k, j) ==> GivenCreated(ss[j], Said(ss, k, j)) == None
  }

  /** Created-at is the last time given, or, if none was, the time of the first snapshot that landed. */
  ghost predicate CreatedIs(ss: seq<Snapshot>, k: (string, string), value: int) {
    || (exists i :: IsLastAt(ss, k, GivenCreated, value, i))
    || (NoneCreated(ss, k) && exists i :: IsFirst(ss, k, i) && value == ss[i].at)
  }

  lemma {:induction false} NoneCreatedStays(ss: seq<Snapshot>, k: (string, string))
    requires ss != [] && NoneCreated(ss[..|ss| - 1], k)
    requires Lands(ss, k, |ss| - 1) ==> GivenCreated(ss[|ss| - 1], Said(ss, k, |ss| - 1)) == None
    ensures NoneCreated(ss, k)
  {
    forall j | Lands(ss, k, j) ensures GivenCreated(ss[j], Said(ss, k, j)) == None {
      if j < |ss| - 1 { EarlierLands(ss, k, j); }
    }
  }

  lemma {:induction false} CreatedStays(ss: seq<Snapshot>, k: (string, string), value: int)
    requires ss != [] && CreatedIs(ss[..|ss| - 1], k, value)
    requires Lands(ss, k, |ss| - 1) ==> GivenCreated(ss[|ss| - 1], Said(ss, k, |ss| - 1)) == None
    ensures CreatedIs(ss, k, value)
  {
    var rest := ss[..|ss| - 1];
    if exists i :: IsLastAt(rest, k, GivenCreated, value, i) {
      var i :| IsLastAt(rest, k, GivenCreated, value, i);
      LastStays(ss, k, GivenCreated, value, i);
    } else {
      var i :| IsFirst(rest, k, i) && value == rest[i].at;
      FirstStays(ss, k, i);
      NoneCreatedStays(ss, k);
    }
  }

  /** What the last snapshot made of created-at. */
  lemma {:induction false} CreatedStep(ss: seq<Snapshot>, k: (string, string))
    requires ss != [] && k in Fold(ss)
    ensures var n := |ss| - 1;
            var before := Fold(ss[..n]);
            if Lands(ss, k, n) && GivenCreated(ss[n], Said(ss, k, n)).Some?
            then GivenCreated(ss[n], Said(ss, k, n)) == Some(Fold(ss)[k].created)
            else if k in before
            then before[k].created != 0 ==> Fold(ss)[k].created == before[k].created
            else Lands(ss, k, n) && Fold(ss)[k].created == ss[n].at
  {
    LastStep(ss, k);
  }

  lemma {:induction false} CreatedNow(ss: seq<Snapshot>, k: (string, string), value: int)
    requires ss != [] && Lands(ss, k, |ss| - 1)
    requires GivenCreated(ss[|ss| - 1], Said(ss, k, |ss| - 1)) == Some(value)
    ensures CreatedIs(ss, k, value)
  {
    assert IsLastAt(ss, k, GivenCreated, value, |ss| - 1);
  }

  lemma {:induction false} CreatedFirst(ss: seq<Snapshot>, k: (string, string))
    requires ss != [] && k !in Fold(ss[..|ss| - 1]) && Lands(ss, k, |ss| - 1)
    requires GivenCreated(ss[|ss| - 1], Said(ss, k, |ss| - 1)) == None
    ensures CreatedIs(ss, k, ss[|ss| - 1].at)
  {
    FirstIsLast(ss, k);
    assert IsFirst(ss, k, |ss| - 1);
  }

  lemma {:induction false} CreatedIsKnown(ss: seq<Snapshot>, k: (string, string))
    requires k in Fold(ss) && forall s :: s in ss ==> s.at != 0
    ensures Fold(ss)[k].created != 0 && CreatedIs(ss, k, Fold(ss)[k].created)
  {
    var n := |ss| - 1;
    if k in Fold(ss[..n]) { CreatedIsKnown(ss[..n], k); }
    CreatedStep(ss, k);
    if Lands(ss, k, n) && GivenCreated(ss[n], Said(ss, k, n)).Some? {
      CreatedNow(ss, k, Fold(ss)[k].created);
    } else if k in Fold(ss[..n]) {
      CreatedStays(ss, k, Fold(ss)[k].created);
    } else {
      CreatedFirst(ss, k);
    }
  }

  // ---- missing ----

  /** Snapshot `i` is complete, comes from the source that listed the task last, is newer than everything the record
      knew, and does not list the task, which is not deleted. */
  ghost predicate Misses(ss: seq<Snapshot>, k: (string, string), i: int) {
    && 0 <= i < |ss| && ss[i].coverage == COMPLETE && ss[i].host == k.0 && !Sees(ss, k, i)
    && k in Fold(ss[..i])
    && var t := Fold(ss[..i])[k];
       t.source == ss[i].source && t.tombstoned == None && Older(t.state, StampOf(ss[i]))
  }

  lemma {:induction false} EarlierMisses(ss: seq<Snapshot>, k: (string, string), i: int)
    requires ss != [] && i < |ss| - 1
    ensures Misses(ss, k, i) <==> Misses(ss[..|ss| - 1], k, i)
  {
    if 0 <= i { assert ss[..|ss| - 1][..i] == ss[..i]; }
  }

  ghost function Landings(ss: seq<Snapshot>, k: (string, string)): set<int> {
    set i | 0 <= i < |ss| && Lands(ss, k, i)
  }

  ghost function Absences(ss: seq<Snapshot>, k: (string, string)): set<int> {
    set i | 0 <= i < |ss| && Misses(ss, k, i)
  }

  lemma {:induction false} OneMoreLanding(ss: seq<Snapshot>, k: (string, string))
    requires ss != []
    ensures var n := |ss| - 1;
            Landings(ss, k) == Landings(ss[..n], k) + (if Lands(ss, k, n) then {n} else {})
  {
    forall j | j < |ss| - 1 ensures Lands(ss, k, j) <==> Lands(ss[..|ss| - 1], k, j) { EarlierLands(ss, k, j); }
  }

  lemma {:induction false} OneMoreAbsence(ss: seq<Snapshot>, k: (string, string))
    requires ss != []
    ensures var n := |ss| - 1;
            Absences(ss, k) == Absences(ss[..n], k) + (if Misses(ss, k, n) then {n} else {})
  {
    forall j | j < |ss| - 1 ensures Misses(ss, k, j) <==> Misses(ss[..|ss| - 1], k, j) { EarlierMisses(ss, k, j); }
  }

  lemma {:induction false} OneMoreSnapshot(ss: seq<Snapshot>, k: (string, string))
    requires ss != []
    ensures var n := |ss| - 1;
            && Landings(ss, k) == Landings(ss[..n], k) + (if Lands(ss, k, n) then {n} else {})
            && Absences(ss, k) == Absences(ss[..n], k) + (if Misses(ss, k, n) then {n} else {})
            && (Misses(ss, k, n) ==> !Lands(ss, k, n))
  {
    OneMoreLanding(ss, k);
    OneMoreAbsence(ss, k);
  }

  /** The first absence since the last landing. */
  predicate IsFirstSince(landings: set<int>, absences: set<int>, i: int) {
    && i in absences && (forall j :: j in landings ==> j < i)
    && (forall j :: j in absences && j < i ==> exists m :: m in landings && j < m)
  }

  ghost predicate MissingIs(ss: seq<Snapshot>, k: (string, string), missing: Option<int>) {
    match missing
    case None => forall j :: j in Absences(ss, k) ==> exists m :: m in Landings(ss, k) && j < m
    case Some(at) => exists i :: 0 <= i < |ss| && IsFirstSince(Landings(ss, k), Absences(ss, k), i) && at == ss[i].at
  }

  /** Snapshot `i` judged the task, and none after it did. */
  ghost predicate IsLastJudge(ss: seq<Snapshot>, k: (string, string), i: int) {
    var judges := Landings(ss, k) + Absences(ss, k);
    i in judges && forall j :: j in judges ==> j <= i
  }

  /** What the last snapshot made of a record that it did not land on. */
  lemma {:induction false} JudgeStep(ss: seq<Snapshot>, k: (string, string))
    requires ss != [] && k in Fold(ss[..|ss| - 1]) && !Lands(ss, k, |ss| - 1)
    ensures k in Fold(ss)
    ensures var n := |ss| - 1;
            var t, u := Fold(ss[..n])[k], Fold(ss)[k];
            if Misses(ss, k, n)
            then u.state == StampOf(ss[n]) && u.missing == if t.missing.Some? then t.missing else Some(ss[n].at)
            else u.state == t.state && u.missing == t.missing
  {
    AppliedEverywhere(Fold(ss[..|ss| - 1]), ss[|ss| - 1], k);
  }

  lemma {:induction false} LandStep(ss: seq<Snapshot>, k: (string, string))
    requires ss != [] && Lands(ss, k, |ss| - 1)
    ensures k in Fold(ss) && Fold(ss)[k].missing == None && Fold(ss)[k].state == StampOf(ss[|ss| - 1])
  {
    LastStep(ss, k);
  }

  lemma {:induction false} MissedStays(ss: seq<Snapshot>, k: (string, string), missing: Option<int>)
    requires ss != [] && MissingIs(ss[..|ss| - 1], k, missing) && !Lands(ss, k, |ss| - 1)
    requires Misses(ss, k, |ss| - 1) ==> missing.Some?
    ensures MissingIs(ss, k, missing)
  {
    var n := |ss| - 1;
    OneMoreSnapshot(ss, k);
    if missing.Some? {
      var i :| 0 <= i < n && IsFirstSince(Landings(ss[..n], k), Absences(ss[..n], k), i) && missing.value == ss[i].at;
      assert IsFirstSince(Landings(ss, k), Absences(ss, k), i);
    }
  }

  lemma {:induction false} MissedNow(ss: seq<Snapshot>, k: (string, string))
    requires ss != [] && MissingIs(ss[..|ss| - 1], k, None) && Misses(ss, k, |ss| - 1)
    ensures MissingIs(ss, k, Some(ss[|ss| - 1].at))
  {
    OneMoreSnapshot(ss, k);
    assert IsFirstSince(Landings(ss, k), Absences(ss, k), |ss| - 1);
  }

  lemma {:induction false} LandedNow(ss: seq<Snapshot>, k: (string, string))
    requires ss != [] && Lands(ss, k, |ss| - 1)
    ensures MissingIs(ss, k, None)
  {
    OneMoreSnapshot(ss, k);
    assert |ss| - 1 in Landings(ss, k);
  }

  /** A task is missing since the first complete snapshot that missed it after the last one that landed, and not missing
      if none did. */
  lemma {:induction false} MissingIsKnown(ss: seq<Snapshot>, k: (string, string))
    requires k in Fold(ss)
    ensures MissingIs(ss, k, Fold(ss)[k].missing)
  {
    var n := |ss| - 1;
    var rest := ss[..n];
    if Lands(ss, k, n) {
      LandStep(ss, k);
      LandedNow(ss, k);
    } else {
      LastStep(ss, k);
      MissingIsKnown(rest, k);
      JudgeStep(ss, k);
      if Misses(ss, k, n) && Fold(rest)[k].missing.None? {
        MissedNow(ss, k);
      } else {
        MissedStays(ss, k, Fold(rest)[k].missing);
      }
    }
  }

  lemma {:induction false} JudgeNow(ss: seq<Snapshot>, k: (string, string))
    requires ss != [] && (Lands(ss, k, |ss| - 1) || Misses(ss, k, |ss| - 1))
    ensures IsLastJudge(ss, k, |ss| - 1)
  {
  }

  /** The state stamp is that of the last snapshot that landed on the task or missed it. */
  lemma {:induction false} StateIsLastJudge(ss: seq<Snapshot>, k: (string, string)) returns (i: int)
    requires k in Fold(ss)
    ensures 0 <= i < |ss| && IsLastJudge(ss, k, i) && Fold(ss)[k].state == StampOf(ss[i])
  {
    i := |ss| - 1;
    if Lands(ss, k, i) {
      LandStep(ss, k);
      JudgeNow(ss, k);
    } else {
      LastStep(ss, k);
      JudgeStep(ss, k);
      if Misses(ss, k, i) {
        JudgeNow(ss, k);
      } else {
        OneMoreSnapshot(ss, k);
        i := StateIsLastJudge(ss[..i], k);
      }
    }
  }

  // ---- in any history ----

  /** Every field of an indexed task, but the classification, as the snapshots determine it. */
  ghost predicate IsDetermined(ss: seq<Snapshot>, k: (string, string), t: Task) {
    && IsLast(ss, k, GivenTitle, "", t.title) && IsLast(ss, k, GivenDescription, "", t.description)
    && IsLast(ss, k, GivenCwd, "", t.cwd) && IsLast(ss, k, GivenProject, "", t.project)
    && IsLast(ss, k, GivenStatus, "", t.status)
    && IsLast(ss, k, GivenCoordinator, false, t.coordinator) && IsLast(ss, k, GivenCursor, "", t.waitCursor)
    && IsLast(ss, k, GivenUnread, false, t.unread) && IsLast(ss, k, GivenUpdated, 0, t.updated)
    && IsLast(ss, k, GivenTombstone, None, t.tombstoned) && IsLast(ss, k, GivenSource, "", t.source)
    && IsLast(ss, k, GivenStamp, NEVER, t.seen)
    && CreatedIs(ss, k, t.created) && (exists i :: IsFirst(ss, k, i) && t.firstSeen == ss[i].at)
    && MissingIs(ss, k, t.missing) && (exists i :: 0 <= i < |ss| && IsLastJudge(ss, k, i) && t.state == StampOf(ss[i]))
  }

  /** After any history of ingests and collections, every indexed task shows, field by field, what the published
      snapshots said in their order. */
  lemma {:induction false} HistoryDetermines(sha: string -> string, ls: seq<Ledger>, ops: seq<Op>, n: nat,
          k: (string, string))
    requires IsHistory(sha, ls, ops) && n < |ls| && k in ls[n].index
    ensures IsDetermined(Snapshots(sha, ls, ops, n), k, ls[n].index[k])
  {
    HistoryIsFold(sha, ls, ops, n);
    FoldDetermines(Snapshots(sha, ls, ops, n), k);
  }

  lemma {:induction false} FoldDetermines(ss: seq<Snapshot>, k: (string, string))
    requires k in Fold(ss) && forall s :: s in ss ==> s.at != 0
    ensures IsDetermined(ss, k, Fold(ss)[k])
  {
    TextsAreLast(ss, k);
    OptionsAreLast(ss, k);
    StatesAreLast(ss, k);
    CreatedIsKnown(ss, k);
    MissingIsKnown(ss, k);
    var i := FirstSeenIsFirst(ss, k);
    var j := StateIsLastJudge(ss, k);
  }
}
