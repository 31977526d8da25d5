/** Which operation a worker belongs to: its own issue, an ancestor's, or its root worker - resolved with a memo table
    along parent links that may dangle or form cycles. */
module Lineage {
  import opened Basics

  datatype Worker = Worker(id: string, parent: string, issue: string)

  datatype State = Resolved | MissingParent | ParentCycle | InvalidIssue

  datatype Resolution = Resolution(worker: string, key: string, issue: string, root: string, state: State,
                                   detail: string)

  /** Parsing an issue reference: the normalised reference, or what is wrong with it. */
  datatype Parsed = Issue(ref: string) | Bad(error: string)

  /** The workers by ID, and how issue references parse. */
  datatype Graph = Graph(workers: map<string, Worker>, parse: string -> Parsed)

  const CYCLE := "parent lineage contains a cycle"
  const NO_RECORD := "worker record not found"

  /** What a worker settles by itself, without asking its parent. */
  function Decide(g: Graph, id: string): Option<Resolution>
    requires id in g.workers
  {
    var w := g.workers[id];
    var issue := TrimSpace(w.issue);
    if issue != "" then
      match g.parse(issue)
      case Issue(ref) => Some(Resolution(id, "issue:" + ref, ref, "", Resolved, ""))
      case Bad(error) => Some(Resolution(id, "", "", "", InvalidIssue, error))
    else if TrimSpace(w.parent) == "" then Some(Resolution(id, "worker:" + id, "", id, Resolved, ""))
    else if w.parent !in g.workers
         then Some(Resolution(id, "", "", "", MissingParent, "parent worker " + w.parent + " not found"))
    else None
  }

  /** The worker leaves the question to a parent that exists. */
  predicate Defers(g: Graph, id: string) {
    id in g.workers && Decide(g, id).None?
  }

  // ---- the plain ancestor walk ----

  /** The first n workers of the chain all defer. */
  predicate Climbs(g: Graph, id: string, n: nat)
    decreases n
  {
    n == 0 || (Defers(g, id) && Climbs(g, g.workers[id].parent, n - 1))
  }

  function Ancestor(g: Graph, id: string, n: nat): string
    decreases n
  {
    if n == 0 || id !in g.workers then id else Ancestor(g, g.workers[id].parent, n - 1)
  }

  lemma {:induction false} AncestorExists(g: Graph, id: string, n: nat)
    requires id in g.workers && Climbs(g, id, n)
    ensures Ancestor(g, id, n) in g.workers
    decreases n
  {
    if n > 0 { AncestorExists(g, g.workers[id].parent, n - 1); }
  }

  predicate EndsAt(g: Graph, id: string, n: nat) {
    Climbs(g, id, n) && Ancestor(g, id, n) in g.workers && Decide(g, Ancestor(g, id, n)).Some?
  }

  /** The outcome of the first ancestor that decides, under the worker's own name; a cycle when none ever does. */
  ghost predicate Correct(g: Graph, id: string, r: Resolution) {
    && (forall n: nat :: EndsAt(g, id, n) ==> r == Decide(g, Ancestor(g, id, n)).value.(worker := id))
    && ((forall n: nat :: !EndsAt(g, id, n)) ==> r == Resolution(id, "", "", "", ParentCycle, CYCLE))
  }

  /** The walk has one answer, so neither memoisation nor the order of the workers can change it. */
  lemma {:induction false} CorrectIsUnique(g: Graph, id: string, r: Resolution, s: Resolution)
    requires Correct(g, id, r) && Correct(g, id, s)
    ensures r == s
  {
    if n: nat :| EndsAt(g, id, n) {
      assert r == Decide(g, Ancestor(g, id, n)).value.(worker := id);
    }
  }

  /** What the first deciding ancestor settles: a readable issue names the operation after itself, an unreadable one is
      an error, a worker without parent names it after itself, and a missing parent is an error. */
  lemma {:induction false} OutcomeMeans(g: Graph, id: string, r: Resolution, n: nat)
    requires Correct(g, id, r) && EndsAt(g, id, n)
    ensures Ancestor(g, id, n) in g.workers
    ensures var a := Ancestor(g, id, n);
            var w := g.workers[a];
            if TrimSpace(w.issue) != "" then
              match g.parse(TrimSpace(w.issue))
              case Issue(ref) => r == Resolution(id, "issue:" + ref, ref, "", Resolved, "")
              case Bad(error) => r == Resolution(id, "", "", "", InvalidIssue, error)
            else if TrimSpace(w.parent) == "" then r == Resolution(id, "worker:" + a, "", a, Resolved, "")
            else w.parent !in g.workers
                 && r == Resolution(id, "", "", "", MissingParent, "parent worker " + w.parent + " not found")
  {
  }

  /** ... and all before it leave it to parents that exist. */
  lemma {:induction false} EarlierDefer(g: Graph, id: string, n: nat, m: nat)
    requires EndsAt(g, id, n) && m < n
    ensures var a := Ancestor(g, id, m);
            && a in g.workers && TrimSpace(g.workers[a].issue) == "" && TrimSpace(g.workers[a].parent) != ""
            && g.workers[a].parent in g.workers && g.workers[a].parent == Ancestor(g, id, m + 1)
    decreases m
  {
    if m > 0 { EarlierDefer(g, g.workers[id].parent, n - 1, m - 1); }
  }

  lemma {:induction false} EndsOnce(g: Graph, id: string, n: nat, m: nat)
    requires EndsAt(g, id, n) && EndsAt(g, id, m)
    ensures n == m
    decreases n
  {
    if n > 0 && m > 0 {
      EndsOnce(g, g.workers[id].parent, n - 1, m - 1);
    }
  }

  /** A worker that decides answers for itself. */
  lemma {:induction false} DecidedIsCorrect(g: Graph, id: string)
    requires id in g.workers && Decide(g, id).Some?
    ensures Correct(g, id, Decide(g, id).value)
  {
    assert EndsAt(g, id, 0);
    forall n: nat | EndsAt(g, id, n) ensures n == 0 { EndsOnce(g, id, n, 0); }
  }

  /** One that defers has its parent's answer. */
  lemma {:induction false} DeferredIsCorrect(g: Graph, id: string, r: Resolution)
    requires Defers(g, id) && Correct(g, g.workers[id].parent, r)
    ensures Correct(g, id, r.(worker := id))
  {
    var parent := g.workers[id].parent;
    forall n: nat ensures EndsAt(g, id, n + 1) == EndsAt(g, parent, n) {
    }
    forall n: nat | EndsAt(g, id, n) ensures r.(worker := id) == Decide(g, Ancestor(g, id, n)).value.(worker := id) {
      assert n > 0 && EndsAt(g, id, n - 1 + 1) == EndsAt(g, parent, n - 1);
    }
    if forall n: nat :: !EndsAt(g, id, n) {
      forall n: nat ensures !EndsAt(g, parent, n) {
        assert !EndsAt(g, id, n + 1);
      }
    }
  }

  /** A failed parse says why. */
  ghost predicate NamesErrors(g: Graph) {
    forall issue :: g.parse(issue).Bad? ==> g.parse(issue).error != ""
  }

  lemma {:induction false} FailuresHaveDetail(g: Graph, id: string, r: Resolution)
    requires NamesErrors(g) && Correct(g, id, r)
    ensures r.state != Resolved ==> r.detail != ""
  {
    if n: nat :| EndsAt(g, id, n) {
      assert r == Decide(g, Ancestor(g, id, n)).value.(worker := id);
    }
  }

  // ---- cycles ----

  /** A worker that meets itself again up the chain. */
  ghost predicate OnCycle(g: Graph, id: string) {
    exists n: nat :: n > 0 && Climbs(g, id, n) && Ancestor(g, id, n) == id
  }

  lemma {:induction false} ClimbOn(g: Graph, id: string, n: nat, m: nat)
    requires Climbs(g, id, n)
    ensures Climbs(g, id, n + m) == Climbs(g, Ancestor(g, id, n), m)
    ensures Ancestor(g, id, n + m) == Ancestor(g, Ancestor(g, id, n), m)
    decreases n
  {
    if n > 0 {
      ClimbOn(g, g.workers[id].parent, n - 1, m);
    }
  }

  lemma {:induction false} ClimbLess(g: Graph, id: string, n: nat, m: nat)
    requires Climbs(g, id, n) && m <= n
    ensures Climbs(g, id, m)
    decreases m
  {
    if m > 0 {
      ClimbLess(g, g.workers[id].parent, n - 1, m - 1);
    }
  }

  /** From a worker on a cycle the climb never stops. */
  lemma {:induction false} CycleClimbs(g: Graph, id: string, period: nat, n: nat)
    requires period > 0 && Climbs(g, id, period) && Ancestor(g, id, period) == id
    ensures Climbs(g, id, n)
    decreases n
  {
    if n <= period {
      ClimbLess(g, id, period, n);
    } else {
      CycleClimbs(g, id, period, n - period);
      ClimbOn(g, id, period, n - period);
    }
  }

  lemma {:induction false} ClimbingNeverEnds(g: Graph, id: string)
    requires forall n: nat :: Climbs(g, id, n)
    ensures forall n: nat :: !EndsAt(g, id, n)
  {
    forall n: nat ensures !EndsAt(g, id, n) {
      assert Climbs(g, id, n + 1);
      ClimbOn(g, id, n, 1);
    }
  }

  lemma {:induction false} NeverEndingClimbs(g: Graph, id: string, n: nat)
    requires id in g.workers && forall m: nat :: !EndsAt(g, id, m)
    ensures Climbs(g, id, n)
    decreases n
  {
    if n > 0 {
      NeverEndingClimbs(g, id, n - 1);
      AncestorExists(g, id, n - 1);
      assert !EndsAt(g, id, n - 1);
      ClimbOn(g, id, n - 1, 1);
      assert Climbs(g, Ancestor(g, id, n - 1), 1) by { assert Climbs(g, g.workers[Ancestor(g, id, n - 1)].parent, 0); }
    }
  }

  // ---- a chain longer than the number of workers repeats one ----

  function Trail(g: Graph, id: string, n: nat): set<string> {
    if n == 0 then {id} else Trail(g, id, n - 1) + {Ancestor(g, id, n)}
  }

  lemma {:induction false} TrailMembers(g: Graph, id: string, n: nat, a: string)
    requires a in Trail(g, id, n)
    ensures exists i: nat :: i <= n && Ancestor(g, id, i) == a
  {
    if a in Trail(g, id, 0) {
      assert Ancestor(g, id, 0) == a;
    } else if n > 0 && a in Trail(g, id, n - 1) {
      TrailMembers(g, id, n - 1, a);
    }
  }

  lemma {:induction false} TrailSize(g: Graph, id: string, n: nat)
    requires forall i: nat, j: nat :: i < j <= n ==> Ancestor(g, id, i) != Ancestor(g, id, j)
    ensures |Trail(g, id, n)| == n + 1
  {
    if n > 0 {
      TrailSize(g, id, n - 1);
      if Ancestor(g, id, n) in Trail(g, id, n - 1) {
        TrailMembers(g, id, n - 1, Ancestor(g, id, n));
      }
    }
  }

  lemma {:induction false} TrailExists(g: Graph, id: string, n: nat)
    requires id in g.workers && Climbs(g, id, n)
    ensures Trail(g, id, n) <= g.workers.Keys
  {
    if n > 0 {
      ClimbLess(g, id, n, n - 1);
      TrailExists(g, id, n - 1);
      AncestorExists(g, id, n);
    }
  }

  lemma {:induction false} LongClimbRepeats(g: Graph, id: string) returns (i: nat, j: nat)
    requires id in g.workers && Climbs(g, id, |g.workers|)
    ensures i < j <= |g.workers| && Ancestor(g, id, i) == Ancestor(g, id, j)
  {
    var n := |g.workers|;
    assert |g.workers.Keys| == n;
    if forall a: nat, b: nat :: a < b <= n ==> Ancestor(g, id, a) != Ancestor(g, id, b) {
      TrailSize(g, id, n);
      TrailExists(g, id, n);
      SubsetSize(Trail(g, id, n), g.workers.Keys);
      assert false;
    }
    i, j :| i < j <= n && Ancestor(g, id, i) == Ancestor(g, id, j);
  }

  /** Climbing this far meets a cycle. */
  ghost predicate MeetsCycle(g: Graph, id: string, i: nat) {
    Climbs(g, id, i) && OnCycle(g, Ancestor(g, id, i))
  }

  lemma {:induction false} UndecidedMeetsCycle(g: Graph, id: string) returns (i: nat)
    requires id in g.workers && forall n: nat :: !EndsAt(g, id, n)
    ensures MeetsCycle(g, id, i)
  {
    var j: nat;
    NeverEndingClimbs(g, id, |g.workers|);
    i, j := LongClimbRepeats(g, id);
    NeverEndingClimbs(g, id, i);
    NeverEndingClimbs(g, id, i + (j - i));
    ClimbOn(g, id, i, j - i);
  }

  lemma {:induction false} CycleIsUndecided(g: Graph, id: string, i: nat)
    requires id in g.workers && MeetsCycle(g, id, i)
    ensures forall n: nat :: !EndsAt(g, id, n)
  {
    var a := Ancestor(g, id, i);
    var period: nat :| period > 0 && Climbs(g, a, period) && Ancestor(g, a, period) == a;
    forall n: nat ensures Climbs(g, id, n) {
      CycleClimbs(g, a, period, n);
      ClimbOn(g, id, i, n);
      ClimbLess(g, id, i + n, n);
    }
    ClimbingNeverEnds(g, id);
  }

  /** A worker has no deciding ancestor exactly when its chain runs into a cycle. */
  lemma {:induction false} UndecidedIffCyclic(g: Graph, id: string)
    requires id in g.workers
    ensures (forall n: nat :: !EndsAt(g, id, n)) <==> exists i: nat :: MeetsCycle(g, id, i)
  {
    if forall n: nat :: !EndsAt(g, id, n) {
      var i := UndecidedMeetsCycle(g, id);
    } else if i: nat :| MeetsCycle(g, id, i) {
      CycleIsUndecided(g, id, i);
    }
  }

  // ---- the memoised resolution ----

  /** Workers being resolved, oldest first: each defers to the next. */
  ghost predicate IsPath(g: Graph, path: seq<string>, id: string) {
    && (forall i :: 0 <= i < |path| ==> Defers(g, path[i]))
    && (forall i :: 0 <= i < |path| - 1 ==> g.workers[path[i]].parent == path[i + 1])
    && (path != [] ==> g.workers[path[|path| - 1]].parent == id)
  }

  lemma {:induction false} PathClimbs(g: Graph, path: seq<string>, id: string, i: nat)
    requires IsPath(g, path, id) && i < |path|
    ensures Climbs(g, path[i], |path| - i) && Ancestor(g, path[i], |path| - i) == id
    decreases |path| - i
  {
    if i < |path| - 1 {
      PathClimbs(g, path, id, i + 1);
    } else {
      assert Climbs(g, id, 0);
    }
  }

  /** Meeting a worker that is still being resolved means the chain never ends. */
  lemma {:induction false} MetAgain(g: Graph, path: seq<string>, id: string)
    requires IsPath(g, path, id) && id in path
    ensures Correct(g, id, Resolution(id, "", "", "", ParentCycle, CYCLE))
  {
    var i :| 0 <= i < |path| && path[i] == id;
    PathClimbs(g, path, id, i);
    forall n: nat ensures Climbs(g, id, n) { CycleClimbs(g, id, |path| - i, n); }
    ClimbingNeverEnds(g, id);
  }

  class Resolver {
    const g: Graph
    var memo: map<string, Resolution>
    var visiting: set<string>
    ghost var path: seq<string>

    constructor (g: Graph)
      requires NamesErrors(g)
      ensures Valid("") && this.g == g && memo == map[] && visiting == {} && path == []
    {
      this.g, memo, visiting, path := g, map[], {}, [];
    }

    ghost predicate Valid(next: string)
      reads this
    {
      && (forall id :: id in memo ==> id in g.workers && Correct(g, id, memo[id]))
      && (forall id :: id in visiting <==> id in path)
      && IsPath(g, path, next) && NamesErrors(g)
    }

    /** Follow the parents of `id`, remembering every answer found on the way. */
    method Resolve(id: string) returns (r: Resolution)
      requires Valid(id) && visiting <= g.workers.Keys
      modifies this
      ensures visiting == old(visiting) && path == old(path) && Valid(id)
      ensures id in g.workers ==> Correct(g, id, r) && (id in memo || id in visiting)
      ensures id !in g.workers ==> r == Resolution(id, "", "", "", MissingParent, NO_RECORD) && memo == old(memo)
      ensures old(memo).Keys <= memo.Keys
      decreases g.workers.Keys - visiting
    {
      if id in memo {
        return memo[id];
      }
      if id !in g.workers {
        return Resolution(id, "", "", "", MissingParent, NO_RECORD);
      }
      var worker := g.workers[id];
      var issue := TrimSpace(worker.issue);
      if issue != "" {
        DecidedIsCorrect(g, id);
        match g.parse(issue) {
          case Bad(error) =>
            r := Resolution(id, "", "", "", InvalidIssue, error);
          case Issue(ref) =>
            r := Resolution(id, "issue:" + ref, ref, "", Resolved, "");
        }
        memo := memo[id := r];
        return;
      }
      if id in visiting {
        MetAgain(g, path, id);
        return Resolution(id, "", "", "", ParentCycle, CYCLE);
      }
      if TrimSpace(worker.parent) == "" {
        DecidedIsCorrect(g, id);
        r := Resolution(id, "worker:" + id, "", id, Resolved, "");
        memo := memo[id := r];
        return;
      }
      if worker.parent !in g.workers {
        DecidedIsCorrect(g, id);
        r := Resolution(id, "", "", "", MissingParent, "parent worker " + worker.parent + " not found");
        memo := memo[id := r];
        return;
      }
      r := Inherit(id, worker.parent);
    }

    /** The parent's answer, while the worker is marked as being resolved. */
    method Inherit(id: string, parent: string) returns (r: Resolution)
      requires Valid(id) && Defers(g, id) && g.workers[id].parent == parent && id !in visiting
      requires visiting <= g.workers.Keys
      modifies this
      ensures visiting == old(visiting) && path == old(path) && Valid(id)
      ensures Correct(g, id, r)
      ensures old(memo).Keys <= memo.Keys && id in memo
      decreases g.workers.Keys - visiting, 0
    {
      visiting, path := visiting + {id}, path + [id];
      assert IsPath(g, path, parent);
      var answer := Resolve(parent);
      visiting := visiting - {id};
      path := path[..|path| - 1];
      DeferredIsCorrect(g, id, answer);
      r := answer.(worker := id);
      FailuresHaveDetail(g, id, r);
      if answer.state != Resolved && r.detail == "" {
        r := r.(detail := "unresolved parent " + parent);
      }
      memo := memo[id := r];
    }

    /** Every worker, in whatever order they come up. */
    method ResolveAll()
      requires Valid("") && path == [] && visiting == {}
      modifies this
      ensures memo.Keys == g.workers.Keys
      ensures forall id :: id in g.workers ==> Correct(g, id, memo[id])
    {
      var left := g.workers.Keys;
      while left != {}
        invariant left <= g.workers.Keys && path == [] && visiting == {} && Valid("")
        invariant forall id :: id in g.workers && id !in left ==> id in memo
        decreases |left|
      {
        var id :| id in left;
        left := left - {id};
        var r := Resolve(id);
      }
    }
  }
}
