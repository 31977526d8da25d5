/** Who a message reaches: one worker, or a worker and everything below it. */
module Subtree {
  import opened Basics

  datatype Worker = Worker(id: string, parent: string)

  datatype Kind = Direct | ToSubtree

  datatype Recipients = Chosen(ids: set<string>) | Blank | Unknown | NobodyLeft

  predicate Child(workers: seq<Worker>, parent: string, id: string) {
    exists i :: 0 <= i < |workers| && workers[i].id == id && workers[i].parent == parent
  }

  /** A downward path: each worker names the one before it as its parent. */
  predicate IsPath(workers: seq<Worker>, path: seq<string>) {
    path != [] && forall i :: 0 <= i < |path| - 1 ==> Child(workers, path[i], path[i + 1])
  }

  ghost predicate Below(workers: seq<Worker>, target: string, id: string) {
    exists path :: IsPath(workers, path) && path[0] == target && path[|path| - 1] == id
  }

  function Ids(workers: seq<Worker>): set<string> {
    set i | 0 <= i < |workers| :: workers[i].id
  }

  lemma {:induction false} BelowItself(workers: seq<Worker>, target: string)
    ensures Below(workers, target, target)
  {
    assert IsPath(workers, [target]);
  }

  lemma {:induction false} BelowChild(workers: seq<Worker>, target: string, parent: string, id: string)
    requires Below(workers, target, parent) && Child(workers, parent, id)
    ensures Below(workers, target, id)
  {
    var path :| IsPath(workers, path) && path[0] == target && path[|path| - 1] == parent;
    var longer := path + [id];
    forall i | 0 <= i < |longer| - 1 ensures Child(workers, longer[i], longer[i + 1]) {
      if i < |path| - 1 { assert Child(workers, path[i], path[i + 1]); }
    }
    assert IsPath(workers, longer);
  }

  ghost predicate Closed(workers: seq<Worker>, s: set<string>) {
    forall i :: 0 <= i < |workers| && workers[i].parent in s ==> workers[i].id in s
  }

  /** A set that contains the start and is closed under children contains every path. */
  lemma {:induction false} ClosedContains(workers: seq<Worker>, s: set<string>, path: seq<string>, i: nat)
    requires Closed(workers, s) && IsPath(workers, path) && path[0] in s && i < |path|
    ensures path[i] in s
  {
    if i > 0 {
      ClosedContains(workers, s, path, i - 1);
      assert Child(workers, path[i - 1], path[i - 1 + 1]);
    }
  }

  /** The fixpoint: sweep the list until a sweep selects nobody new. Ends on every list, cycles included. */
  method Select(workers: seq<Worker>, target: string) returns (selected: set<string>)
    ensures forall id :: id in selected <==> Below(workers, target, id)
  {
    selected := {target};
    BelowItself(workers, target);
    var changed := true;
    while changed
      invariant target in selected && selected <= Ids(workers) + {target}
      invariant forall id :: id in selected ==> Below(workers, target, id)
      invariant !changed ==> Closed(workers, selected)
      decreases |Ids(workers) + {target} - selected|, changed
    {
      var grown, more := Sweep(workers, target, selected);
      if more {
        SubsetSize(Ids(workers) + {target} - grown, Ids(workers) + {target} - selected);
        StrictSize(Ids(workers) + {target} - grown, Ids(workers) + {target} - selected);
      }
      selected, changed := grown, more;
    }
    forall id | Below(workers, target, id) ensures id in selected {
      var path :| IsPath(workers, path) && path[0] == target && path[|path| - 1] == id;
      ClosedContains(workers, selected, path, |path| - 1);
    }
  }

  lemma {:induction false} StrictSize(a: set<string>, b: set<string>)
    requires a < b
    ensures |a| < |b|
  {
    var x :| x in b && x !in a;
    SubsetSize(a, b - {x});
  }

  /** One pass over the list, in its order, using what the pass itself has selected so far. */
  method Sweep(workers: seq<Worker>, target: string, before: set<string>) returns (selected: set<string>, changed: bool)
    requires target in before && before <= Ids(workers) + {target}
    requires forall id :: id in before ==> Below(workers, target, id)
    ensures before <= selected <= Ids(workers) + {target}
    ensures forall id :: id in selected ==> Below(workers, target, id)
    ensures changed <==> selected != before
    ensures !changed ==> Closed(workers, selected)
  {
    selected, changed := before, false;
    for i := 0 to |workers|
      invariant before <= selected <= Ids(workers) + {target}
      invariant forall id :: id in selected ==> Below(workers, target, id)
      invariant changed <==> selected != before
      invariant !changed ==> forall j :: 0 <= j < i && workers[j].parent in selected ==> workers[j].id in selected
    {
      if workers[i].id in selected {
        continue;
      }
      if workers[i].parent in selected {
        assert Child(workers, workers[i].parent, workers[i].id);
        BelowChild(workers, target, workers[i].parent, workers[i].id);
        selected, changed := selected + {workers[i].id}, true;
      }
    }
  }

  /** The addressed worker, or its whole subtree without the sender. */
  method Address(kind: Kind, workers: seq<Worker>, target: string, sender: string) returns (r: Recipients)
    ensures r.Blank? <==> IsBlank(target)
    ensures r.Unknown? <==> !IsBlank(target) && target !in Ids(workers)
    ensures r.Chosen? && kind.Direct? ==> r.ids == {target}
    ensures r.Chosen? && kind.ToSubtree? ==>
              r.ids != {} && forall id :: id in r.ids <==> id != sender && Below(workers, target, id)
    ensures r.NobodyLeft? <==>
              !IsBlank(target) && target in Ids(workers) && kind.ToSubtree?
                && forall id :: Below(workers, target, id) ==> id == sender
  {
    BelowItself(workers, target);
    if IsBlank(target) {
      return Blank;
    }
    if target !in Ids(workers) {
      return Unknown;
    }
    if kind.Direct? {
      return Chosen({target});
    }
    var selected := Select(workers, target);
    var others := selected - {sender};
    if others == {} {
      assert forall id :: Below(workers, target, id) ==> id in selected && id !in others;
      return NobodyLeft;
    }
    ghost var someone :| someone in others;
    assert Below(workers, target, someone);
    return Chosen(others);
  }
}
