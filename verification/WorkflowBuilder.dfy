/**
 The workflow builder: incremental validation of tasks, Kahn peeling of the
 whole graph, and the concrete cycle that is reported when peeling stops early.
 */
module WorkflowBuilder {
  import opened Wrappers
  import opened WorkflowSpec
  import opened Failure

  // ---------------------------------------------------------------------
  // Counting predecessors that are still unpeeled
  // ---------------------------------------------------------------------

  ghost function Unpeeled(deps: seq<TaskId>, peeled: set<TaskId>): nat {
    if deps == [] then 0
    else (if deps[0] in peeled then 0 else 1) + Unpeeled(deps[1..], peeled)
  }

  lemma {:induction false} UnpeeledStart(deps: seq<TaskId>)
    ensures Unpeeled(deps, {}) == |deps|
  {
    if deps != [] {
      UnpeeledStart(deps[1..]);
    }
  }

  lemma {:induction false} UnpeeledZero(deps: seq<TaskId>, peeled: set<TaskId>)
    ensures Unpeeled(deps, peeled) == 0 <==> forall d :: d in deps ==> d in peeled
  {
    if deps != [] {
      UnpeeledZero(deps[1..], peeled);
      assert forall d :: d in deps <==> d == deps[0] || d in deps[1..];
    }
  }

  /** Peeling one more task lowers the count of exactly its direct dependents, by one. */
  lemma {:induction false} UnpeeledStep(deps: seq<TaskId>, peeled: set<TaskId>, id: TaskId)
    requires Distinct(deps) && id !in peeled
    ensures Unpeeled(deps, peeled) ==
            Unpeeled(deps, peeled + {id}) + if id in deps then 1 else 0
  {
    if deps != [] {
      UnpeeledStep(deps[1..], peeled, id);
      if deps[0] == id {
        forall k | 0 <= k < |deps[1..]| ensures deps[1..][k] != id {
          assert deps[k + 1] != deps[0];
        }
      }
    }
  }

  // ---------------------------------------------------------------------
  // State of the peeling loop
  // ---------------------------------------------------------------------

  ghost predicate InRange(s: seq<nat>, n: nat) {
    forall k :: 0 <= k < |s| ==> s[k] < n
  }

  ghost function IdsAt(tasks: seq<TaskNode>, order: seq<nat>): set<TaskId>
    requires InRange(order, |tasks|)
  {
    set k | 0 <= k < |order| :: tasks[order[k]].id
  }

  /** Everything popped so far had all its predecessors popped before it. */
  ghost predicate Topological(tasks: seq<TaskNode>, order: seq<nat>)
    requires InRange(order, |tasks|)
  {
    forall k, d :: 0 <= k < |order| && d in tasks[order[k]].deps ==>
      d in IdsAt(tasks, order[..k])
  }

  /** Each node is popped, queued, or still has unpeeled predecessors; never two of these. */
  ghost predicate Partitioned(tasks: seq<TaskNode>, indegree: seq<nat>, queue: seq<nat>, order: seq<nat>)
    requires |indegree| == |tasks|
  {
    && InRange(order, |tasks|) && InRange(queue, |tasks|)
    && Distinct(order + queue)
    && forall i :: 0 <= i < |tasks| ==> (indegree[i] == 0 <==> i in order + queue)
  }

  ghost predicate Counted(tasks: seq<TaskNode>, indegree: seq<nat>, order: seq<nat>)
    requires InRange(order, |tasks|) && |indegree| == |tasks|
  {
    forall i :: 0 <= i < |tasks| ==> indegree[i] == Unpeeled(tasks[i].deps, IdsAt(tasks, order))
  }

  lemma IdsAtSnoc(tasks: seq<TaskNode>, order: seq<nat>, n: nat)
    requires InRange(order, |tasks|) && n < |tasks|
    ensures InRange(order + [n], |tasks|)
    ensures IdsAt(tasks, order + [n]) == IdsAt(tasks, order) + {tasks[n].id}
  {
    var more := order + [n];
    assert InRange(more, |tasks|);
    forall id | id in IdsAt(tasks, order) + {tasks[n].id} ensures id in IdsAt(tasks, more) {
      if id == tasks[n].id {
        assert more[|order|] == n;
      } else {
        var k :| 0 <= k < |order| && tasks[order[k]].id == id;
        assert more[k] == order[k];
      }
    }
  }

  /** An id is among the popped ids exactly when its index was popped. */
  lemma IdsAtIndex(tasks: seq<TaskNode>, order: seq<nat>, n: nat)
    requires WellFormed(tasks) && InRange(order, |tasks|) && n < |tasks|
    ensures tasks[n].id in IdsAt(tasks, order) <==> n in order
  {
    var ids := TaskIds(tasks);
    if tasks[n].id in IdsAt(tasks, order) {
      var k :| 0 <= k < |order| && tasks[order[k]].id == tasks[n].id;
      assert ids[order[k]] == ids[n];
    }
  }

  lemma TopologicalSnoc(tasks: seq<TaskNode>, order: seq<nat>, n: nat)
    requires InRange(order, |tasks|) && n < |tasks|
    requires Topological(tasks, order)
    requires forall d :: d in tasks[n].deps ==> d in IdsAt(tasks, order)
    ensures InRange(order + [n], |tasks|) && Topological(tasks, order + [n])
  {
    var more := order + [n];
    assert InRange(more, |tasks|);
    forall k, d | 0 <= k < |more| && d in tasks[more[k]].deps
      ensures d in IdsAt(tasks, more[..k])
    {
      if k < |order| {
        assert more[..k] == order[..k];
      } else {
        assert more[..k] == order;
      }
    }
  }

  /** A full topological pop order is a rank. */
  lemma {:induction false} OrderGivesRank(tasks: seq<TaskNode>, order: seq<nat>)
    requires WellFormed(tasks)
    requires InRange(order, |tasks|) && Distinct(order)
    requires forall i: nat :: i < |tasks| ==> i in order
    requires Topological(tasks, order)
    ensures Ordered(tasks)
  {
    var rank: map<TaskId, nat> := map k | 0 <= k < |order| :: tasks[order[k]].id := PosOf(tasks, order, tasks[order[k]].id);
    forall i, d | 0 <= i < |tasks| && d in tasks[i].deps
      ensures tasks[i].id in rank && d in rank && rank[d] < rank[tasks[i].id]
    {
      assert (i as nat) in order;
      var k :| 0 <= k < |order| && order[k] == i;
      assert d in IdsAt(tasks, order[..k]);
      var j :| 0 <= j < k && tasks[order[..k][j]].id == d;
      assert tasks[order[j]].id == d;
      PosOfIs(tasks, order, k);
      PosOfIs(tasks, order, j);
    }
    assert IsRank(tasks, rank);
  }

  ghost function PosOf(tasks: seq<TaskNode>, order: seq<nat>, id: TaskId): (k: nat)
    requires InRange(order, |tasks|)
    requires exists k :: 0 <= k < |order| && tasks[order[k]].id == id
    ensures k < |order| && tasks[order[k]].id == id
  {
    var k :| 0 <= k < |order| && tasks[order[k]].id == id;
    k
  }

  lemma PosOfIs(tasks: seq<TaskNode>, order: seq<nat>, k: nat)
    requires WellFormed(tasks) && InRange(order, |tasks|) && Distinct(order) && k < |order|
    ensures PosOf(tasks, order, tasks[order[k]].id) == k
  {
    var j := PosOf(tasks, order, tasks[order[k]].id);
    var ids := TaskIds(tasks);
    assert ids[order[j]] == ids[order[k]];
  }

  // ---------------------------------------------------------------------
  // Pigeonhole facts about index lists
  // ---------------------------------------------------------------------

  lemma NonEmptyNeedsRange(s: seq<nat>, n: nat)
    requires |s| > 0 && InRange(s, n)
    ensures n > 0
  {
    assert s[0] < n;
  }

  lemma DistinctPrefix(a: seq<nat>, b: seq<nat>)
    requires Distinct(a + b)
    ensures Distinct(a)
  {
    forall i, j | 0 <= i < j < |a| ensures a[i] != a[j] {
      assert (a + b)[i] != (a + b)[j];
    }
  }

  lemma {:induction false} DistinctIndexCount(s: seq<nat>, n: nat)
    requires Distinct(s) && InRange(s, n)
    ensures |s| <= n
    ensures |s| == n ==> forall i :: 0 <= i < n ==> i in s
    decreases n
  {
    if n == 0 {
      if |s| > 0 {
        NonEmptyNeedsRange(s, n);
      }
    } else if n - 1 in s {
      var k :| 0 <= k < |s| && s[k] == n - 1;
      var t := s[..k] + s[k + 1..];
      forall j | 0 <= j < |t| ensures t[j] < n - 1 {
        assert t[j] == s[if j < k then j else j + 1];
      }
      DistinctIndexCount(t, n - 1);
      if |s| == n {
        forall i | 0 <= i < n ensures i in s {
          if i < n - 1 {
            assert i in t;
          }
        }
      }
    } else {
      DistinctIndexCount(s, n - 1);
    }
  }

  /** A list with a value missing is shorter than the range. */
  lemma {:induction false} MissingIndex(s: seq<nat>, n: nat)
    requires Distinct(s) && InRange(s, n) && |s| < n
    ensures exists i :: 0 <= i < n && i !in s
  {
    if forall i :: 0 <= i < n ==> i in s {
      var all: seq<nat> := seq(n, i => i);
      NotLonger(all, s);
    }
  }

  /** Distinct values that all occur in a list are no more than its entries. */
  lemma {:induction false} NotLonger(all: seq<nat>, s: seq<nat>)
    requires Distinct(all) && forall k :: 0 <= k < |all| ==> all[k] in s
    ensures |all| <= |s|
    decreases |all|
  {
    if |all| > 0 {
      var x := all[0];
      var k :| 0 <= k < |s| && s[k] == x;
      var t := s[..k] + s[k + 1..];
      forall j | 0 <= j < |all[1..]| ensures all[1..][j] in t {
        var y := all[j + 1];
        assert y != all[0] && y in s;
        var m :| 0 <= m < |s| && s[m] == y;
        assert t[if m < k then m else m - 1] == y;
      }
      NotLonger(all[1..], t);
    }
  }

  // ---------------------------------------------------------------------
  // The builder
  // ---------------------------------------------------------------------

  /** First position at which a predecessor list is rejected. */
  ghost predicate FirstBadDep(id: TaskId, deps: seq<TaskId>, k: nat) {
    && k < |deps|
    && (deps[k] == id || deps[k] in deps[..k])
    && Distinct(deps[..k]) && id !in deps[..k]
  }

  /** The first unknown predecessor, in insertion order of tasks and edges. */
  ghost predicate FirstUnknown(tasks: seq<TaskNode>, i: nat, j: nat) {
    && i < |tasks| && j < |tasks[i].deps|
    && tasks[i].deps[j] !in TaskIds(tasks)
    && AllKnownBefore(tasks, i)
    && forall k :: 0 <= k < j ==> tasks[i].deps[k] in TaskIds(tasks)
  }

  ghost predicate AllKnownBefore(tasks: seq<TaskNode>, n: nat)
    requires n <= |tasks|
  {
    forall i, d :: 0 <= i < n && d in tasks[i].deps ==> d in TaskIds(tasks)
  }

  class WorkflowBuilder {
    var tasks: seq<TaskNode>

    ghost predicate Valid()
      reads this
    {
      WellFormed(tasks)
    }

    constructor ()
      ensures Valid() && tasks == []
    {
      tasks := [];
    }

    method AddTask(id: TaskId, deps: seq<TaskId>, interrupt: EffectCertainty)
      returns (r: Result<(), WorkflowError>)
      requires Valid()
      modifies this
      ensures Valid()
      ensures r.Ok? <==> id != "" && id !in TaskIds(old(tasks)) && id !in deps && Distinct(deps)
      ensures r.Ok? ==> tasks == old(tasks) + [TaskNode(id, deps, interrupt)]
      ensures r.Err? ==> tasks == old(tasks)
      ensures r.Err? ==>
        || (r.error == EmptyTaskId && id == "")
        || (r.error == DuplicateTask(id) && id != "" && id in TaskIds(old(tasks)))
        || (id != "" && id !in TaskIds(old(tasks)) &&
            exists k: nat ::
              FirstBadDep(id, deps, k) &&
              r.error == if deps[k] == id then SelfDependency(id) else DuplicateEdge(id, deps[k]))
    {
      if id == "" {
        return Err(EmptyTaskId);
      }
      if id in TaskIds(tasks) {
        return Err(DuplicateTask(id));
      }
      var seen: set<TaskId> := {};
      var depsOut: seq<TaskId> := [];
      for k := 0 to |deps|
        invariant depsOut == deps[..k]
        invariant forall d :: d in seen <==> d in deps[..k]
        invariant Distinct(deps[..k]) && id !in deps[..k]
        invariant tasks == old(tasks)
      {
        if deps[k] == id {
          assert FirstBadDep(id, deps, k);
          return Err(SelfDependency(id));
        }
        if deps[k] in seen {
          assert FirstBadDep(id, deps, k);
          return Err(DuplicateEdge(id, deps[k]));
        }
        assert deps[..k + 1] == deps[..k] + [deps[k]];
        seen := seen + {deps[k]};
        depsOut := depsOut + [deps[k]];
      }
      assert depsOut == deps;
      tasks := tasks + [TaskNode(id, depsOut, interrupt)];
      assert TaskIds(tasks) == TaskIds(old(tasks)) + [id];
      r := Ok(());
    }

    /** Accepts exactly the graphs whose predecessors are all known and which
        have no cycle; otherwise names the first unknown predecessor or a
        simple cycle of at least two tasks. */
    method Build() returns (r: Result<Spec, WorkflowError>)
      requires Valid()
      ensures r.Ok? <==> AllKnown(tasks) && !exists c :: IsCycle(tasks, c)
      ensures r.Ok? ==> r.value == Spec(tasks) && Ordered(tasks)
      ensures r.Err? && !AllKnown(tasks) ==>
        exists i: nat, j: nat ::
          FirstUnknown(tasks, i, j) && r.error == UnknownPredecessor(tasks[i].id, tasks[i].deps[j])
      ensures r.Err? && AllKnown(tasks) ==>
        r.error.Cycle? && IsCycle(tasks, r.error.path) && Distinct(r.error.path) && |r.error.path| >= 2
    {
      var ids := TaskIds(tasks);
      var index: map<TaskId, nat> := map i | 0 <= i < |tasks| :: tasks[i].id := IndexOf(ids, tasks[i].id);
      var unknown := FindUnknown(tasks);
      if unknown.Some? {
        return Err(unknown.value);
      }
      var indegree, order := Peel(tasks);
      DistinctIndexCount(order, |tasks|);
      if |order| != |tasks| {
        var c := FindCycle(tasks, index, indegree, order);
        return Err(Cycle(c));
      }
      OrderGivesRank(tasks, order);
      forall c ensures !IsCycle(tasks, c) {
        OrderedHasNoCycle(tasks, c);
      }
      r := Ok(Spec(tasks));
    }
  }

  function IndexOf(ids: seq<TaskId>, id: TaskId): (i: nat)
    requires id in ids
    ensures i < |ids| && ids[i] == id
  {
    if ids[0] == id then 0 else 1 + IndexOf(ids[1..], id)
  }

  method FindUnknown(tasks: seq<TaskNode>) returns (r: Option<WorkflowError>)
    ensures r.None? <==> AllKnown(tasks)
    ensures r.Some? ==>
      exists i: nat, j: nat ::
        FirstUnknown(tasks, i, j) && r.value == UnknownPredecessor(tasks[i].id, tasks[i].deps[j])
  {
    for i := 0 to |tasks|
      invariant AllKnownBefore(tasks, i)
    {
      for j := 0 to |tasks[i].deps|
        invariant forall k :: 0 <= k < j ==> tasks[i].deps[k] in TaskIds(tasks)
      {
        if tasks[i].deps[j] !in TaskIds(tasks) {
          assert FirstUnknown(tasks, i, j);
          return Some(UnknownPredecessor(tasks[i].id, tasks[i].deps[j]));
        }
      }
    }
    r := None;
  }

  /** Kahn peeling with a stack. Returns the final indegrees and the pop order. */
  method Peel(tasks: seq<TaskNode>) returns (indegree: array<nat>, order: seq<nat>)
    requires WellFormed(tasks)
    ensures fresh(indegree) && indegree.Length == |tasks|
    ensures InRange(order, |tasks|) && Distinct(order) && Topological(tasks, order)
    ensures Counted(tasks, indegree[..], order)
    ensures forall i: nat :: i < |tasks| ==> (indegree[i] == 0 <==> i in order)
  {
    var n := |tasks|;
    indegree := new nat[n];
    var queue: seq<nat> := [];
    order := [];
    for i := 0 to n
      invariant InRange(queue, i) && Distinct(queue)
      invariant forall k: nat :: k < i ==> indegree[k] == |tasks[k].deps|
      invariant forall k: nat :: k < i ==> (indegree[k] == 0 <==> k in queue)
    {
      indegree[i] := |tasks[i].deps|;
      if indegree[i] == 0 {
        queue := queue + [i];
      }
    }
    assert IdsAt(tasks, order) == {};
    forall i | 0 <= i < n ensures indegree[i] == Unpeeled(tasks[i].deps, {}) {
      UnpeeledStart(tasks[i].deps);
    }
    assert order + queue == queue;
    while queue != []
      invariant fresh(indegree) && indegree.Length == n
      invariant Partitioned(tasks, indegree[..], queue, order)
      invariant Counted(tasks, indegree[..], order)
      invariant Topological(tasks, order)
      decreases n - |order|
    {
      var top := queue[|queue| - 1];
      queue := PopAndRelax(tasks, indegree, queue, order);
      order := order + [top];
      DistinctPrefix(order, queue);
      DistinctIndexCount(order, n);
    }
    assert order + queue == order;
    assert Distinct(order);
  }

  /** One iteration: pop the top of the stack and lower its dependents. */
  method PopAndRelax(tasks: seq<TaskNode>, indegree: array<nat>, queue: seq<nat>, ghost order: seq<nat>)
    returns (queue': seq<nat>)
    requires WellFormed(tasks) && indegree.Length == |tasks| && queue != []
    requires Partitioned(tasks, indegree[..], queue, order)
    requires Counted(tasks, indegree[..], order)
    requires Topological(tasks, order)
    modifies indegree
    ensures var top := queue[|queue| - 1];
      && top < |tasks| && InRange(order + [top], |tasks|)
      && Partitioned(tasks, indegree[..], queue', order + [top])
      && Counted(tasks, indegree[..], order + [top])
      && Topological(tasks, order + [top])
  {
    var n := queue[|queue| - 1];
    queue' := queue[..|queue| - 1];
    ghost var more := order + [n];
    ghost var before := indegree[..];
    PopFacts(tasks, before, queue, order);
    ghost var peeled := IdsAt(tasks, order);
    ghost var rest := queue';
    for i := 0 to |tasks|
      invariant forall k :: i <= k < |tasks| ==> indegree[k] == before[k]
      invariant forall k :: 0 <= k < i ==> indegree[k] == Unpeeled(tasks[k].deps, peeled + {tasks[n].id})
      invariant InRange(queue', |tasks|) && Distinct(more + queue')
      invariant forall k: nat :: k < i ==> (indegree[k] == 0 <==> k in more + queue')
      invariant forall k: nat :: i <= k < |tasks| ==> (k in more + queue' <==> k in more + rest)
    {
      UnpeeledStep(tasks[i].deps, peeled, tasks[n].id);
      if tasks[n].id in tasks[i].deps {
        assert before[i] != 0;
        assert i !in more + rest;
        indegree[i] := indegree[i] - 1;
        if indegree[i] == 0 {
          assert more + (queue' + [i]) == (more + queue') + [i];
          queue' := queue' + [i];
        }
      }
    }
  }

  lemma PopFacts(tasks: seq<TaskNode>, indegree: seq<nat>, queue: seq<nat>, order: seq<nat>)
    requires WellFormed(tasks) && |indegree| == |tasks| && queue != []
    requires Partitioned(tasks, indegree, queue, order)
    requires Counted(tasks, indegree, order)
    requires Topological(tasks, order)
    ensures var n := queue[|queue| - 1]; var rest := queue[..|queue| - 1]; var more := order + [n];
      && n < |tasks| && n !in order
      && tasks[n].id !in IdsAt(tasks, order)
      && InRange(more, |tasks|) && Topological(tasks, more)
      && IdsAt(tasks, more) == IdsAt(tasks, order) + {tasks[n].id}
      && InRange(rest, |tasks|) && Distinct(more + rest)
      && (forall i: nat :: i < |tasks| ==> (indegree[i] == 0 <==> i in more + rest))
  {
    var n := queue[|queue| - 1];
    var rest := queue[..|queue| - 1];
    var all := order + queue;
    assert all[|all| - 1] == n;
    forall k | 0 <= k < |order| ensures order[k] != n {
      assert all[k] == order[k];
    }
    IdsAtIndex(tasks, order, n);
    assert n in all && indegree[n] == 0;
    UnpeeledZero(tasks[n].deps, IdsAt(tasks, order));
    TopologicalSnoc(tasks, order, n);
    IdsAtSnoc(tasks, order, n);
    var now := order + [n] + rest;
    forall j | 0 <= j < |now|
      ensures now[j] == all[if j < |order| then j else if j == |order| then |all| - 1 else j - 1]
    {}
    assert Distinct(now);
    assert forall i: nat :: i in now <==> i in all by {
      assert all == order + rest + [n];
    }
  }

  // ---------------------------------------------------------------------
  // Reporting a cycle
  // ---------------------------------------------------------------------

  /** `path` walks from dependents to predecessors, through unpeeled nodes, without repeats. */
  ghost predicate Walk(tasks: seq<TaskNode>, indegree: seq<nat>, path: seq<nat>)
    requires |indegree| == |tasks|
  {
    && |path| > 0 && InRange(path, |tasks|) && Distinct(path)
    && (forall k :: 0 <= k < |path| ==> indegree[path[k]] > 0)
    && forall k :: 0 <= k < |path| - 1 ==> tasks[path[k + 1]].id in tasks[path[k]].deps
  }

  method FindCycle(tasks: seq<TaskNode>, index: map<TaskId, nat>, indegree: array<nat>, ghost order: seq<nat>)
    returns (cycle: seq<TaskId>)
    requires WellFormed(tasks) && AllKnown(tasks) && indegree.Length == |tasks|
    requires forall i :: 0 <= i < |tasks| ==> tasks[i].id in index && index[tasks[i].id] == i
    requires InRange(order, |tasks|) && Distinct(order) && |order| < |tasks|
    requires Counted(tasks, indegree[..], order)
    requires forall i: nat :: i < |tasks| ==> (indegree[i] == 0 <==> i in order)
    ensures IsCycle(tasks, cycle) && Distinct(cycle) && |cycle| >= 2
  {
    var start := FirstUnpeeled(indegree);
    MissingIndex(order, |tasks|);
    assert start < |tasks|;
    var path: seq<nat> := [start];
    var cur := start;
    while true
      invariant Walk(tasks, indegree[..], path) && cur == path[|path| - 1]
      decreases |tasks| - |path|
    {
      var next := NextUnpeeled(tasks, index, indegree, cur, order);
      var pos := Position(path, next);
      if pos < |path| {
        CycleFromWalk(tasks, indegree[..], path, pos, next);
        cycle := ReversedIds(tasks, path[pos..]);
        return;
      }
      DistinctIndexCount(path + [next], |tasks|);
      path := path + [next];
      cur := next;
    }
  }

  /** `unwrap_or(0)`: the number of nodes when none is unpeeled. */
  method FirstUnpeeled(indegree: array<nat>) returns (i: nat)
    ensures i <= indegree.Length
    ensures i < indegree.Length ==> indegree[i] > 0
    ensures forall k :: 0 <= k < i ==> indegree[k] == 0
  {
    i := 0;
    while i < indegree.Length && indegree[i] == 0
      invariant i <= indegree.Length
      invariant forall k :: 0 <= k < i ==> indegree[k] == 0
    {
      i := i + 1;
    }
  }

  /** The first predecessor of an unpeeled node that is itself unpeeled; there always is one. */
  method NextUnpeeled(tasks: seq<TaskNode>, index: map<TaskId, nat>, indegree: array<nat>, cur: nat, ghost order: seq<nat>)
    returns (next: nat)
    requires WellFormed(tasks) && AllKnown(tasks) && indegree.Length == |tasks|
    requires forall i :: 0 <= i < |tasks| ==> tasks[i].id in index && index[tasks[i].id] == i
    requires InRange(order, |tasks|)
    requires Counted(tasks, indegree[..], order)
    requires forall i: nat :: i < |tasks| ==> (indegree[i] == 0 <==> i in order)
    requires cur < |tasks| && indegree[cur] > 0
    ensures next < |tasks| && indegree[next] > 0 && tasks[next].id in tasks[cur].deps
  {
    var deps := tasks[cur].deps;
    var ids := TaskIds(tasks);
    UnpeeledZero(deps, IdsAt(tasks, order));
    ghost var open :| open in deps && open !in IdsAt(tasks, order);
    var k := 0;
    while k < |deps|
      invariant k <= |deps|
      invariant open in deps[k..]
    {
      assert deps[k] in ids;
      var i := index[deps[k]];
      IdsAtIndex(tasks, order, i);
      if indegree[i] > 0 {
        return i;
      }
      assert deps[k..] == [deps[k]] + deps[k + 1..];
      k := k + 1;
    }
    assert false;
  }

  method Position(path: seq<nat>, x: nat) returns (pos: nat)
    ensures pos <= |path|
    ensures pos < |path| ==> path[pos] == x
    ensures pos == |path| ==> x !in path
    ensures x !in path[..pos]
  {
    pos := 0;
    while pos < |path| && path[pos] != x
      invariant pos <= |path| && x !in path[..pos]
    {
      pos := pos + 1;
    }
  }

  function ReversedIds(tasks: seq<TaskNode>, path: seq<nat>): (ids: seq<TaskId>)
    requires InRange(path, |tasks|)
    ensures |ids| == |path|
    ensures forall k :: 0 <= k < |path| ==> ids[k] == tasks[path[|path| - 1 - k]].id
  {
    seq(|path|, k requires 0 <= k < |path| && InRange(path, |tasks|) => tasks[path[|path| - 1 - k]].id)
  }

  lemma {:induction false} CycleFromWalk(tasks: seq<TaskNode>, indegree: seq<nat>, path: seq<nat>, pos: nat, next: nat)
    requires WellFormed(tasks) && |indegree| == |tasks|
    requires Walk(tasks, indegree, path)
    requires pos < |path| && path[pos] == next
    requires tasks[next].id in tasks[path[|path| - 1]].deps
    ensures InRange(path[pos..], |tasks|)
    ensures var c := ReversedIds(tasks, path[pos..]);
      IsCycle(tasks, c) && Distinct(c) && |c| >= 2
  {
    var tail := path[pos..];
    var c := ReversedIds(tasks, tail);
    var ids := TaskIds(tasks);
    assert |path| - 1 != pos;
    forall k | 0 <= k < |c| - 1 ensures Precedes(tasks, c[k], c[k + 1]) {
      var m := |path| - 2 - k;
      assert tasks[path[m + 1]].id in tasks[path[m]].deps;
      assert c[k] == tasks[path[m + 1]].id && c[k + 1] == tasks[path[m]].id;
    }
    assert Precedes(tasks, c[|c| - 1], c[0]);
    forall i, j | 0 <= i < j < |c| ensures c[i] != c[j] {
      var a, b := tail[|tail| - 1 - i], tail[|tail| - 1 - j];
      assert a == path[|path| - 1 - i] && b == path[|path| - 1 - j];
      assert ids[a] != ids[b];
    }
  }
}
