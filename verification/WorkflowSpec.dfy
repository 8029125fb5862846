/**
 Task graphs: what a caller describes, what counts as a cycle, and why a
 graph without one can be ordered.
 */
module WorkflowSpec {
  import opened Failure

  type TaskId = string

  /** A task body is represented by the one answer the executor asks it for
      outside of running it: the certainty to record when it is interrupted. */
  datatype TaskNode = TaskNode(id: TaskId, deps: seq<TaskId>, interrupt: EffectCertainty)

  datatype Spec = Spec(tasks: seq<TaskNode>)

  datatype WorkflowError =
    | EmptyTaskId
    | DuplicateTask(id: TaskId)
    | UnknownPredecessor(task: TaskId, predecessor: TaskId)
    | DuplicateEdge(task: TaskId, predecessor: TaskId)
    | SelfDependency(id: TaskId)
    | Cycle(path: seq<TaskId>)
    | InvalidConfig

  ghost predicate Distinct<T(!new)>(s: seq<T>) {
    forall i, j :: 0 <= i < j < |s| ==> s[i] != s[j]
  }

  function TaskIds(tasks: seq<TaskNode>): (ids: seq<TaskId>)
    ensures |ids| == |tasks|
    ensures forall i :: 0 <= i < |tasks| ==> ids[i] == tasks[i].id
  {
    seq(|tasks|, i requires 0 <= i < |tasks| => tasks[i].id)
  }

  /** What `add_task` guarantees of every task list it has built. */
  ghost predicate WellFormed(tasks: seq<TaskNode>) {
    && Distinct(TaskIds(tasks))
    && forall i :: 0 <= i < |tasks| ==>
         tasks[i].id != "" && Distinct(tasks[i].deps) && tasks[i].id !in tasks[i].deps
  }

  ghost predicate AllKnown(tasks: seq<TaskNode>) {
    forall i, d :: 0 <= i < |tasks| && d in tasks[i].deps ==> d in TaskIds(tasks)
  }

  /** `a` is a direct predecessor of `b`. */
  ghost predicate Precedes(tasks: seq<TaskNode>, a: TaskId, b: TaskId) {
    exists i :: 0 <= i < |tasks| && tasks[i].id == b && a in tasks[i].deps
  }

  /** A closed walk in dependency order: each task is a predecessor of the
      next one, and the last is a predecessor of the first. */
  ghost predicate IsCycle(tasks: seq<TaskNode>, c: seq<TaskId>) {
    && |c| > 0
    && (forall k :: 0 <= k < |c| - 1 ==> Precedes(tasks, c[k], c[k + 1]))
    && Precedes(tasks, c[|c| - 1], c[0])
  }

  /** `rank` puts every task strictly above its predecessors. */
  ghost predicate IsRank(tasks: seq<TaskNode>, rank: map<TaskId, nat>) {
    forall i, d :: 0 <= i < |tasks| && d in tasks[i].deps ==>
      tasks[i].id in rank && d in rank && rank[d] < rank[tasks[i].id]
  }

  ghost predicate Ordered(tasks: seq<TaskNode>) {
    exists rank :: IsRank(tasks, rank)
  }

  /** An ordered graph has no cycle: ranks climb along a walk and cannot
      come back to where they started. */
  lemma {:induction false} OrderedHasNoCycle(tasks: seq<TaskNode>, c: seq<TaskId>)
    requires Ordered(tasks)
    ensures !IsCycle(tasks, c)
  {
    if IsCycle(tasks, c) {
      var rank :| IsRank(tasks, rank);
      RankClimbs(tasks, rank, c, |c| - 1);
    }
  }

  lemma {:induction false} RankClimbs(tasks: seq<TaskNode>, rank: map<TaskId, nat>, c: seq<TaskId>, k: nat)
    requires IsRank(tasks, rank) && k < |c|
    requires Precedes(tasks, c[|c| - 1], c[0])
    requires forall j :: 0 <= j < |c| - 1 ==> Precedes(tasks, c[j], c[j + 1])
    ensures c[0] in rank && c[k] in rank && rank[c[0]] <= rank[c[k]]
    ensures c[|c| - 1] in rank && rank[c[|c| - 1]] < rank[c[0]]
  {
    if k > 0 {
      RankClimbs(tasks, rank, c, k - 1);
      assert Precedes(tasks, c[k - 1], c[k - 1 + 1]);
    }
  }
}
