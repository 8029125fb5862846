/**
 From an accepted specification to the plan a run works from.
 */
module WorkflowPlan {
  import opened WorkflowSpec
  import opened WorkflowLedger

  function PlanOf(spec: Spec): Plan
    requires WellFormed(spec.tasks)
  {
    Plan(TaskIds(spec.tasks), map i | 0 <= i < |spec.tasks| :: spec.tasks[i].id := NodeAt(spec.tasks, spec.tasks[i].id))
  }

  function NodeAt(tasks: seq<TaskNode>, id: TaskId): (n: TaskNode)
    requires id in TaskIds(tasks)
    ensures n in tasks && n.id == id
  {
    if tasks[0].id == id then tasks[0]
    else
      assert TaskIds(tasks)[1..] == TaskIds(tasks[1..]);
      NodeAt(tasks[1..], id)
  }

  /** The lookup table finds each task under its own id. */
  lemma NodesAreTasks(spec: Spec, i: nat)
    requires WellFormed(spec.tasks) && i < |spec.tasks|
    ensures var p := PlanOf(spec);
      p.ids[i] == spec.tasks[i].id && p.ids[i] in p.nodes && p.nodes[p.ids[i]] == spec.tasks[i]
  {
    var p, tasks := PlanOf(spec), spec.tasks;
    assert tasks[i].id in p.nodes;
    var n := NodeAt(tasks, tasks[i].id);
    var k :| 0 <= k < |tasks| && tasks[k] == n;
    assert TaskIds(tasks)[k] == TaskIds(tasks)[i];
  }

  lemma NodeIndex(spec: Spec, id: TaskId) returns (i: nat)
    requires WellFormed(spec.tasks) && id in PlanOf(spec).nodes
    ensures i < |spec.tasks| && spec.tasks[i].id == id && PlanOf(spec).nodes[id] == spec.tasks[i]
  {
    i :| i < |spec.tasks| && spec.tasks[i].id == id;
    NodesAreTasks(spec, i);
  }

  lemma EdgeClimbs(spec: Spec, rank: map<TaskId, nat>, id: TaskId, d: TaskId)
    requires WellFormed(spec.tasks) && AllKnown(spec.tasks) && IsRank(spec.tasks, rank)
    requires id in PlanOf(spec).nodes && d in PlanOf(spec).nodes[id].deps
    ensures d in PlanOf(spec).nodes && id in rank && d in rank && rank[d] < rank[id]
  {
    hide WellFormed;
    var i := NodeIndex(spec, id);
    assert d in spec.tasks[i].deps;
    assert d in TaskIds(spec.tasks);
    var j :| 0 <= j < |TaskIds(spec.tasks)| && TaskIds(spec.tasks)[j] == d;
    NodesAreTasks(spec, j);
  }

  function FullRank(p: Plan, rank: map<TaskId, nat>): map<TaskId, nat> {
    map id | id in p.nodes :: if id in rank then rank[id] else 0
  }

  lemma PlanClimbs(spec: Spec, rank: map<TaskId, nat>)
    requires WellFormed(spec.tasks) && AllKnown(spec.tasks) && IsRank(spec.tasks, rank)
    ensures Climbs(PlanOf(spec), FullRank(PlanOf(spec), rank))
    ensures forall id, d :: id in PlanOf(spec).nodes && d in PlanOf(spec).nodes[id].deps ==> d in PlanOf(spec).nodes
  {
    hide WellFormed, AllKnown, IsRank, PlanOf;
    var p := PlanOf(spec);
    forall id, d | id in p.nodes && d in p.nodes[id].deps
      ensures d in p.nodes && id in rank && d in rank && rank[d] < rank[id]
    {
      EdgeClimbs(spec, rank, id, d);
    }
  }

  lemma PlanShape(spec: Spec)
    requires WellFormed(spec.tasks)
    ensures var p := PlanOf(spec);
      Distinct(p.ids) && |p.ids| == |spec.tasks| && forall id :: id in p.ids <==> id in p.nodes
  {
    var p := PlanOf(spec);
    forall id ensures id in p.ids <==> id in p.nodes {
      if id in p.nodes {
        var i := NodeIndex(spec, id);
        assert p.ids[i] == id;
      }
      if id in p.ids {
        var i :| 0 <= i < |p.ids| && p.ids[i] == id;
        NodesAreTasks(spec, i);
      }
    }
  }

  /** Whatever the builder accepts is a plan the executor's guarantees apply to. */
  lemma BuiltIsValid(spec: Spec)
    requires WellFormed(spec.tasks) && AllKnown(spec.tasks) && Ordered(spec.tasks)
    ensures ValidPlan(PlanOf(spec)) && |PlanOf(spec).ids| == |spec.tasks|
  {
    hide WellFormed, AllKnown, IsRank, Climbs, PlanOf;
    PlanShape(spec);
    var rank :| IsRank(spec.tasks, rank);
    PlanClimbs(spec, rank);
  }
}
