/**
 A sequential scheduler written over logs alone: propagate in insertion
 order until nothing changes, run the first ready task to its end, repeat.
 */
module SequentialReference {
  import opened Wrappers
  import opened WorkflowSpec
  import opened WorkflowLedger
  import opened WorkflowMachine

  function Enter(ev: seq<WorkflowEvent>, id: TaskId, n: Name): seq<WorkflowEvent> {
    ev + [WorkflowEvent(|ev| + 1, Some(id), n)]
  }

  predicate BadDep(p: Plan, ev: seq<WorkflowEvent>, id: TaskId)
    requires id in p.nodes
  {
    exists d :: d in p.nodes[id].deps && BadName(NameAfter(ev, d))
  }

  predicate DoneDeps(p: Plan, ev: seq<WorkflowEvent>, id: TaskId)
    requires id in p.nodes
  {
    forall d :: d in p.nodes[id].deps ==> NameAfter(ev, d) == NCompleted
  }

  /** What propagation does with one task. */
  function PropagateOne(p: Plan, ev: seq<WorkflowEvent>, id: TaskId): seq<WorkflowEvent> {
    if id !in p.nodes || NameAfter(ev, id) != NPending then ev
    else if BadDep(p, ev, id) then Enter(ev, id, NSkipped)
    else if DoneDeps(p, ev, id) then Enter(ev, id, NReady)
    else ev
  }

  function Pass(p: Plan, ev: seq<WorkflowEvent>, ids: seq<TaskId>): seq<WorkflowEvent>
    decreases ids
  {
    if ids == [] then ev else Pass(p, PropagateOne(p, ev, ids[0]), ids[1..])
  }

  /** `rounds` passes over all tasks. */
  function Passes(p: Plan, ev: seq<WorkflowEvent>, rounds: nat): seq<WorkflowEvent>
    decreases rounds
  {
    if rounds == 0 then ev else Passes(p, Pass(p, ev, p.ids), rounds - 1)
  }

  /** Position `i` holds a ready task and no earlier one does. */
  predicate IsFirstReady(ev: seq<WorkflowEvent>, ids: seq<TaskId>, i: int) {
    0 <= i < |ids| && NameAfter(ev, ids[i]) == NReady && forall k :: 0 <= k < i ==> NameAfter(ev, ids[k]) != NReady
  }

  function FirstReady(ev: seq<WorkflowEvent>, ids: seq<TaskId>): (r: Option<TaskId>)
    ensures r.Some? ==> exists i :: 0 <= i < |ids| && ids[i] == r.value && IsFirstReady(ev, ids, i)
    ensures r.None? ==> forall id :: id in ids ==> NameAfter(ev, id) != NReady
  {
    if ids == [] then None
    else if NameAfter(ev, ids[0]) == NReady then
      assert IsFirstReady(ev, ids, 0);
      Some(ids[0])
    else
      var r := FirstReady(ev, ids[1..]);
      assert forall i :: 0 <= i < |ids| - 1 && IsFirstReady(ev, ids[1..], i) ==> IsFirstReady(ev, ids, i + 1);
      r
  }

  /** The name a body's end leaves behind. */
  function FinishName(f: Finish): Name {
    match f
    case Outcome(Done(_)) => NCompleted
    case Outcome(Fault(_)) => NFailed
    case Outcome(NeedsApproval) => NWaiting
    case Outcome(GaveUp) => NCancelled
    case Interrupted => NCancelled
    case TimedOut => NFailed
    case Panicked => NFailed
  }

  /** The log after at most `rounds` task executions, starting from `ev`. */
  function SequentialLog(p: Plan, out: TaskId -> Finish, ev: seq<WorkflowEvent>, rounds: nat): seq<WorkflowEvent>
    decreases rounds
  {
    var ready := Passes(p, ev, |p.ids| + 1);
    var next := FirstReady(ready, p.ids);
    if next.None? || rounds == 0 then ready
    else
      SequentialLog(p, out, Enter(Enter(ready, next.value, NRunning), next.value, FinishName(out(next.value))), rounds - 1)
  }

  // ---------------------------------------------------------------------
  // Facts about passes
  // ---------------------------------------------------------------------

  lemma {:induction false} PassGrows(p: Plan, ev: seq<WorkflowEvent>, ids: seq<TaskId>)
    ensures ev <= Pass(p, ev, ids)
    ensures Pass(p, ev, ids) == ev ==> forall id :: id in ids ==> PropagateOne(p, ev, id) == ev
    decreases ids
  {
    if ids != [] {
      PassGrows(p, PropagateOne(p, ev, ids[0]), ids[1..]);
    }
  }

  /** A pass never returns a task to Pending. */
  lemma {:induction false} PassLeavesPending(p: Plan, ev: seq<WorkflowEvent>, ids: seq<TaskId>, x: TaskId)
    requires NameAfter(ev, x) != NPending
    ensures NameAfter(Pass(p, ev, ids), x) != NPending
    decreases ids
  {
    if ids != [] {
      PropagateLeavesPending(p, ev, ids[0], x);
      PassLeavesPending(p, PropagateOne(p, ev, ids[0]), ids[1..], x);
    }
  }

  lemma PropagateLeavesPending(p: Plan, ev: seq<WorkflowEvent>, id: TaskId, x: TaskId)
    ensures NameAfter(ev, x) != NPending ==> NameAfter(PropagateOne(p, ev, id), x) != NPending
    ensures PropagateOne(p, ev, id) != ev ==>
      NameAfter(ev, id) == NPending && NameAfter(PropagateOne(p, ev, id), id) != NPending
  {
    NameAfterSnoc(ev, WorkflowEvent(|ev| + 1, Some(id), NSkipped), x);
    NameAfterSnoc(ev, WorkflowEvent(|ev| + 1, Some(id), NReady), x);
    NameAfterSnoc(ev, WorkflowEvent(|ev| + 1, Some(id), NSkipped), id);
    NameAfterSnoc(ev, WorkflowEvent(|ev| + 1, Some(id), NReady), id);
  }

  /** A pass that changes anything takes some task out of Pending. */
  lemma {:induction false} PassMovesSomeone(p: Plan, ev: seq<WorkflowEvent>, ids: seq<TaskId>)
    requires Pass(p, ev, ids) != ev
    ensures exists x :: x in ids && NameAfter(ev, x) == NPending && NameAfter(Pass(p, ev, ids), x) != NPending
    decreases ids
  {
    var one := PropagateOne(p, ev, ids[0]);
    if one == ev {
      PassMovesSomeone(p, ev, ids[1..]);
    } else {
      PropagateLeavesPending(p, ev, ids[0], ids[0]);
      PassLeavesPending(p, one, ids[1..], ids[0]);
    }
  }

  lemma {:induction false} PassesAtFixpoint(p: Plan, ev: seq<WorkflowEvent>, rounds: nat)
    requires Pass(p, ev, p.ids) == ev
    ensures Passes(p, ev, rounds) == ev
  {
    if rounds > 0 {
      PassesAtFixpoint(p, ev, rounds - 1);
    }
  }

  lemma {:induction false} FirstReadyAt(ev: seq<WorkflowEvent>, ids: seq<TaskId>, i: nat)
    requires i < |ids| && NameAfter(ev, ids[i]) == NReady
    requires forall k :: 0 <= k < i ==> NameAfter(ev, ids[k]) != NReady
    ensures FirstReady(ev, ids) == Some(ids[i])
  {
    if i > 0 {
      forall k | 0 <= k < i - 1 ensures NameAfter(ev, ids[1..][k]) != NReady {
        assert NameAfter(ev, ids[k + 1]) != NReady;
      }
      assert NameAfter(ev, ids[0]) != NReady;
      FirstReadyAt(ev, ids[1..], i - 1);
    }
  }
}
