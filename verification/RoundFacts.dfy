/**
 What every course of rounds keeps: the log stays legal, the open tasks are those it
 shows as running, it only grows, and every round finishes one task more.
 */
module RoundFacts {
  import opened Wrappers
  import opened WorkflowSpec
  import opened WorkflowLedger
  import opened WorkflowMachine
  import opened SequentialReference
  import opened CoordinatorRounds
  import opened CoordinatorFacts
  import WorkflowReport

  // ---------------------------------------------------------------------
  // Propagation
  // ---------------------------------------------------------------------

  lemma PropagateLegal(p: Plan, ev: seq<WorkflowEvent>, id: TaskId)
    requires LegalLog(p, ev)
    ensures LegalLog(p, PropagateOne(p, ev, id))
  {
    var one := PropagateOne(p, ev, id);
    if one != ev {
      var e := one[|ev|];
      assert one == ev + [e] && LegalEvent(p, ev, e);
      LegalLogSnoc(p, ev, e);
    }
  }

  lemma {:induction false} PassLegal(p: Plan, ev: seq<WorkflowEvent>, ids: seq<TaskId>)
    requires LegalLog(p, ev)
    ensures LegalLog(p, Pass(p, ev, ids))
    decreases ids
  {
    if ids != [] {
      PropagateLegal(p, ev, ids[0]);
      PassLegal(p, PropagateOne(p, ev, ids[0]), ids[1..]);
    }
  }

  lemma {:induction false} PassesLegal(p: Plan, ev: seq<WorkflowEvent>, rounds: nat)
    requires LegalLog(p, ev)
    ensures LegalLog(p, Passes(p, ev, rounds)) && ev <= Passes(p, ev, rounds)
    decreases rounds
  {
    if rounds > 0 {
      PassLegal(p, ev, p.ids);
      PassGrows(p, ev, p.ids);
      PassesLegal(p, Pass(p, ev, p.ids), rounds - 1);
    }
  }

  lemma {:induction false} PassEntries(p: Plan, ev: seq<WorkflowEvent>, ids: seq<TaskId>, k: nat)
    requires |ev| <= k < |Pass(p, ev, ids)|
    ensures Pass(p, ev, ids)[k].taskId.Some? && Pass(p, ev, ids)[k].taskId.value in ids
    decreases ids
  {
    var one := PropagateOne(p, ev, ids[0]);
    if k < |one| {
      PassGrows(p, one, ids[1..]);
    } else {
      PassEntries(p, one, ids[1..], k);
    }
  }

  /** Within one pass of propagation tasks are readied and skipped in insertion order. */
  lemma {:induction false} PassInOrder(p: Plan, ev: seq<WorkflowEvent>, ids: seq<TaskId>, i: nat, j: nat)
    requires |ev| <= i < j < |Pass(p, ev, ids)|
    ensures Pass(p, ev, ids)[i].taskId.Some? && Pass(p, ev, ids)[j].taskId.Some?
    ensures WorkflowReport.ListedBefore(ids, Pass(p, ev, ids)[i].taskId.value, Pass(p, ev, ids)[j].taskId.value)
    decreases ids
  {
    hide WorkflowReport.ListedBefore;
    var one := PropagateOne(p, ev, ids[0]);
    PassEntries(p, ev, ids, i);
    PassEntries(p, one, ids[1..], j);
    if i < |one| {
      PassGrows(p, one, ids[1..]);
    } else {
      PassInOrder(p, one, ids[1..], i, j);
    }
    WorkflowReport.ListedBeforeTail(ids, Pass(p, ev, ids)[i].taskId.value, Pass(p, ev, ids)[j].taskId.value);
  }

  /** What a round finds to start is in insertion order, and it starts in that order. */
  lemma {:induction false} ReadyIdsInOrder(ev: seq<WorkflowEvent>, ids: seq<TaskId>, i: nat, j: nat)
    requires i < j < |ReadyIds(ev, ids)|
    ensures WorkflowReport.ListedBefore(ids, ReadyIds(ev, ids)[i], ReadyIds(ev, ids)[j])
  {
    var n, r := |ids| - 1, ReadyIds(ev, ids);
    if j < |ReadyIds(ev, ids[..n])| {
      ReadyIdsInOrder(ev, ids[..n], i, j);
      var a, b :| 0 <= a < b < n && ids[..n][a] == r[i] && ids[..n][b] == r[j];
      assert ids[a] == r[i] && ids[b] == r[j];
    } else {
      ReadyIdsMeaning(ev, ids[..n], r[i]);
      var a :| 0 <= a < n && ids[..n][a] == r[i];
      assert ids[a] == r[i] && ids[n] == r[j];
    }
  }

  lemma {:induction false} StartsAsListed(ev: seq<WorkflowEvent>, ids: seq<TaskId>, k: nat)
    requires k < |ids|
    ensures ev <= StartAll(ev, ids) && |StartAll(ev, ids)| == |ev| + |ids|
    ensures StartAll(ev, ids)[|ev| + k] == WorkflowEvent(|ev| + k + 1, Some(ids[k]), NRunning)
  {
    var n := |ids| - 1;
    StartAllNames(ev, ids[..n], ids[k]);
    if k < n {
      StartsAsListed(ev, ids[..n], k);
    }
  }

  lemma {:induction false} FixedWithin(p: Plan, ev: seq<WorkflowEvent>, rounds: nat)
    requires LegalLog(p, ev) && Tall(p, ev, 4) <= rounds
    ensures Pass(p, Passes(p, ev, rounds + 1), p.ids) == Passes(p, ev, rounds + 1)
    decreases rounds
  {
    hide Pass, Tall, LegalLog;
    var next := Pass(p, ev, p.ids);
    if next == ev {
      PassesAtFixpoint(p, ev, rounds + 1);
    } else {
      PassLegal(p, ev, p.ids);
      LongerPassLowersTall(p, ev, next);
      FixedWithin(p, next, rounds - 1);
    }
  }

  /** n + 1 passes are enough: nothing is left to propagate, for any task. */
  lemma PropagatedIsFixed(p: Plan, ev: seq<WorkflowEvent>)
    requires LegalLog(p, ev)
    ensures LegalLog(p, Propagated(p, ev)) && ev <= Propagated(p, ev)
    ensures forall id :: id in p.ids ==> PropagateOne(p, Propagated(p, ev), id) == Propagated(p, ev)
  {
    hide Pass, Tall, LegalLog, PropagateOne;
    TallBound(p, ev, 4);
    FixedWithin(p, ev, |p.ids|);
    PassesLegal(p, ev, |p.ids| + 1);
    PassGrows(p, Propagated(p, ev), p.ids);
  }

  /** Propagation moves tasks out of Pending only, and only to Ready or Skipped. */
  ghost predicate OnlyPendingMoves(ev: seq<WorkflowEvent>, after: seq<WorkflowEvent>, x: TaskId) {
    || NameAfter(after, x) == NameAfter(ev, x)
    || (NameAfter(ev, x) == NPending && (NameAfter(after, x) == NReady || NameAfter(after, x) == NSkipped))
  }

  lemma PropagateMoves(p: Plan, ev: seq<WorkflowEvent>, id: TaskId, x: TaskId)
    ensures OnlyPendingMoves(ev, PropagateOne(p, ev, id), x)
  {
    NameAfterSnoc(ev, WorkflowEvent(|ev| + 1, Some(id), NSkipped), x);
    NameAfterSnoc(ev, WorkflowEvent(|ev| + 1, Some(id), NReady), x);
  }

  lemma {:induction false} PassMoves(p: Plan, ev: seq<WorkflowEvent>, ids: seq<TaskId>, x: TaskId)
    ensures OnlyPendingMoves(ev, Pass(p, ev, ids), x)
    decreases ids
  {
    if ids != [] {
      PropagateMoves(p, ev, ids[0], x);
      PassMoves(p, PropagateOne(p, ev, ids[0]), ids[1..], x);
    }
  }

  lemma {:induction false} PassesMove(p: Plan, ev: seq<WorkflowEvent>, rounds: nat, x: TaskId)
    ensures OnlyPendingMoves(ev, Passes(p, ev, rounds), x)
    decreases rounds
  {
    if rounds > 0 {
      PassMoves(p, ev, p.ids, x);
      PassesMove(p, Pass(p, ev, p.ids), rounds - 1, x);
    }
  }

  // ---------------------------------------------------------------------
  // Starts and joins
  // ---------------------------------------------------------------------

  lemma EnterLegal(p: Plan, ev: seq<WorkflowEvent>, id: TaskId, n: Name)
    requires LegalLog(p, ev) && id in p.nodes && LegalNext(NameAfter(ev, id), n) && n != NReady && n != NSkipped
    ensures LegalLog(p, Enter(ev, id, n))
  {
    LegalLogSnoc(p, ev, WorkflowEvent(|ev| + 1, Some(id), n));
  }

  lemma {:induction false} StartAllLegal(p: Plan, ev: seq<WorkflowEvent>, ids: seq<TaskId>)
    requires LegalLog(p, ev) && Distinct(ids)
    requires forall x :: x in ids ==> x in p.nodes && NameAfter(ev, x) == NReady
    ensures LegalLog(p, StartAll(ev, ids))
  {
    if ids != [] {
      hide LegalLog, NameAfter;
      var n := |ids| - 1;
      StartAllLegal(p, ev, ids[..n]);
      StartAllNames(ev, ids[..n], ids[n]);
      assert ids[n] !in ids[..n];
      EnterLegal(p, StartAll(ev, ids[..n]), ids[n], NRunning);
    }
  }

  /** The log is legal, and open is exactly what it shows as running. */
  ghost predicate InOrder(p: Plan, x: Position) {
    LegalLog(p, x.log) && forall id :: id in x.open <==> id in p.nodes && NameAfter(x.log, id) == NRunning
  }

  lemma ToStartFacts(p: Plan, x: Position)
    requires ValidPlan(p)
    ensures Distinct(ToStart(p, x))
    ensures forall id :: id in ToStart(p, x) <==> id in p.nodes && NameAfter(Propagated(p, x.log), id) == NReady
  {
    hide Propagated;
    var ev := Propagated(p, x.log);
    ReadyIdsDistinct(ev, p.ids);
    forall id ensures id in ToStart(p, x) <==> id in p.nodes && NameAfter(ev, id) == NReady {
      ReadyIdsMeaning(ev, p.ids, id);
    }
  }

  lemma StartsInOrder(p: Plan, x: Position, k: nat)
    requires ValidPlan(p) && InOrder(p, x) && k <= |ToStart(p, x)|
    ensures InOrder(p, AfterStarts(p, x, k))
    ensures x.log <= Propagated(p, x.log) <= AfterStarts(p, x, k).log
    ensures |AfterStarts(p, x, k).log| == |Propagated(p, x.log)| + k
  {
    hide ValidPlan, LegalLog, NameAfter, StartAll, ToStart;
    var ev, s := Propagated(p, x.log), ToStart(p, x);
    PropagatedIsFixed(p, x.log);
    ToStartFacts(p, x);
    assert forall id :: id in s[..k] ==> id in s;
    StartAllLegal(p, ev, s[..k]);
    StartAllNames(ev, s[..k], "");
    forall id ensures id in AfterStarts(p, x, k).open <==> id in p.nodes && NameAfter(AfterStarts(p, x, k).log, id) == NRunning {
      StartAllNames(ev, s[..k], id);
      PassesMove(p, x.log, |p.ids| + 1, id);
    }
  }

  lemma JoinLegal(out: TaskId -> Finish, id: TaskId)
    ensures LegalNext(NRunning, FinishName(out(id))) && FinishName(out(id)) != NReady && FinishName(out(id)) != NSkipped
    ensures FinishName(out(id)) != NRunning && Height(FinishName(out(id))) < 2
  {
  }

  /** A round keeps the order, only adds to the log, and finishes one task more. */
  lemma RoundKeepsOrder(p: Plan, permits: nat, out: TaskId -> Finish, x: Position, y: Position, k: nat, id: TaskId)
    requires ValidPlan(p) && InOrder(p, x) && JoinRoundBy(p, permits, out, x, y, k, id)
    ensures InOrder(p, y) && AfterStarts(p, x, k).log <= y.log && x.log <= y.log
    ensures Tall(p, y.log, 2) < Tall(p, x.log, 2)
  {
    hide ValidPlan, LegalLog, NameAfter, AfterStarts, FinishName, Tall;
    StartsInOrder(p, x, k);
    var mid, n := AfterStarts(p, x, k), FinishName(out(id));
    JoinLegal(out, id);
    EnterLegal(p, mid.log, id, n);
    forall z ensures z in y.open <==> z in p.nodes && NameAfter(y.log, z) == NRunning {
      NameAfterSnoc(mid.log, WorkflowEvent(|mid.log| + 1, Some(id), n), z);
    }
    NameAfterSnoc(mid.log, WorkflowEvent(|mid.log| + 1, Some(id), n), id);
    NotYetFinished(p, x.log, mid.log, id);
    NodesAreIds(p, id);
    TallFalls(p, x.log, y.log, 2);
  }

  lemma NotYetFinished(p: Plan, before: seq<WorkflowEvent>, after: seq<WorkflowEvent>, id: TaskId)
    requires LegalLog(p, after) && before <= after && NameAfter(after, id) == NRunning
    ensures Height(NameAfter(before, id)) >= 2
  {
    assert before == after[..|before|] && after == after[..|after|];
    HeightFalls(p, after, |before|, |after|, id);
  }

  lemma NodesAreIds(p: Plan, id: TaskId)
    requires ValidPlan(p) && id in p.nodes
    ensures id in p.ids
  {
  }

  lemma StartInOrder(p: Plan)
    ensures InOrder(p, START)
  {
  }

  lemma NextInOrder(p: Plan, permits: nat, calm: bool, out: TaskId -> Finish, x: Position, y: Position)
    requires ValidPlan(p) && InOrder(p, x) && JoinRound(p, permits, calm, out, x, y)
    ensures InOrder(p, y) && x.log <= y.log
  {
    hide InOrder, ValidPlan, JoinRound, JoinRoundBy;
    var k, id := RoundWitness(p, permits, calm, out, x, y);
    RoundKeepsOrder(p, permits, out, x, y, k, id);
  }

  lemma {:induction false} RoundsInOrder(p: Plan, permits: nat, calm: bool, out: TaskId -> Finish, xs: seq<Position>, i: nat)
    requires ValidPlan(p) && Rounds(p, permits, calm, out, xs) && i < |xs|
    ensures InOrder(p, xs[i])
  {
    hide InOrder, ValidPlan, JoinRound;
    StartInOrder(p);
    if i > 0 {
      RoundsInOrder(p, permits, calm, out, xs, i - 1);
      assert JoinRound(p, permits, calm, out, xs[i - 1], xs[i - 1 + 1]);
      NextInOrder(p, permits, calm, out, xs[i - 1], xs[i]);
    }
  }

  // ---------------------------------------------------------------------
  // Every course can be brought to its end
  // ---------------------------------------------------------------------

  /** From any course that is under way some further rounds lead to a stop. */
  lemma {:induction false} CanStop(p: Plan, permits: nat, out: TaskId -> Finish, xs: seq<Position>)
    returns (more: seq<Position>, log: seq<WorkflowEvent>)
    requires ValidPlan(p) && Rounds(p, permits, false, out, xs)
    ensures RoundsTo(p, permits, false, out, more, log) && xs[|xs| - 1].log <= log
    decreases Tall(p, xs[|xs| - 1].log, 2)
  {
    hide InOrder, ValidPlan, ToStart, Propagated, Tall;
    var x := xs[|xs| - 1];
    RoundsInOrder(p, permits, false, out, xs, |xs| - 1);
    var s := ToStart(p, x);
    var mid := AfterStarts(p, x, |s|);
    if mid.open == {} {
      StartsInOrder(p, x, |s|);
      NoElems(s[..|s|]);
      more, log := xs, Propagated(p, x.log);
      assert StopRound(p, x, log);
    } else {
      var id :| id in mid.open;
      var y := Position(Enter(mid.log, id, FinishName(out(id))), mid.open - {id});
      assert JoinRoundBy(p, permits, out, x, y, |s|, id);
      RoundsSnoc(p, permits, false, out, xs, y);
      RoundKeepsOrder(p, permits, out, x, y, |s|, id);
      more, log := CanStop(p, permits, out, xs + [y]);
    }
  }
}
