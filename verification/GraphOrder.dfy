/**
 The same question for all scripts, answered on the graph: one permit fixes the order of
 every undisturbed run exactly if of any two tasks one depends on the other.
 */
module GraphOrder {
  import opened Wrappers
  import opened WorkflowSpec
  import opened WorkflowLedger
  import opened WorkflowMachine
  import opened WorkflowReport
  import opened SequentialReference
  import opened CoordinatorRounds
  import opened CoordinatorFacts
  import opened RoundFacts
  import opened SingleOrder

  /** Of any two tasks one is an ancestor of the other. */
  ghost predicate TotalOrder(p: Plan) {
    forall a, b :: a in p.nodes && b in p.nodes && a != b ==> StrictAncestor(p, a, b) || StrictAncestor(p, b, a)
  }

  // ---------------------------------------------------------------------
  // In a total order no two tasks are ready at once
  // ---------------------------------------------------------------------

  predicate Advanced(n: Name) {
    n == NReady || n == NRunning || n == NCompleted
  }

  /** Whoever is ready, runs or has completed has completed predecessors. */
  lemma {:induction false} DepDone(p: Plan, ev: seq<WorkflowEvent>, id: TaskId, d: TaskId)
    requires LegalLog(p, ev) && id in p.nodes && d in p.nodes[id].deps && Advanced(NameAfter(ev, id))
    ensures NameAfter(ev, d) == NCompleted
  {
    var n := |ev| - 1;
    var past, e := ev[..n], ev[n];
    LegalLogPrefix(p, ev, n);
    assert LegalEvent(p, past, e) && ev == past + [e];
    NameAfterSnoc(past, e, id);
    NameAfterSnoc(past, e, d);
    if e.taskId != Some(id) || e.state != NReady {
      DepDone(p, past, id, d);
    }
  }

  lemma {:induction false} AncestorDone(p: Plan, ev: seq<WorkflowEvent>, path: seq<TaskId>)
    requires LegalLog(p, ev) && |path| >= 2 && Chain(p, path) && Advanced(NameAfter(ev, path[|path| - 1]))
    ensures NameAfter(ev, path[0]) == NCompleted
  {
    var n := |path| - 1;
    assert path[n - 1] in p.nodes[path[n - 1 + 1]].deps;
    DepDone(p, ev, path[n], path[n - 1]);
    if n > 1 {
      AncestorDone(p, ev, path[..n]);
    }
  }

  lemma RelatedNotBothReady(p: Plan, ev: seq<WorkflowEvent>, a: TaskId, b: TaskId)
    requires LegalLog(p, ev) && StrictAncestor(p, a, b) && NameAfter(ev, b) == NReady
    ensures NameAfter(ev, a) != NReady
  {
    var path :| ChainFromTo(p, path, a, b);
    AncestorDone(p, ev, path);
  }

  lemma {:induction false} OrderedNeverTwo(p: Plan, out: TaskId -> Finish, ev: seq<WorkflowEvent>, rounds: nat)
    requires ValidPlan(p) && TotalOrder(p) && LegalLog(p, ev)
    ensures NeverTwoReady(p, out, ev, rounds)
    decreases rounds
  {
    hide ValidPlan, LegalLog, Propagated, ReadyIds, RanOne, StrictAncestor;
    var x := Position(ev, {});
    var r, s := Propagated(p, ev), ToStart(p, x);
    PropagatedIsFixed(p, ev);
    ToStartFacts(p, x);
    if |s| >= 2 {
      NotBoth(p, r, s[0], s[1]);
    }
    if s != [] && rounds > 0 {
      RanOneLegal(p, out, x);
      OrderedNeverTwo(p, out, RanOne(p, out, ev, s[0]), rounds - 1);
    }
  }

  lemma NotBoth(p: Plan, ev: seq<WorkflowEvent>, a: TaskId, b: TaskId)
    requires TotalOrder(p) && LegalLog(p, ev) && a in p.nodes && b in p.nodes && a != b
    ensures NameAfter(ev, a) != NReady || NameAfter(ev, b) != NReady
  {
    hide LegalLog, StrictAncestor, NameAfter;
    if NameAfter(ev, a) == NReady == NameAfter(ev, b) {
      if StrictAncestor(p, a, b) {
        RelatedNotBothReady(p, ev, a, b);
      } else {
        RelatedNotBothReady(p, ev, b, a);
      }
    }
  }

  // ---------------------------------------------------------------------
  // If no two tasks are ever ready at once, the graph is a total order
  // ---------------------------------------------------------------------

  /** The script by which every task completes. */
  function Completes(id: TaskId): Finish {
    Outcome(Done(""))
  }

  ghost predicate NoBad(ev: seq<WorkflowEvent>) {
    forall x :: !BadName(NameAfter(ev, x))
  }

  lemma PropagateNoBad(p: Plan, ev: seq<WorkflowEvent>, id: TaskId)
    requires NoBad(ev)
    ensures NoBad(PropagateOne(p, ev, id))
  {
    forall x ensures !BadName(NameAfter(PropagateOne(p, ev, id), x)) {
      NameAfterSnoc(ev, WorkflowEvent(|ev| + 1, Some(id), NReady), x);
    }
  }

  lemma {:induction false} PassNoBad(p: Plan, ev: seq<WorkflowEvent>, ids: seq<TaskId>)
    requires NoBad(ev)
    ensures NoBad(Pass(p, ev, ids))
    decreases ids
  {
    if ids != [] {
      hide NoBad;
      PropagateNoBad(p, ev, ids[0]);
      PassNoBad(p, PropagateOne(p, ev, ids[0]), ids[1..]);
    }
  }

  lemma {:induction false} PassesNoBad(p: Plan, ev: seq<WorkflowEvent>, rounds: nat)
    requires NoBad(ev)
    ensures NoBad(Passes(p, ev, rounds))
    decreases rounds
  {
    if rounds > 0 {
      hide NoBad;
      PassNoBad(p, ev, p.ids);
      PassesNoBad(p, Pass(p, ev, p.ids), rounds - 1);
    }
  }

  /** `ran` is the tasks run so far, each a predecessor of the next. */
  ghost predicate Linked(p: Plan, ran: seq<TaskId>) {
    && Distinct(ran)
    && (forall k :: 0 <= k < |ran| ==> ran[k] in p.nodes)
    && forall k :: 0 <= k < |ran| - 1 ==> ran[k] in p.nodes[ran[k + 1]].deps
  }

  /** Exactly the tasks in `ran` have completed, the others are pending. */
  ghost predicate RanExactly(p: Plan, ev: seq<WorkflowEvent>, ran: seq<TaskId>) {
    forall x :: NameAfter(ev, x) == if x in ran then NCompleted else NPending
  }

  /** A task that has not run waited for more than the tasks before the last one. */
  ghost predicate AllWaited(p: Plan, ran: seq<TaskId>) {
    ran != [] ==> forall x :: x in p.nodes && x !in ran ==> WaitsBeyond(p, x, ran[..|ran| - 1])
  }

  ghost predicate WaitsBeyond(p: Plan, x: TaskId, ran: seq<TaskId>)
    requires x in p.nodes
  {
    exists d :: d in p.nodes[x].deps && d !in ran
  }

  /** A task that propagation leaves pending still waits. */
  lemma LeftPending(p: Plan, ev: seq<WorkflowEvent>, x: TaskId)
    requires x in p.nodes && PropagateOne(p, ev, x) == ev && NameAfter(ev, x) == NPending
    ensures !DoneDeps(p, ev, x)
  {
    hide NameAfter;
  }

  lemma ReadyDepsDone(p: Plan, ev: seq<WorkflowEvent>, x: TaskId)
    requires ValidPlan(p) && LegalLog(p, ev) && x in p.nodes && NameAfter(ev, x) == NReady
    ensures DoneDeps(p, ev, x)
  {
    hide LegalLog, NameAfter, ValidPlan;
    forall d | d in p.nodes[x].deps ensures NameAfter(ev, d) == NCompleted {
      DepDone(p, ev, x, d);
    }
  }

  lemma WaitsByNames(p: Plan, ev: seq<WorkflowEvent>, ran: seq<TaskId>, x: TaskId)
    requires x in p.nodes && forall d :: d in p.nodes[x].deps ==> (NameAfter(ev, d) == NCompleted <==> d in ran)
    ensures DoneDeps(p, ev, x) <==> !WaitsBeyond(p, x, ran)
  {
    hide NameAfter;
  }

  lemma NameIfNoBad(ev: seq<WorkflowEvent>, x: TaskId)
    requires NoBad(ev)
    ensures NameAfter(ev, x) != NSkipped
  {
    hide NameAfter;
    assert !BadName(NameAfter(ev, x));
  }

  /** After propagation a task is ready exactly if all it waits for has run. */
  lemma ReadyExactly(p: Plan, ev: seq<WorkflowEvent>, ran: seq<TaskId>, x: TaskId)
    requires ValidPlan(p) && LegalLog(p, ev) && RanExactly(p, ev, ran) && x in p.nodes
    ensures NameAfter(Propagated(p, ev), x) ==
      if x in ran then NCompleted else if WaitsBeyond(p, x, ran) then NPending else NReady
  {
    hide LegalLog, Propagated, NameAfter, ValidPlan, PropagateOne, DoneDeps, WaitsBeyond, NoBad;
    var r := Propagated(p, ev);
    AfterPropagation(p, ev, ran, x);
    forall d | d in p.nodes[x].deps ensures NameAfter(r, d) == NCompleted <==> d in ran {
      AfterPropagation(p, ev, ran, d);
    }
    WaitsByNames(p, r, ran, x);
    if NameAfter(r, x) == NReady {
      ReadyDepsDone(p, r, x);
    } else if NameAfter(r, x) == NPending {
      LeftPending(p, r, x);
    }
  }

  /** Propagation readies some of the tasks that have not run. */
  lemma AfterPropagation(p: Plan, ev: seq<WorkflowEvent>, ran: seq<TaskId>, x: TaskId)
    requires ValidPlan(p) && LegalLog(p, ev) && RanExactly(p, ev, ran)
    ensures var r := Propagated(p, ev);
      && LegalLog(p, r)
      && (x in p.nodes ==> PropagateOne(p, r, x) == r)
      && if x in ran then NameAfter(r, x) == NCompleted else NameAfter(r, x) == NPending || NameAfter(r, x) == NReady
  {
    assert x in p.nodes ==> x in p.ids;
    hide LegalLog, Passes, NameAfter, ValidPlan, PropagateOne;
    PropagatedIsFixed(p, ev);
    NoBadAtFirst(p, ev, ran);
    hide NoBad;
    PassesNoBad(p, ev, |p.ids| + 1);
    PassesMove(p, ev, |p.ids| + 1, x);
    NameIfNoBad(Propagated(p, ev), x);
  }

  lemma NoBadAtFirst(p: Plan, ev: seq<WorkflowEvent>, ran: seq<TaskId>)
    requires RanExactly(p, ev, ran)
    ensures NoBad(ev)
  {
    hide NameAfter;
  }

  /** One more task has run. */
  lemma OneMoreRan(p: Plan, ev: seq<WorkflowEvent>, ran: seq<TaskId>, t: TaskId)
    requires ValidPlan(p) && LegalLog(p, ev) && Linked(p, ran) && RanExactly(p, ev, ran) && AllWaited(p, ran)
    requires ToStart(p, Position(ev, {})) == [t]
    ensures Linked(p, ran + [t]) && AllWaited(p, ran + [t])
    ensures RanExactly(p, RanOne(p, Completes, ev, t), ran + [t]) && LegalLog(p, RanOne(p, Completes, ev, t))
  {
    hide ValidPlan, LegalLog, Propagated, ReadyIds;
    var x := Position(ev, {});
    ToStartFacts(p, x);
    assert t in ToStart(p, x);
    ReadyExactly(p, ev, ran, t);
    RanOneLegal(p, Completes, x);
    forall z | z in p.nodes && z !in ran + [t] ensures WaitsBeyond(p, z, ran) {
      assert z !in ToStart(p, x);
      ReadyExactly(p, ev, ran, z);
    }
    assert (ran + [t])[..|ran|] == ran;
    NamesAfterRun(p, ev, ran, t);
    LinkedOn(p, ran, t);
  }

  lemma LinkedOn(p: Plan, ran: seq<TaskId>, t: TaskId)
    requires Linked(p, ran) && AllWaited(p, ran) && t in p.nodes && t !in ran && !WaitsBeyond(p, t, ran)
    ensures Linked(p, ran + [t])
  {
    if ran != [] {
      var d :| d in p.nodes[t].deps && d !in ran[..|ran| - 1];
      OnlyLast(ran, d);
    }
  }

  lemma OnlyLast(ran: seq<TaskId>, d: TaskId)
    requires d in ran && d !in ran[..|ran| - 1]
    ensures d == ran[|ran| - 1]
  {
    assert ran == ran[..|ran| - 1] + [ran[|ran| - 1]];
  }

  lemma NamesAfterRun(p: Plan, ev: seq<WorkflowEvent>, ran: seq<TaskId>, t: TaskId)
    requires ValidPlan(p) && LegalLog(p, ev) && RanExactly(p, ev, ran) && ToStart(p, Position(ev, {})) == [t]
    ensures RanExactly(p, RanOne(p, Completes, ev, t), ran + [t])
  {
    hide LegalLog, Passes, ReadyIds;
    var r, x := Propagated(p, ev), Position(ev, {});
    var mid := Enter(r, t, NRunning);
    ToStartFacts(p, x);
    forall z ensures NameAfter(RanOne(p, Completes, ev, t), z) == if z in ran + [t] then NCompleted else NPending {
      NameAfterSnoc(r, WorkflowEvent(|r| + 1, Some(t), NRunning), z);
      NameAfterSnoc(mid, WorkflowEvent(|mid| + 1, Some(t), NCompleted), z);
      if z in p.nodes {
        ReadyExactly(p, ev, ran, z);
        assert z != t ==> z !in ToStart(p, x);
      } else {
        StrangerKeepsName(p, ev, z);
      }
    }
  }

  lemma StrangerKeepsName(p: Plan, ev: seq<WorkflowEvent>, z: TaskId)
    requires z !in p.nodes && LegalLog(p, ev)
    ensures NameAfter(Propagated(p, ev), z) == NPending == NameAfter(ev, z)
  {
    PropagatedIsFixed(p, ev);
    StrangerIsPending(p, ev, z);
    StrangerIsPending(p, Propagated(p, ev), z);
  }

  lemma {:induction false} StrangerIsPending(p: Plan, ev: seq<WorkflowEvent>, z: TaskId)
    requires z !in p.nodes && LegalLog(p, ev)
    ensures NameAfter(ev, z) == NPending
  {
    if ev != [] {
      var n := |ev| - 1;
      LegalLogPrefix(p, ev, n);
      assert LegalEvent(p, ev[..n], ev[n]);
      StrangerIsPending(p, ev[..n], z);
    }
  }

  /** When nothing is ready, everything has run. */
  lemma {:induction false} NothingLeft(p: Plan, ran: seq<TaskId>, x: TaskId)
    requires ValidPlan(p) && x in p.nodes && forall z :: z in p.nodes && z !in ran ==> WaitsBeyond(p, z, ran)
    ensures x in ran
    decreases Rank(p)[x]
  {
    if x !in ran {
      var d :| d in p.nodes[x].deps && d !in ran;
      NothingLeft(p, ran, d);
    }
  }

  lemma {:induction false} DistinctElems(s: seq<TaskId>)
    requires Distinct(s)
    ensures |Elems(s)| == |s|
  {
    if s != [] {
      var n := |s| - 1;
      DistinctElems(s[..n]);
      assert s[n] !in s[..n];
      assert Elems(s) == Elems(s[..n]) + {s[n]};
    } else {
      NoElems(s);
    }
  }

  lemma NoMoreThanAll(p: Plan, ran: seq<TaskId>)
    requires ValidPlan(p) && Linked(p, ran)
    ensures |ran| <= |p.ids|
  {
    DistinctElems(ran);
    DistinctElems(p.ids);
    assert Elems(ran) <= Elems(p.ids);
    SubsetSize(Elems(ran), Elems(p.ids));
  }

  /** Following the schedule of the script by which all complete lines up all tasks. */
  lemma {:induction false} LinesUpAll(p: Plan, ev: seq<WorkflowEvent>, ran: seq<TaskId>, left: nat) returns (all: seq<TaskId>)
    requires ValidPlan(p) && LegalLog(p, ev) && Linked(p, ran) && RanExactly(p, ev, ran) && AllWaited(p, ran)
    requires |ran| + left == |p.ids| && NeverTwoReady(p, Completes, ev, left)
    ensures Linked(p, all) && forall x :: x in p.nodes ==> x in all
    decreases left
  {
    hide ValidPlan, LegalLog, Linked, RanExactly, AllWaited, Propagated, ReadyIds, RanOne;
    var s := ToStart(p, Position(ev, {}));
    if s == [] {
      all := ran;
      forall z | z in p.nodes && z !in ran ensures WaitsBeyond(p, z, ran) {
        ToStartFacts(p, Position(ev, {}));
        ReadyExactly(p, ev, ran, z);
      }
      forall x | x in p.nodes ensures x in ran {
        NothingLeft(p, ran, x);
      }
    } else {
      assert s == [s[0]];
      OneMoreRan(p, ev, ran, s[0]);
      NoMoreThanAll(p, ran + [s[0]]);
      all := LinesUpAll(p, RanOne(p, Completes, ev, s[0]), ran + [s[0]], left - 1);
    }
  }

  lemma LineIsOrder(p: Plan, all: seq<TaskId>, i: nat, j: nat)
    requires Linked(p, all) && i < j < |all|
    ensures StrictAncestor(p, all[i], all[j])
  {
    var path := all[i..j + 1];
    forall k | 0 <= k < |path| - 1 ensures path[k] in p.nodes[path[k + 1]].deps {
      assert all[i + k] in p.nodes[all[i + k + 1]].deps;
    }
    assert ChainFromTo(p, path, all[i], all[j]);
  }

  lemma NeverTwoOrders(p: Plan)
    requires ValidPlan(p) && NeverTwoReady(p, Completes, [], |p.ids|)
    ensures TotalOrder(p)
  {
    hide ValidPlan, StrictAncestor, NeverTwoReady;
    var all := LinesUpAll(p, [], [], |p.ids|);
    forall a, b | a in p.nodes && b in p.nodes && a != b ensures StrictAncestor(p, a, b) || StrictAncestor(p, b, a) {
      var i :| 0 <= i < |all| && all[i] == a;
      var j :| 0 <= j < |all| && all[j] == b;
      if i < j {
        LineIsOrder(p, all, i, j);
      } else {
        LineIsOrder(p, all, j, i);
      }
    }
  }

  // ---------------------------------------------------------------------
  // The exact condition
  // ---------------------------------------------------------------------

  /** With one permit, whatever the bodies answer, every undisturbed course of rounds leaves behind the
      log of the sequential scheduler. */
  ghost predicate OrderIsFixed(p: Plan, c: Config) {
    forall out: TaskId -> Finish, log ::
      PossibleScript(c, out) && RoundLog(p, 1, false, out, log) ==> log == SequentialLog(p, out, [], |p.ids|)
  }

  /** One permit fixes the order if and only if the graph is a total order. */
  lemma GraphFixesOrderExactly(p: Plan, c: Config)
    requires ValidPlan(p)
    ensures OrderIsFixed(p, c) <==> TotalOrder(p)
  {
    hide ValidPlan, TotalOrder, RoundLog, NeverTwoReady, SequentialLog;
    if TotalOrder(p) {
      forall out: TaskId -> Finish, log | PossibleScript(c, out) && RoundLog(p, 1, false, out, log)
        ensures log == SequentialLog(p, out, [], |p.ids|)
      {
        OrderedNeverTwo(p, out, [], |p.ids|);
        SequentialIfSingle(p, false, out, log);
      }
    }
    if OrderIsFixed(p, c) {
      assert PossibleScript(c, Completes);
      ScriptFixesOrderExactly(p, Completes);
      NeverTwoOrders(p);
    }
  }
}
