/**
 Under the sequential schedule at most one task runs at any moment.
 */
module OneRunning {
  import opened Wrappers
  import opened WorkflowSpec
  import opened WorkflowLedger
  import opened LedgerInvariant
  import opened WorkflowMachine
  import opened WorkflowReport
  import opened WorkflowSafety
  import opened SequentialReference
  import opened CoordinatorRounds
  import opened RoundFacts
  import opened SingleOrder

  ghost predicate NoneRuns(ev: seq<WorkflowEvent>) {
    forall x :: NameAfter(ev, x) != NRunning
  }

  ghost predicate AtMostOneRuns(ev: seq<WorkflowEvent>) {
    forall a, b :: NameAfter(ev, a) == NRunning && NameAfter(ev, b) == NRunning ==> a == b
  }

  lemma PropagateQuiet(p: Plan, ev: seq<WorkflowEvent>, id: TaskId)
    requires NoneRuns(ev)
    ensures NoneRuns(PropagateOne(p, ev, id))
  {
    forall x ensures NameAfter(PropagateOne(p, ev, id), x) != NRunning {
      PropagateMoves(p, ev, id, x);
    }
  }

  lemma {:induction false} PassQuiet(p: Plan, ev: seq<WorkflowEvent>, ids: seq<TaskId>, k: nat)
    requires NoneRuns(ev) && |ev| <= k <= |Pass(p, ev, ids)|
    ensures NoneRuns(Pass(p, ev, ids)[..k])
    decreases ids
  {
    hide NoneRuns;
    PassGrows(p, ev, ids);
    if k == |ev| {
      assert Pass(p, ev, ids)[..k] == ev;
    } else {
      PropagateQuiet(p, ev, ids[0]);
      PassQuiet(p, PropagateOne(p, ev, ids[0]), ids[1..], k);
    }
  }

  lemma {:induction false} PassesQuiet(p: Plan, ev: seq<WorkflowEvent>, rounds: nat, k: nat)
    requires LegalLog(p, ev) && NoneRuns(ev) && |ev| <= k <= |Passes(p, ev, rounds)|
    ensures NoneRuns(Passes(p, ev, rounds)[..k])
    decreases rounds
  {
    hide NoneRuns, LegalLog, Pass;
    if rounds == 0 {
      assert ev[..k] == ev;
    } else {
      var next := Pass(p, ev, p.ids);
      PassGrows(p, ev, p.ids);
      PassLegal(p, ev, p.ids);
      PassesLegal(p, next, rounds - 1);
      PassQuiet(p, ev, p.ids, |next|);
      assert next[..|next|] == next;
      if k <= |next| {
        PassQuiet(p, ev, p.ids, k);
        assert Passes(p, next, rounds - 1)[..k] == next[..k];
      } else {
        PassesQuiet(p, next, rounds - 1, k);
      }
    }
  }

  /** Between the propagated log and the end of the task that runs next. */
  lemma RanOneQuiet(p: Plan, out: TaskId -> Finish, ev: seq<WorkflowEvent>, id: TaskId, k: nat)
    requires NoneRuns(Propagated(p, ev)) && |Propagated(p, ev)| <= k <= |RanOne(p, out, ev, id)|
    ensures AtMostOneRuns(RanOne(p, out, ev, id)[..k])
    ensures NoneRuns(RanOne(p, out, ev, id))
  {
    hide Propagated, FinishName, LegalNext;
    var r, one := Propagated(p, ev), RanOne(p, out, ev, id);
    var mid := Enter(r, id, NRunning);
    JoinLegal(out, id);
    forall x
      ensures NameAfter(mid, x) == if x == id then NRunning else NameAfter(r, x)
      ensures NameAfter(one, x) == if x == id then FinishName(out(id)) else NameAfter(r, x)
    {
      NameAfterSnoc(r, WorkflowEvent(|r| + 1, Some(id), NRunning), x);
      NameAfterSnoc(mid, WorkflowEvent(|mid| + 1, Some(id), FinishName(out(id))), x);
    }
    assert one[..|r|] == r && one[..|r| + 1] == mid && one[..|r| + 2] == one;
  }

  lemma {:induction false} SequentialQuiet(p: Plan, out: TaskId -> Finish, ev: seq<WorkflowEvent>, rounds: nat, k: nat)
    requires ValidPlan(p) && LegalLog(p, ev) && NoneRuns(ev) && |ev| <= k <= |SequentialLog(p, out, ev, rounds)|
    ensures AtMostOneRuns(SequentialLog(p, out, ev, rounds)[..k])
    decreases rounds
  {
    hide ValidPlan, LegalLog, NoneRuns, SequentialLog, Passes, ReadyIds, RanOne;
    var x := Position(ev, {});
    var r, s, all := Propagated(p, ev), ToStart(p, x), SequentialLog(p, out, ev, rounds);
    SequentialNext(p, out, ev, rounds);
    SequentialGrows(p, out, ev, rounds);
    PropagatedIsFixed(p, ev);
    PassesQuiet(p, ev, |p.ids| + 1, |r|);
    assert r[..|r|] == r;
    if s != [] && rounds > 0 {
      var one := RanOne(p, out, ev, s[0]);
      RanOneLegal(p, out, x);
      SequentialGrows(p, out, one, rounds - 1);
      RanOneQuiet(p, out, ev, s[0], |one|);
      if k > |one| {
        SequentialQuiet(p, out, one, rounds - 1, k);
      } else {
        assert all[..k] == one[..k];
        if k >= |r| {
          RanOneQuiet(p, out, ev, s[0], k);
        } else {
          QuietBefore(p, ev, one, k);
        }
      }
    } else {
      QuietBefore(p, ev, all, k);
    }
  }

  lemma QuietBefore(p: Plan, ev: seq<WorkflowEvent>, after: seq<WorkflowEvent>, k: nat)
    requires LegalLog(p, ev) && NoneRuns(ev) && Propagated(p, ev) <= after && |ev| <= k <= |Propagated(p, ev)|
    ensures AtMostOneRuns(after[..k])
  {
    PassesQuiet(p, ev, |p.ids| + 1, k);
    assert after[..k] == Propagated(p, ev)[..k];
  }

  /** At every moment of the sequential schedule at most one task runs. */
  lemma OneAtATime(p: Plan, out: TaskId -> Finish, k: nat)
    requires ValidPlan(p) && k <= |SequentialLog(p, out, [], |p.ids|)|
    ensures AtMostOneRuns(SequentialLog(p, out, [], |p.ids|)[..k])
  {
    SequentialQuiet(p, out, [], |p.ids|, k);
  }

  ghost predicate OneRunningIn(s: State) {
    forall a, b :: a in s.led.states && b in s.led.states && s.led.states[a].Running? && s.led.states[b].Running? ==> a == b
  }

  /** A run that ends with the sequential log never shows two tasks as running. */
  lemma NeverTwoRunning(p: Plan, c: Config, out: TaskId -> Finish, tr: seq<State>, i: nat)
    requires ValidPlan(p) && IsRun(p, c, tr) && i < |tr| && Last(tr).led.events == SequentialLog(p, out, [], |p.ids|)
    ensures OneRunningIn(tr[i])
  {
    hide ValidPlan, SequentialLog, Step, LegalLog;
    var ev := tr[i].led.events;
    LaterFollows(p, c, tr, i, |tr| - 1);
    OneAtATime(p, out, |ev|);
    assert SequentialLog(p, out, [], |p.ids|)[..|ev|] == ev;
    AlwaysInv(p, c, tr, i);
    NamesRunning(p, tr[i]);
  }

  lemma NamesRunning(p: Plan, s: State)
    requires AtMostOneRuns(s.led.events) && Faithful(p, s.led)
    ensures OneRunningIn(s)
  {
    forall id | id in s.led.states ensures NameAfter(s.led.events, id) == NRunning <==> s.led.states[id].Running? {
      assert NameAfter(s.led.events, id) == s.led.states[id].Name();
    }
  }
}
