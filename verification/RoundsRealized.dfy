/**
 Every course of rounds is possible: some run of the transition system has exactly its log.
 In that run each body ends, and returns its permit, as soon as it was started.
 */
module RoundsRealized {
  import opened WorkflowSpec
  import opened WorkflowLedger
  import opened WorkflowMachine
  import opened WorkflowReport
  import opened ScheduleIndependence
  import opened SequentialReference
  import opened CoordinatorRounds
  import opened CoordinatorFacts
  import opened RoundFacts
  import opened SingleOrder
  import opened GraphOrder

  /** The machine stands at `x`, every open body has ended, and all permits are back. */
  ghost predicate AtRest(c: Config, s: State, x: Position) {
    && s.led.events == x.log && s.bodies.Keys == x.open
    && (forall id :: id in s.bodies ==> s.bodies[id].Ended?)
    && s.available == c.maxParallel && !s.runCancel && !s.cancelSeen
  }

  ghost predicate Reached(p: Plan, c: Config, out: TaskId -> Finish, tr: seq<State>, x: Position) {
    GoodRun(p, c, out, tr) && |tr| > 0 && AtRest(c, Last(tr), x)
  }

  /** A step that only writes the ledger. */
  lemma OneMove(p: Plan, c: Config, out: TaskId -> Finish, tr: seq<State>, x: Position, a: Action) returns (more: seq<State>)
    requires Reached(p, c, out, tr, x) && Last(tr).led.seqNo == |x.log|
    requires (a.Skip? || a.MakeReady?) && Enabled(p, c, Last(tr), a)
    ensures Reached(p, c, out, more, Position(Enter(x.log, a.id, if a.Skip? then NSkipped else NReady), x.open))
  {
    var t := Next(p, c, Last(tr), a);
    GoodRunSnoc(p, c, out, tr, t, a);
    more := tr + [t];
  }

  lemma RealizeOne(p: Plan, c: Config, out: TaskId -> Finish, tr: seq<State>, x: Position, id: TaskId) returns (more: seq<State>)
    requires ValidPlan(p) && Reached(p, c, out, tr, x) && id in p.ids
    ensures Reached(p, c, out, more, Position(PropagateOne(p, x.log, id), x.open))
  {
    hide ValidPlan, GoodRun, BadDep, DoneDeps, FirstBad, AllCompletedDeps, Next;
    TaskKnown(p, c, out, tr, id);
    more := tr;
    if NameAfter(x.log, id) == NPending {
      if BadDep(p, x.log, id) {
        more := OneMove(p, c, out, tr, x, Skip(id, 0));
      } else if DoneDeps(p, x.log, id) {
        NoBadDep(p, Last(tr).led, id);
        more := OneMove(p, c, out, tr, x, MakeReady(id));
      }
    }
  }

  lemma NoBadDep(p: Plan, l: Ledger, id: TaskId)
    requires TaskFacts(p, l, id) && !BadDep(p, l.events, id)
    ensures FirstBad(p.nodes[id].deps, l.states).None?
  {
  }

  lemma {:induction false} RealizePass(p: Plan, c: Config, out: TaskId -> Finish, tr: seq<State>, x: Position, ids: seq<TaskId>)
    returns (more: seq<State>)
    requires ValidPlan(p) && Reached(p, c, out, tr, x) && forall id :: id in ids ==> id in p.ids
    ensures Reached(p, c, out, more, Position(Pass(p, x.log, ids), x.open))
    decreases ids
  {
    more := tr;
    if ids != [] {
      hide ValidPlan, Reached, PropagateOne;
      more := RealizeOne(p, c, out, tr, x, ids[0]);
      more := RealizePass(p, c, out, more, Position(PropagateOne(p, x.log, ids[0]), x.open), ids[1..]);
    }
  }

  lemma {:induction false} RealizePasses(p: Plan, c: Config, out: TaskId -> Finish, tr: seq<State>, x: Position, rounds: nat)
    returns (more: seq<State>)
    requires ValidPlan(p) && Reached(p, c, out, tr, x)
    ensures Reached(p, c, out, more, Position(Passes(p, x.log, rounds), x.open))
    decreases rounds
  {
    more := tr;
    if rounds > 0 {
      hide ValidPlan, Reached, Pass;
      more := RealizePass(p, c, out, tr, x, p.ids);
      more := RealizePasses(p, c, out, more, Position(Pass(p, x.log, p.ids), x.open), rounds - 1);
    }
  }

  /** A ready task is started, spawned, and its body ends. */
  lemma RealizeStart(p: Plan, c: Config, out: TaskId -> Finish, tr: seq<State>, x: Position, id: TaskId) returns (more: seq<State>)
    requires ValidPlan(p) && Reached(p, c, out, tr, x) && id in p.ids && NameAfter(x.log, id) == NReady
    requires c.maxParallel >= 1 && PossibleScript(c, out)
    ensures Reached(p, c, out, more, Position(Enter(x.log, id, NRunning), x.open + {id}))
  {
    hide ValidPlan, GoodRun;
    ReadyKnown(p, c, out, tr, id);
    var s := Last(tr);
    var s1 := Next(p, c, s, Start(id));
    GoodRunSnoc(p, c, out, tr, s1, Start(id));
    var s2 := Next(p, c, s1, Spawn(id));
    GoodRunSnoc(p, c, out, tr + [s1], s2, Spawn(id));
    var s3 := Next(p, c, s2, BodyEnds(id, out(id)));
    GoodRunSnoc(p, c, out, tr + [s1] + [s2], s3, BodyEnds(id, out(id)));
    more := tr + [s1] + [s2] + [s3];
  }

  lemma ReadyKnown(p: Plan, c: Config, out: TaskId -> Finish, tr: seq<State>, id: TaskId)
    requires ValidPlan(p) && GoodRun(p, c, out, tr) && id in p.ids && NameAfter(Last(tr).led.events, id) == NReady
    ensures id in p.nodes && id in Last(tr).led.states && Last(tr).led.states[id].Ready?
    ensures Last(tr).led.seqNo == |Last(tr).led.events|
  {
    TaskKnown(p, c, out, tr, id);
  }

  lemma {:induction false} RealizeStarts(p: Plan, c: Config, out: TaskId -> Finish, tr: seq<State>, x: Position, s: seq<TaskId>)
    returns (more: seq<State>)
    requires ValidPlan(p) && Reached(p, c, out, tr, x) && c.maxParallel >= 1 && PossibleScript(c, out)
    requires Distinct(s) && forall id :: id in s ==> id in p.ids && NameAfter(x.log, id) == NReady
    ensures Reached(p, c, out, more, Position(StartAll(x.log, s), x.open + Elems(s)))
  {
    hide ValidPlan, Reached, PossibleScript, NameAfter, Enter;
    if s == [] {
      NoElems(s);
      assert x.open + {} == x.open;
      more := tr;
    } else {
      var n := |s| - 1;
      var before := Position(StartAll(x.log, s[..n]), x.open + Elems(s[..n]));
      more := RealizeStarts(p, c, out, tr, x, s[..n]);
      StartAllNames(x.log, s[..n], s[n]);
      assert s[n] !in s[..n];
      more := RealizeStart(p, c, out, more, before, s[n]);
      assert x.open + Elems(s[..n]) + {s[n]} == x.open + Elems(s);
    }
  }

  lemma RealizeJoin(p: Plan, c: Config, out: TaskId -> Finish, tr: seq<State>, x: Position, id: TaskId) returns (more: seq<State>)
    requires ValidPlan(p) && Reached(p, c, out, tr, x) && id in x.open
    ensures Reached(p, c, out, more, Position(Enter(x.log, id, FinishName(out(id))), x.open - {id}))
  {
    hide ValidPlan, GoodRun, SettleChange;
    JoinKnown(p, c, out, tr, id);
    var s := Last(tr);
    SettleName(c, s.led, id, s.bodies[id].finish, p.nodes[id].interrupt, 0);
    var t := Next(p, c, s, Join(id, 0));
    GoodRunSnoc(p, c, out, tr, t, Join(id, 0));
    more := tr + [t];
  }

  lemma RealizeRound(p: Plan, c: Config, out: TaskId -> Finish, tr: seq<State>, x: Position, y: Position, calm: bool)
    returns (more: seq<State>)
    requires ValidPlan(p) && Reached(p, c, out, tr, x) && c.maxParallel >= 1 && PossibleScript(c, out)
    requires JoinRound(p, c.maxParallel, calm, out, x, y)
    ensures Reached(p, c, out, more, y)
  {
    hide ValidPlan, Reached, PossibleScript, JoinRound, NameAfter, Enter, Passes, StartAll, ReadyIds;
    var k, id := RoundWitness(p, c.maxParallel, calm, out, x, y);
    var s := ToStart(p, x);
    ToStartFacts(p, x);
    forall z | z in s[..k] ensures z in p.ids && z in s {
      NodesAreIds(p, z);
    }
    more := RealizePasses(p, c, out, tr, x, |p.ids| + 1);
    more := RealizeStarts(p, c, out, more, Position(Propagated(p, x.log), x.open), s[..k]);
    more := RealizeJoin(p, c, out, more, AfterStarts(p, x, k), id);
  }

  lemma {:induction false} RealizeRounds(p: Plan, c: Config, out: TaskId -> Finish, calm: bool, xs: seq<Position>, i: nat)
    returns (tr: seq<State>)
    requires ValidPlan(p) && Rounds(p, c.maxParallel, calm, out, xs) && i < |xs| && c.maxParallel >= 1 && PossibleScript(c, out)
    ensures Reached(p, c, out, tr, xs[i])
  {
    hide ValidPlan, Reached, PossibleScript, JoinRound;
    if i == 0 {
      tr := ReachedStart(p, c, out);
    } else {
      tr := RealizeRounds(p, c, out, calm, xs, i - 1);
      assert JoinRound(p, c.maxParallel, calm, out, xs[i - 1], xs[i - 1 + 1]);
      tr := RealizeRound(p, c, out, tr, xs[i - 1], xs[i], calm);
    }
  }

  lemma ReachedStart(p: Plan, c: Config, out: TaskId -> Finish) returns (tr: seq<State>)
    ensures Reached(p, c, out, tr, START)
  {
    tr := [Init(p, c)];
    assert ScriptedRun(p, c, out, tr);
  }

  /** Each log of a course of rounds is that of a finished, undisturbed, scripted run of the machine. */
  lemma RoundLogIsRun(p: Plan, c: Config, out: TaskId -> Finish, calm: bool, log: seq<WorkflowEvent>) returns (tr: seq<State>)
    requires ValidPlan(p) && c.maxParallel >= 1 && PossibleScript(c, out) && RoundLog(p, c.maxParallel, calm, out, log)
    ensures FinishedRun(p, c, tr) && ScriptedRun(p, c, out, tr) && !Last(tr).runCancel && Last(tr).led.events == log
  {
    hide ValidPlan, PossibleScript, JoinRound, Passes, ReadyIds;
    var xs: seq<Position> :| RoundsTo(p, c.maxParallel, calm, out, xs, log);
    var x := xs[|xs| - 1];
    tr := RealizeRounds(p, c, out, calm, xs, |xs| - 1);
    tr := RealizePasses(p, c, out, tr, x, |p.ids| + 1);
    RoundsInOrder(p, c.maxParallel, calm, out, xs, |xs| - 1);
    Settles(p, c, out, tr, x);
  }

  lemma Settles(p: Plan, c: Config, out: TaskId -> Finish, tr: seq<State>, x: Position)
    requires ValidPlan(p) && InOrder(p, x) && x.open == {} && ToStart(p, x) == []
    requires Reached(p, c, out, tr, Position(Propagated(p, x.log), {}))
    ensures Quiet(p, Last(tr))
  {
    hide ValidPlan, GoodRun, LegalLog, NameAfter, ReadyIds, Passes;
    PropagatedIsPassed(p, x.log);
    FixpointKnown(p, c, out, tr);
    BodiesKnown(p, c, out, tr);
    StatesKnown(p, c, out, tr);
    ToStartFacts(p, x);
    forall id | id in Last(tr).led.states ensures !Last(tr).led.states[id].Ready? {
      TaskKnown(p, c, out, tr, id);
      assert id !in ToStart(p, x);
    }
  }

  lemma PropagatedIsPassed(p: Plan, ev: seq<WorkflowEvent>)
    requires LegalLog(p, ev)
    ensures Pass(p, Propagated(p, ev), p.ids) == Propagated(p, ev)
  {
    TallBound(p, ev, 4);
    FixedWithin(p, ev, |p.ids|);
  }

  /** If of some two tasks neither depends on the other, a single permit leaves the order open: the script
      by which every task completes has a finished, undisturbed run of the machine, made of the
      coordinator's rounds, whose log is not the sequential one. */
  lemma OrderIsOpen(p: Plan, c: Config) returns (tr: seq<State>)
    requires ValidPlan(p) && c.maxParallel == 1 && !TotalOrder(p)
    ensures FinishedRun(p, c, tr) && ScriptedRun(p, c, Completes, tr) && !Last(tr).runCancel
    ensures RoundLog(p, 1, false, Completes, Last(tr).led.events)
    ensures Last(tr).led.events != SequentialLog(p, Completes, [], |p.ids|)
  {
    hide ValidPlan, TotalOrder, RoundLog, NeverTwoReady, SequentialLog, IsRun;
    if NeverTwoReady(p, Completes, [], |p.ids|) {
      NeverTwoOrders(p);
    }
    var log := AnotherLogIfTwo(p, Completes);
    tr := RoundLogIsRun(p, c, Completes, false, log);
  }
}
