/**
 When one permit fixes the order of a run: per script exactly if the sequential
 scheduler never has two tasks ready at once, and for all scripts exactly if every
 two tasks of the graph depend on one another.
 */
module SingleOrder {
  import opened Wrappers
  import opened WorkflowSpec
  import opened WorkflowLedger
  import opened WorkflowMachine
  import opened SequentialReference
  import opened CoordinatorRounds
  import opened CoordinatorFacts
  import opened RoundFacts

  /** The log after one more sequential round in which `id` runs. */
  function RanOne(p: Plan, out: TaskId -> Finish, ev: seq<WorkflowEvent>, id: TaskId): seq<WorkflowEvent> {
    Enter(Enter(Propagated(p, ev), id, NRunning), id, FinishName(out(id)))
  }

  /** Along the sequential schedule of at most `rounds` executions, no two tasks are ready at once. */
  predicate NeverTwoReady(p: Plan, out: TaskId -> Finish, ev: seq<WorkflowEvent>, rounds: nat)
    decreases rounds
  {
    var s := ReadyIds(Propagated(p, ev), p.ids);
    |s| <= 1 && (s != [] && rounds > 0 ==> NeverTwoReady(p, out, RanOne(p, out, ev, s[0]), rounds - 1))
  }

  lemma SequentialNext(p: Plan, out: TaskId -> Finish, ev: seq<WorkflowEvent>, rounds: nat)
    ensures var s := ReadyIds(Propagated(p, ev), p.ids);
      SequentialLog(p, out, ev, rounds) ==
        if s == [] || rounds == 0 then Propagated(p, ev) else SequentialLog(p, out, RanOne(p, out, ev, s[0]), rounds - 1)
  {
    hide Passes, ReadyIds, FirstReady;
    ReadyIdsFirst(Propagated(p, ev), p.ids);
  }

  // ---------------------------------------------------------------------
  // One task at a time gives the sequential log
  // ---------------------------------------------------------------------

  /** Between two rounds the course has kept to the sequential schedule, of which `left` executions remain. */
  ghost predicate OnSchedule(p: Plan, calm: bool, out: TaskId -> Finish, x: Position, left: nat) {
    && x.open == {} && InOrder(p, x) && Tall(p, x.log, 2) <= left
    && SequentialLog(p, out, x.log, left) == SequentialLog(p, out, [], |p.ids|)
    && (calm || NeverTwoReady(p, out, x.log, left))
  }

  /** With one permit, nothing open, and no more than one task to start, the round runs the first ready task. */
  lemma SingleRound(p: Plan, out: TaskId -> Finish, x: Position, y: Position, k: nat, id: TaskId)
    requires ValidPlan(p) && x.open == {} && JoinRoundBy(p, 1, out, x, y, k, id) && (k <= 1 || |ToStart(p, x)| <= 1)
    ensures ToStart(p, x) != [] && y == Position(RanOne(p, out, x.log, ToStart(p, x)[0]), {})
  {
    hide ValidPlan, Propagated, ReadyIds, Enter, FinishName;
    var s := ToStart(p, x);
    assert k == 1;
    assert s[..1] == [s[0]] && s[..1][..0] == [];
    assert Elems(s[..1]) == {s[0]};
    assert StartAll(Propagated(p, x.log), s[..1]) == Enter(StartAll(Propagated(p, x.log), s[..1][..0]), s[0], NRunning);
  }

  lemma ScheduleKept(p: Plan, calm: bool, out: TaskId -> Finish, x: Position, y: Position, left: nat)
    requires ValidPlan(p) && OnSchedule(p, calm, out, x, left) && JoinRound(p, 1, calm, out, x, y)
    ensures left > 0 && OnSchedule(p, calm, out, y, left - 1)
  {
    hide ValidPlan, InOrder, Tall, SequentialLog, RanOne, Propagated, ReadyIds;
    var k: nat, id :| JoinRoundBy(p, 1, out, x, y, k, id) && (calm ==> k <= 1);
    SingleRound(p, out, x, y, k, id);
    RoundKeepsOrder(p, 1, out, x, y, k, id);
    SequentialNext(p, out, x.log, left);
  }

  lemma {:induction false} AlwaysOnSchedule(p: Plan, calm: bool, out: TaskId -> Finish, xs: seq<Position>, i: nat)
    requires ValidPlan(p) && Rounds(p, 1, calm, out, xs) && i < |xs| && (calm || NeverTwoReady(p, out, [], |p.ids|))
    ensures i <= |p.ids| && OnSchedule(p, calm, out, xs[i], |p.ids| - i)
  {
    hide ValidPlan, JoinRound, NeverTwoReady, Tall, SequentialLog, InOrder;
    if i > 0 {
      hide OnSchedule;
      AlwaysOnSchedule(p, calm, out, xs, i - 1);
      assert JoinRound(p, 1, calm, out, xs[i - 1], xs[i - 1 + 1]);
      ScheduleKept(p, calm, out, xs[i - 1], xs[i], |p.ids| - (i - 1));
    } else {
      StartInOrder(p);
      TallBound(p, [], 2);
    }
  }

  /** With one permit, a course of rounds in which no body progresses during a start pass, or in
      which no two tasks are ever ready at once, leaves the sequential log behind. */
  lemma SequentialIfSingle(p: Plan, calm: bool, out: TaskId -> Finish, log: seq<WorkflowEvent>)
    requires ValidPlan(p) && RoundLog(p, 1, calm, out, log) && (calm || NeverTwoReady(p, out, [], |p.ids|))
    ensures log == SequentialLog(p, out, [], |p.ids|)
  {
    hide ValidPlan, JoinRound, NeverTwoReady, InOrder, Tall, SequentialLog, Propagated, ReadyIds;
    var xs: seq<Position> :| RoundsTo(p, 1, calm, out, xs, log);
    var i := |xs| - 1;
    AlwaysOnSchedule(p, calm, out, xs, i);
    SequentialNext(p, out, xs[i].log, |p.ids| - i);
  }

  // ---------------------------------------------------------------------
  // Two ready tasks give another log
  // ---------------------------------------------------------------------

  lemma RanOneIsRound(p: Plan, calm: bool, out: TaskId -> Finish, x: Position)
    requires ToStart(p, x) != [] && x.open == {}
    ensures JoinRound(p, 1, calm, out, x, Position(RanOne(p, out, x.log, ToStart(p, x)[0]), {}))
  {
    hide Propagated, ReadyIds, Enter, FinishName;
    var s := ToStart(p, x);
    var y := Position(RanOne(p, out, x.log, s[0]), {});
    assert s[..1] == [s[0]] && s[..1][..0] == [];
    assert Elems(s[..1]) == {s[0]};
    assert StartAll(Propagated(p, x.log), s[..1]) == Enter(StartAll(Propagated(p, x.log), s[..1][..0]), s[0], NRunning);
    assert JoinRoundBy(p, 1, out, x, y, 1, s[0]);
  }

  /** The sequential schedule can be followed up to a moment when two tasks are ready. */
  lemma {:induction false} FollowToTwo(p: Plan, out: TaskId -> Finish, xs: seq<Position>, left: nat)
    returns (more: seq<Position>, rest: nat)
    requires ValidPlan(p) && Rounds(p, 1, false, out, xs)
    requires OnSchedule(p, true, out, xs[|xs| - 1], left) && !NeverTwoReady(p, out, xs[|xs| - 1].log, left)
    ensures Rounds(p, 1, false, out, more) && OnSchedule(p, true, out, more[|more| - 1], rest)
    ensures |ToStart(p, more[|more| - 1])| >= 2
    decreases left
  {
    hide ValidPlan, InOrder, Tall, SequentialLog, RanOne, Propagated, ReadyIds, JoinRoundBy;
    var x := xs[|xs| - 1];
    var s := ToStart(p, x);
    if |s| >= 2 {
      more, rest := xs, left;
    } else {
      var y := Position(RanOne(p, out, x.log, s[0]), {});
      RanOneIsRound(p, false, out, x);
      RoundsSnoc(p, 1, false, out, xs, y);
      RanOneOnSchedule(p, out, x, left);
      more, rest := FollowToTwo(p, out, xs + [y], left - 1);
    }
  }

  lemma RanOneOnSchedule(p: Plan, out: TaskId -> Finish, x: Position, left: nat)
    requires ValidPlan(p) && OnSchedule(p, true, out, x, left) && ToStart(p, x) != []
    ensures left > 0 && OnSchedule(p, true, out, Position(RanOne(p, out, x.log, ToStart(p, x)[0]), {}), left - 1)
  {
    hide ValidPlan, InOrder, Tall, SequentialLog, Propagated, ReadyIds, Enter, FinishName, JoinRound;
    var s := ToStart(p, x);
    var y := Position(RanOne(p, out, x.log, s[0]), {});
    RanOneIsRound(p, true, out, x);
    ScheduleKept(p, true, out, x, y, left);
  }

  lemma RanOneLegal(p: Plan, out: TaskId -> Finish, x: Position)
    requires ValidPlan(p) && LegalLog(p, x.log) && ToStart(p, x) != []
    ensures LegalLog(p, RanOne(p, out, x.log, ToStart(p, x)[0]))
    ensures Propagated(p, x.log) <= RanOne(p, out, x.log, ToStart(p, x)[0])
  {
    hide ValidPlan, LegalLog, Propagated, ReadyIds;
    var r, id := Propagated(p, x.log), ToStart(p, x)[0];
    ToStartFacts(p, x);
    PropagatedIsFixed(p, x.log);
    EnterLegal(p, r, id, NRunning);
    NameAfterSnoc(r, WorkflowEvent(|r| + 1, Some(id), NRunning), id);
    JoinLegal(out, id);
    EnterLegal(p, Enter(r, id, NRunning), id, FinishName(out(id)));
  }

  lemma {:induction false} SequentialGrows(p: Plan, out: TaskId -> Finish, ev: seq<WorkflowEvent>, rounds: nat)
    requires ValidPlan(p) && LegalLog(p, ev)
    ensures ev <= SequentialLog(p, out, ev, rounds)
    decreases rounds
  {
    hide ValidPlan, LegalLog, SequentialLog, Propagated, ReadyIds, RanOne;
    var x := Position(ev, {});
    SequentialNext(p, out, ev, rounds);
    PropagatedIsFixed(p, ev);
    if ToStart(p, x) != [] && rounds > 0 {
      RanOneLegal(p, out, x);
      SequentialGrows(p, out, RanOne(p, out, ev, ToStart(p, x)[0]), rounds - 1);
    }
  }

  /** Start two, join the first: the second entry after propagation is no longer the first task's end. */
  lemma Deviates(p: Plan, out: TaskId -> Finish, x: Position) returns (y: Position)
    requires ValidPlan(p) && x.open == {} && |ToStart(p, x)| >= 2
    ensures JoinRound(p, 1, false, out, x, y)
    ensures var r := Propagated(p, x.log);
      |y.log| == |r| + 3 && y.log[|r| + 1].taskId == Some(ToStart(p, x)[1])
    ensures ToStart(p, x)[0] != ToStart(p, x)[1]
  {
    hide ValidPlan, Propagated, ReadyIds, FinishName;
    var s, r := ToStart(p, x), Propagated(p, x.log);
    ToStartFacts(p, x);
    var two := s[..2];
    assert two == [s[0], s[1]] && two[..1] == [s[0]] && two[..1][..0] == [];
    assert StartAll(r, two[..1]) == Enter(r, s[0], NRunning);
    assert StartAll(r, two) == Enter(Enter(r, s[0], NRunning), s[1], NRunning);
    assert Elems(two) == {s[0], s[1]} && |{s[0], s[1]}| == 2;
    y := Position(Enter(StartAll(r, two), s[0], FinishName(out(s[0]))), x.open + Elems(two) - {s[0]});
    assert JoinRoundBy(p, 1, out, x, y, 2, s[0]);
  }

  /** If the sequential schedule ever has two tasks ready at once, some course of rounds with the one
      permit stops with another log. */
  lemma AnotherLogIfTwo(p: Plan, out: TaskId -> Finish) returns (log: seq<WorkflowEvent>)
    requires ValidPlan(p) && !NeverTwoReady(p, out, [], |p.ids|)
    ensures RoundLog(p, 1, false, out, log) && log != SequentialLog(p, out, [], |p.ids|)
  {
    hide ValidPlan, InOrder, JoinRound, NeverTwoReady, SequentialLog, Propagated, ReadyIds, RanOne, Tall;
    AtStart(p, 1, true, out);
    AtStart(p, 1, false, out);
    AlwaysOnSchedule(p, true, out, [START], 0);
    var xs, left := FollowToTwo(p, out, [START], |p.ids|);
    var x := xs[|xs| - 1];
    var y := Deviates(p, out, x);
    RoundsSnoc(p, 1, false, out, xs, y);
    var more: seq<Position>;
    more, log := CanStop(p, 1, out, xs + [y]);
    assert RoundsTo(p, 1, false, out, more, log);
    NotSequential(p, out, x, left, y, log);
  }

  lemma NotSequential(p: Plan, out: TaskId -> Finish, x: Position, left: nat, y: Position, log: seq<WorkflowEvent>)
    requires ValidPlan(p) && OnSchedule(p, true, out, x, left) && |ToStart(p, x)| >= 2 && y.log <= log
    requires var r := Propagated(p, x.log);
      |y.log| == |r| + 3 && y.log[|r| + 1].taskId == Some(ToStart(p, x)[1])
    requires ToStart(p, x)[0] != ToStart(p, x)[1]
    ensures log != SequentialLog(p, out, [], |p.ids|)
  {
    hide ValidPlan, LegalLog, NeverTwoReady, SequentialLog, Propagated, ReadyIds, Tall;
    var r, one := Propagated(p, x.log), RanOne(p, out, x.log, ToStart(p, x)[0]);
    RanOneOnSchedule(p, out, x, left);
    SequentialNext(p, out, x.log, left);
    RanOneLegal(p, out, x);
    SequentialGrows(p, out, one, left - 1);
    assert one[|r| + 1].taskId == Some(ToStart(p, x)[0]);
  }

  /** Per script: with one permit every undisturbed course leaves the sequential log behind if and only
      if the sequential schedule never has two tasks ready at once. */
  lemma ScriptFixesOrderExactly(p: Plan, out: TaskId -> Finish)
    requires ValidPlan(p)
    ensures (forall log :: RoundLog(p, 1, false, out, log) ==> log == SequentialLog(p, out, [], |p.ids|))
            <==> NeverTwoReady(p, out, [], |p.ids|)
  {
    hide ValidPlan, RoundLog, NeverTwoReady, SequentialLog;
    if NeverTwoReady(p, out, [], |p.ids|) {
      forall log | RoundLog(p, 1, false, out, log) ensures log == SequentialLog(p, out, [], |p.ids|) {
        SequentialIfSingle(p, false, out, log);
      }
    } else {
      var log := AnotherLogIfTwo(p, out);
    }
  }
}
