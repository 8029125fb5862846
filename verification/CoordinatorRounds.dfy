/**
 The rounds of an undisturbed coordinator, told by logs alone and for any number of
 permits: propagate, start the ready tasks in insertion order for as long as a permit
 can be had, join one body that was started, repeat.
 */
module CoordinatorRounds {
  import opened Wrappers
  import opened WorkflowSpec
  import opened WorkflowLedger
  import opened WorkflowMachine
  import opened SequentialReference

  /** Between two rounds: the log, and the tasks started but not joined yet. */
  datatype Position = Position(log: seq<WorkflowEvent>, open: set<TaskId>)

  const START := Position([], {})

  /** The log when propagation has come to its end. */
  function Propagated(p: Plan, ev: seq<WorkflowEvent>): seq<WorkflowEvent> {
    Passes(p, ev, |p.ids| + 1)
  }

  /** The ready tasks among `ids`, in that order. */
  function ReadyIds(ev: seq<WorkflowEvent>, ids: seq<TaskId>): seq<TaskId> {
    if ids == [] then []
    else
      var n := |ids| - 1;
      ReadyIds(ev, ids[..n]) + if NameAfter(ev, ids[n]) == NReady then [ids[n]] else []
  }

  function StartAll(ev: seq<WorkflowEvent>, ids: seq<TaskId>): seq<WorkflowEvent> {
    if ids == [] then ev else Enter(StartAll(ev, ids[..|ids| - 1]), ids[|ids| - 1], NRunning)
  }

  function Elems(ids: seq<TaskId>): set<TaskId> {
    set x | x in ids
  }

  /** What a round finds to start. */
  function ToStart(p: Plan, x: Position): seq<TaskId> {
    ReadyIds(Propagated(p, x.log), p.ids)
  }

  /** After propagation and the start of the first `k` ready tasks. */
  function AfterStarts(p: Plan, x: Position, k: nat): Position
    requires k <= |ToStart(p, x)|
  {
    Position(StartAll(Propagated(p, x.log), ToStart(p, x)[..k]), x.open + Elems(ToStart(p, x)[..k]))
  }

  /** A ready task is left over only if at least as many bodies are open as there are permits.
      Any number may be started, since a body that ends early returns its permit. */
  ghost predicate MayStart(p: Plan, permits: nat, x: Position, k: nat) {
    k <= |ToStart(p, x)| && (k < |ToStart(p, x)| ==> |AfterStarts(p, x, k).open| >= permits)
  }

  /** One round that starts `k` tasks and joins the body of `id`. */
  ghost predicate JoinRoundBy(p: Plan, permits: nat, out: TaskId -> Finish, x: Position, y: Position, k: nat, id: TaskId) {
    && MayStart(p, permits, x, k) && id in AfterStarts(p, x, k).open
    && y == Position(Enter(AfterStarts(p, x, k).log, id, FinishName(out(id))), AfterStarts(p, x, k).open - {id})
  }

  /** A calm round has no body progress while it starts tasks, so it starts no more than there are permits. */
  ghost predicate JoinRound(p: Plan, permits: nat, calm: bool, out: TaskId -> Finish, x: Position, y: Position) {
    exists k: nat, id: TaskId :: JoinRoundBy(p, permits, out, x, y, k, id) && (calm ==> k <= permits)
  }

  lemma RoundWitness(p: Plan, permits: nat, calm: bool, out: TaskId -> Finish, x: Position, y: Position) returns (k: nat, id: TaskId)
    requires JoinRound(p, permits, calm, out, x, y)
    ensures JoinRoundBy(p, permits, out, x, y, k, id) && (calm ==> k <= permits)
  {
    k, id :| JoinRoundBy(p, permits, out, x, y, k, id) && (calm ==> k <= permits);
  }

  /** The last round: nothing is open and nothing is ready. */
  ghost predicate StopRound(p: Plan, x: Position, log: seq<WorkflowEvent>) {
    x.open == {} && ToStart(p, x) == [] && log == Propagated(p, x.log)
  }

  ghost predicate Rounds(p: Plan, permits: nat, calm: bool, out: TaskId -> Finish, xs: seq<Position>) {
    && xs != [] && xs[0] == START
    && forall i :: 0 <= i < |xs| - 1 ==> JoinRound(p, permits, calm, out, xs[i], xs[i + 1])
  }

  ghost predicate RoundsTo(p: Plan, permits: nat, calm: bool, out: TaskId -> Finish, xs: seq<Position>, log: seq<WorkflowEvent>) {
    Rounds(p, permits, calm, out, xs) && StopRound(p, xs[|xs| - 1], log)
  }

  /** `log` is what some undisturbed course of rounds leaves behind. */
  ghost predicate RoundLog(p: Plan, permits: nat, calm: bool, out: TaskId -> Finish, log: seq<WorkflowEvent>) {
    exists xs :: RoundsTo(p, permits, calm, out, xs, log)
  }

  lemma RoundsSnoc(p: Plan, permits: nat, calm: bool, out: TaskId -> Finish, xs: seq<Position>, y: Position)
    requires Rounds(p, permits, calm, out, xs) && JoinRound(p, permits, calm, out, xs[|xs| - 1], y)
    ensures Rounds(p, permits, calm, out, xs + [y])
  {
    hide JoinRound;
    var more := xs + [y];
    forall i | 0 <= i < |more| - 1 ensures JoinRound(p, permits, calm, out, more[i], more[i + 1]) {
      if i < |xs| - 1 {
        assert JoinRound(p, permits, calm, out, xs[i], xs[i + 1]);
      }
    }
  }

  // ---------------------------------------------------------------------
  // Ready tasks and starts
  // ---------------------------------------------------------------------

  lemma {:induction false} ReadyIdsMeaning(ev: seq<WorkflowEvent>, ids: seq<TaskId>, x: TaskId)
    ensures x in ReadyIds(ev, ids) <==> x in ids && NameAfter(ev, x) == NReady
  {
    if ids != [] {
      ReadyIdsMeaning(ev, ids[..|ids| - 1], x);
    }
  }

  lemma {:induction false} ReadyIdsDistinct(ev: seq<WorkflowEvent>, ids: seq<TaskId>)
    requires Distinct(ids)
    ensures Distinct(ReadyIds(ev, ids))
  {
    if ids != [] {
      var n := |ids| - 1;
      ReadyIdsDistinct(ev, ids[..n]);
      assert ids[n] !in ids[..n];
      ReadyIdsMeaning(ev, ids[..n], ids[n]);
    }
  }

  /** A walk over the first `i` ids meets a first part of the ready tasks. */
  lemma {:induction false} ReadyIdsPrefix(ev: seq<WorkflowEvent>, ids: seq<TaskId>, i: nat)
    requires i <= |ids|
    ensures ReadyIds(ev, ids[..i]) <= ReadyIds(ev, ids)
    decreases |ids|
  {
    if i < |ids| {
      assert ids[..|ids| - 1][..i] == ids[..i];
      ReadyIdsPrefix(ev, ids[..|ids| - 1], i);
    } else {
      assert ids[..i] == ids;
    }
  }

  lemma {:induction false} ReadyIdsFirst(ev: seq<WorkflowEvent>, ids: seq<TaskId>)
    ensures FirstReady(ev, ids) == if ReadyIds(ev, ids) == [] then None else Some(ReadyIds(ev, ids)[0])
  {
    var r := ReadyIds(ev, ids);
    if r == [] {
      forall id | id in ids ensures NameAfter(ev, id) != NReady {
        ReadyIdsMeaning(ev, ids, id);
      }
    } else {
      var i := FirstPlace(ev, ids);
      FirstReadyAt(ev, ids, i);
    }
  }

  lemma {:induction false} FirstPlace(ev: seq<WorkflowEvent>, ids: seq<TaskId>) returns (i: nat)
    requires ReadyIds(ev, ids) != []
    ensures IsFirstReady(ev, ids, i) && ids[i] == ReadyIds(ev, ids)[0]
  {
    var n := |ids| - 1;
    if ReadyIds(ev, ids[..n]) != [] {
      i := FirstPlace(ev, ids[..n]);
      assert ids[..n][i] == ids[i];
      forall k | 0 <= k < i ensures NameAfter(ev, ids[k]) != NReady {
        assert ids[..n][k] == ids[k];
      }
    } else {
      i := n;
      forall k | 0 <= k < n ensures NameAfter(ev, ids[k]) != NReady {
        ReadyIdsMeaning(ev, ids[..n], ids[k]);
        assert ids[..n][k] == ids[k];
      }
    }
  }

  lemma {:induction false} StartAllNames(ev: seq<WorkflowEvent>, ids: seq<TaskId>, x: TaskId)
    ensures NameAfter(StartAll(ev, ids), x) == if x in ids then NRunning else NameAfter(ev, x)
    ensures ev <= StartAll(ev, ids) && |StartAll(ev, ids)| == |ev| + |ids|
  {
    if ids != [] {
      var n := |ids| - 1;
      StartAllNames(ev, ids[..n], x);
      var before := StartAll(ev, ids[..n]);
      NameAfterSnoc(before, WorkflowEvent(|before| + 1, Some(ids[n]), NRunning), x);
    }
  }
}
