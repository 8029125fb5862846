/**
 The workflow ledger: task states, results, failure records and the numbered
 event log, with the two ways it is written (a transition, a noted failure).
 The log alone is enough to say what a legal history is, and every legal
 move keeps the ledger faithful to its log.
 */
module WorkflowLedger {
  import opened Wrappers
  import opened Failure
  import opened WorkflowSpec

  // ---------------------------------------------------------------------
  // The plan a run works from
  // ---------------------------------------------------------------------

  /** The ids in insertion order, and the node lookup table. */
  datatype Plan = Plan(ids: seq<TaskId>, nodes: map<TaskId, TaskNode>)

  ghost predicate Climbs(p: Plan, rank: map<TaskId, nat>) {
    && rank.Keys == p.nodes.Keys
    && forall id, d :: id in p.nodes && d in p.nodes[id].deps ==> d in rank && rank[d] < rank[id]
  }

  ghost predicate ValidPlan(p: Plan) {
    && Distinct(p.ids)
    && (forall id :: id in p.ids <==> id in p.nodes)
    && (forall id, d :: id in p.nodes && d in p.nodes[id].deps ==> d in p.nodes)
    && exists rank :: Climbs(p, rank)
  }

  ghost function Rank(p: Plan): (rank: map<TaskId, nat>)
    requires ValidPlan(p)
    ensures Climbs(p, rank)
  {
    var rank :| Climbs(p, rank);
    rank
  }

  // ---------------------------------------------------------------------
  // States, names, events
  // ---------------------------------------------------------------------

  datatype TaskState =
    | Pending
    | Ready
    | Running
    | WaitingForApproval
    | Completed
    | Failed(record: FailureRecord)
    | Cancelled
    | Skipped(prerequisite: TaskId)
  {
    predicate IsTerminal() {
      Completed? || Failed? || Cancelled? || Skipped?
    }

    /** Ended without success: dependents of such a task are skipped. */
    predicate IsBad() {
      Failed? || Cancelled? || Skipped?
    }

    function Name(): Name {
      match this
      case Pending => NPending
      case Ready => NReady
      case Running => NRunning
      case WaitingForApproval => NWaiting
      case Completed => NCompleted
      case Failed(_) => NFailed
      case Cancelled => NCancelled
      case Skipped(_) => NSkipped
    }
  }

  /** The short stable names written to the log. */
  datatype Name =
    | NPending | NReady | NRunning | NWaiting
    | NCompleted | NFailed | NCancelled | NSkipped
    | NFinished

  datatype WorkflowEvent = WorkflowEvent(seqNo: nat, taskId: Option<TaskId>, state: Name)

  datatype WorkflowStatus = AllCompleted | SomeFailed | RunCancelled | AwaitingApproval

  datatype BusEvent =
    | TaskReady(workflowSeq: nat, taskId: TaskId)
    | TaskStarted(workflowSeq: nat, taskId: TaskId)
    | TaskCompleted(workflowSeq: nat, taskId: TaskId, resultDigest: string)
    | TaskWaiting(workflowSeq: nat, taskId: TaskId)
    | TaskFailed(workflowSeq: nat, taskId: TaskId, failure: FailureRecord)
    | TaskCancelled(workflowSeq: nat, taskId: TaskId)
    | TaskSkipped(workflowSeq: nat, taskId: TaskId, prerequisite: TaskId)
    | WorkflowFinished(workflowSeq: nat, status: WorkflowStatus)

  /** Tasks start out Pending and never return to it, so it has no event. */
  function EventFor(n: nat, id: TaskId, state: TaskState, result: Option<string>): Option<BusEvent> {
    match state
    case Pending => None
    case Ready => Some(TaskReady(n, id))
    case Running => Some(TaskStarted(n, id))
    case WaitingForApproval => Some(TaskWaiting(n, id))
    case Completed => Some(TaskCompleted(n, id, if result.Some? then result.value else ""))
    case Failed(r) => Some(TaskFailed(n, id, r))
    case Cancelled => Some(TaskCancelled(n, id))
    case Skipped(d) => Some(TaskSkipped(n, id, d))
  }

  datatype Ledger = Ledger(
    seqNo: nat,
    states: map<TaskId, TaskState>,
    results: map<TaskId, string>,
    failures: map<TaskId, FailureRecord>,
    events: seq<WorkflowEvent>,
    bus: seq<BusEvent>)
  {
    /** One transition: number, result, state, log entry and bus event together. */
    function Record(id: TaskId, state: TaskState, result: Option<string>): Ledger {
      Ledger(
        seqNo + 1,
        states[id := state],
        if result.Some? then results[id := result.value] else results,
        failures,
        events + [WorkflowEvent(seqNo + 1, Some(id), state.Name())],
        bus + match EventFor(seqNo + 1, id, state, result) { case None => [] case Some(e) => [e] })
    }

    function Note(id: TaskId, rec: FailureRecord): Ledger {
      this.(failures := failures[id := rec])
    }

    /** The closing entry of a run. */
    function Close(status: WorkflowStatus): Ledger {
      this.(seqNo := seqNo + 1,
            events := events + [WorkflowEvent(seqNo + 1, None, NFinished)],
            bus := bus + [WorkflowFinished(seqNo + 1, status)])
    }

    /** Optional failure note followed by the transition it explains. */
    function Move(id: TaskId, state: TaskState, result: Option<string>, rec: Option<FailureRecord>): Ledger {
      (if rec.Some? then Note(id, rec.value) else this).Record(id, state, result)
    }
  }

  function InitialStates(p: Plan): map<TaskId, TaskState> {
    map id | id in p.nodes :: Pending
  }

  function InitialLedger(p: Plan): Ledger {
    Ledger(0, InitialStates(p), map[], map[], [], [])
  }

  // ---------------------------------------------------------------------
  // Legal histories, read off the log alone
  // ---------------------------------------------------------------------

  /** The name task `id` carries after the events `ev`. */
  function NameAfter(ev: seq<WorkflowEvent>, id: TaskId): Name {
    if ev == [] then NPending
    else if ev[|ev| - 1].taskId == Some(id) then ev[|ev| - 1].state
    else NameAfter(ev[..|ev| - 1], id)
  }

  predicate LegalNext(a: Name, b: Name) {
    match a
    case NPending => b == NReady || b == NSkipped || b == NCancelled
    case NReady => b == NRunning || b == NCancelled
    case NRunning => b == NWaiting || b == NCompleted || b == NFailed || b == NCancelled
    case NWaiting => b == NCancelled
    case _ => false
  }

  predicate BadName(n: Name) {
    n == NFailed || n == NCancelled || n == NSkipped
  }

  /** Number of transitions a task can still make at most. */
  function Height(n: Name): (h: nat)
    ensures h <= 4
  {
    match n
    case NPending => 4
    case NReady => 3
    case NRunning => 2
    case NWaiting => 1
    case _ => 0
  }

  ghost predicate LegalEvent(p: Plan, past: seq<WorkflowEvent>, e: WorkflowEvent) {
    && e.seqNo == |past| + 1
    && e.taskId.Some? && e.taskId.value in p.nodes
    && var id := e.taskId.value;
    && LegalNext(NameAfter(past, id), e.state)
    && (e.state == NReady ==> forall d :: d in p.nodes[id].deps ==> NameAfter(past, d) == NCompleted)
    && (e.state == NSkipped ==> exists d :: d in p.nodes[id].deps && BadName(NameAfter(past, d)))
  }

  ghost predicate LegalLog(p: Plan, ev: seq<WorkflowEvent>) {
    forall k :: 0 <= k < |ev| ==> LegalEvent(p, ev[..k], ev[k])
  }

  ghost predicate IsEvent(ev: seq<WorkflowEvent>, k: int, id: TaskId, n: Name) {
    0 <= k < |ev| && ev[k].taskId == Some(id) && ev[k].state == n
  }

  lemma {:induction false} NameAfterWitness(ev: seq<WorkflowEvent>, id: TaskId)
    ensures NameAfter(ev, id) != NPending ==>
      exists k :: IsEvent(ev, k, id, NameAfter(ev, id))
  {
    if ev != [] {
      var n := |ev| - 1;
      if ev[n].taskId == Some(id) {
        assert IsEvent(ev, n, id, ev[n].state);
      } else {
        NameAfterWitness(ev[..n], id);
        if NameAfter(ev, id) != NPending {
          var k :| IsEvent(ev[..n], k, id, NameAfter(ev, id));
          assert IsEvent(ev, k, id, NameAfter(ev, id));
        }
      }
    }
  }

  lemma HeightFallsOnce(p: Plan, past: seq<WorkflowEvent>, e: WorkflowEvent, id: TaskId)
    requires LegalEvent(p, past, e)
    ensures Height(NameAfter(past + [e], id)) <= Height(NameAfter(past, id))
  {
    NameAfterSnoc(past, e, id);
  }

  /** Along a legal log a task only ever loses height. */
  lemma {:induction false} HeightFalls(p: Plan, ev: seq<WorkflowEvent>, i: nat, j: nat, id: TaskId)
    requires LegalLog(p, ev) && i <= j <= |ev|
    ensures Height(NameAfter(ev[..j], id)) <= Height(NameAfter(ev[..i], id))
    decreases j
  {
    if i < j {
      HeightFalls(p, ev, i, j - 1, id);
      assert ev[..j] == ev[..j - 1] + [ev[j - 1]];
      HeightFallsOnce(p, ev[..j - 1], ev[j - 1], id);
    }
  }

  /** In a legal log no task repeats a state; in particular it starts at most once. */
  lemma {:induction false} NoStateRepeats(p: Plan, ev: seq<WorkflowEvent>, i: nat, j: nat, id: TaskId)
    requires LegalLog(p, ev) && i < j < |ev|
    requires ev[i].taskId == Some(id) && ev[j].taskId == Some(id)
    ensures Height(ev[j].state) < Height(ev[i].state)
    ensures ev[j].state != ev[i].state
  {
    assert ev[..i + 1][..i] == ev[..i];
    assert NameAfter(ev[..i + 1], id) == ev[i].state;
    HeightFalls(p, ev, i + 1, j, id);
    assert LegalEvent(p, ev[..j], ev[j]);
  }

  /** Every prerequisite's `completed` precedes a task's `ready`. */
  lemma {:induction false} CompletedBeforeReady(p: Plan, ev: seq<WorkflowEvent>, k: nat, id: TaskId, d: TaskId)
    requires LegalLog(p, ev) && IsEvent(ev, k, id, NReady)
    requires id in p.nodes && d in p.nodes[id].deps
    ensures exists j :: 0 <= j < k && IsEvent(ev, j, d, NCompleted)
  {
    assert LegalEvent(p, ev[..k], ev[k]);
    NameAfterWitness(ev[..k], d);
    var j :| IsEvent(ev[..k], j, d, NCompleted);
    assert IsEvent(ev, j, d, NCompleted);
  }

  /** A task's `ready` precedes its `running`, and its `running` precedes whatever follows. */
  lemma {:induction false} ReadyBeforeRunning(p: Plan, ev: seq<WorkflowEvent>, k: nat, id: TaskId)
    requires LegalLog(p, ev) && k < |ev| && ev[k].taskId == Some(id)
    ensures ev[k].state == NRunning ==> exists j :: 0 <= j < k && IsEvent(ev, j, id, NReady)
    ensures ev[k].state in {NCompleted, NFailed, NWaiting} ==> exists j :: 0 <= j < k && IsEvent(ev, j, id, NRunning)
  {
    assert LegalEvent(p, ev[..k], ev[k]);
    var n := NameAfter(ev[..k], id);
    NameAfterWitness(ev[..k], id);
    if n != NPending {
      var j :| IsEvent(ev[..k], j, id, n);
      assert IsEvent(ev, j, id, n);
    }
  }

  /** A task starts only after all its prerequisites completed. */
  lemma {:induction false} StartsAfterPrerequisites(p: Plan, ev: seq<WorkflowEvent>, k: nat, id: TaskId, d: TaskId)
    requires LegalLog(p, ev) && IsEvent(ev, k, id, NRunning)
    requires id in p.nodes && d in p.nodes[id].deps
    ensures exists i, j :: 0 <= i < j < k && IsEvent(ev, i, d, NCompleted) && IsEvent(ev, j, id, NReady)
  {
    ReadyBeforeRunning(p, ev, k, id);
    var j :| 0 <= j < k && IsEvent(ev, j, id, NReady);
    CompletedBeforeReady(p, ev, j, id, d);
    var i :| 0 <= i < j && IsEvent(ev, i, d, NCompleted);
  }

  // ---------------------------------------------------------------------
  // Sums over the task ids
  // ---------------------------------------------------------------------

  ghost function Sum(ids: seq<TaskId>, w: TaskId -> nat): nat {
    if ids == [] then 0 else w(ids[0]) + Sum(ids[1..], w)
  }

  lemma {:induction false} SumSame(ids: seq<TaskId>, v: TaskId -> nat, w: TaskId -> nat)
    requires forall id :: id in ids ==> v(id) == w(id)
    ensures Sum(ids, v) == Sum(ids, w)
  {
    if ids != [] {
      SumSame(ids[1..], v, w);
    }
  }

  /** Changing the weight of one listed id changes the sum by exactly that much. */
  lemma {:induction false} SumPoint(ids: seq<TaskId>, v: TaskId -> nat, w: TaskId -> nat, x: TaskId)
    requires Distinct(ids) && x in ids
    requires forall id :: id in ids && id != x ==> v(id) == w(id)
    ensures Sum(ids, w) + v(x) == Sum(ids, v) + w(x)
  {
    if ids[0] == x {
      forall id | id in ids[1..] ensures v(id) == w(id) {
        var k :| 0 <= k < |ids[1..]| && ids[1..][k] == id;
        assert ids[k + 1] != ids[0];
      }
      SumSame(ids[1..], v, w);
    } else {
      forall i, j | 0 <= i < j < |ids[1..]| ensures ids[1..][i] != ids[1..][j] {
        assert ids[i + 1] != ids[j + 1];
      }
      SumPoint(ids[1..], v, w, x);
    }
  }

  lemma {:induction false} SumBound(ids: seq<TaskId>, w: TaskId -> nat, b: nat)
    requires forall id :: id in ids ==> w(id) <= b
    ensures Sum(ids, w) <= b * |ids|
  {
    if ids != [] {
      SumBound(ids[1..], w, b);
      assert b * |ids| == b * |ids[1..]| + b;
    }
  }

  ghost function HeightIn(ev: seq<WorkflowEvent>): TaskId -> nat {
    (id: TaskId) => Height(NameAfter(ev, id))
  }

  ghost function HeightSum(p: Plan, ev: seq<WorkflowEvent>): nat {
    Sum(p.ids, HeightIn(ev))
  }

  lemma NameAfterSnoc(past: seq<WorkflowEvent>, e: WorkflowEvent, id: TaskId)
    ensures NameAfter(past + [e], id) == if e.taskId == Some(id) then e.state else NameAfter(past, id)
  {
    assert (past + [e])[..|past|] == past;
  }

  lemma LegalLogPrefix(p: Plan, ev: seq<WorkflowEvent>, n: nat)
    requires LegalLog(p, ev) && n <= |ev|
    ensures LegalLog(p, ev[..n])
  {
    forall k | 0 <= k < n ensures LegalEvent(p, ev[..n][..k], ev[..n][k]) {
      assert ev[..n][..k] == ev[..k];
      assert LegalEvent(p, ev[..k], ev[k]);
    }
  }

  lemma LegalLogSnoc(p: Plan, past: seq<WorkflowEvent>, e: WorkflowEvent)
    requires LegalLog(p, past) && LegalEvent(p, past, e)
    ensures LegalLog(p, past + [e])
  {
    var ev := past + [e];
    forall k | 0 <= k < |ev| ensures LegalEvent(p, ev[..k], ev[k]) {
      if k < |past| {
        assert ev[..k] == past[..k];
        assert LegalEvent(p, past[..k], past[k]);
      } else {
        assert ev[..k] == past;
      }
    }
  }

  lemma HeightSumSnoc(p: Plan, past: seq<WorkflowEvent>, e: WorkflowEvent)
    requires Distinct(p.ids) && e.taskId.Some? && e.taskId.value in p.ids
    requires Height(e.state) < Height(NameAfter(past, e.taskId.value))
    ensures HeightSum(p, past + [e]) < HeightSum(p, past)
  {
    var x := e.taskId.value;
    var v, w := HeightIn(past), HeightIn(past + [e]);
    forall id ensures w(id) == if id == x then Height(e.state) else v(id) {
      NameAfterSnoc(past, e, id);
    }
    SumPoint(p.ids, v, w, x);
  }

  lemma {:induction false} HeightBudget(p: Plan, ev: seq<WorkflowEvent>)
    requires Distinct(p.ids) && forall id :: id in p.nodes ==> id in p.ids
    requires LegalLog(p, ev)
    ensures |ev| + HeightSum(p, ev) <= 4 * |p.ids|
  {
    if ev == [] {
      SumBound(p.ids, HeightIn(ev), 4);
    } else {
      var n := |ev| - 1;
      LegalLogPrefix(p, ev, n);
      HeightBudget(p, ev[..n]);
      assert LegalEvent(p, ev[..n], ev[n]);
      HeightSumSnoc(p, ev[..n], ev[n]);
      assert ev == ev[..n] + [ev[n]];
    }
  }

  /** n tasks make at most 4n transitions. */
  lemma {:induction false} LogIsBounded(p: Plan, ev: seq<WorkflowEvent>)
    requires ValidPlan(p) && LegalLog(p, ev)
    ensures |ev| <= 4 * |p.ids|
  {
    HeightBudget(p, ev);
  }

  // ---------------------------------------------------------------------
  // Counting the tasks that still have at least `h` transitions ahead
  // ---------------------------------------------------------------------

  ghost function TallIn(ev: seq<WorkflowEvent>, h: nat): TaskId -> nat {
    (id: TaskId) => if Height(NameAfter(ev, id)) >= h then 1 else 0
  }

  /** Tasks not yet past height `h`: all of them at first, and only ever fewer. */
  ghost function Tall(p: Plan, ev: seq<WorkflowEvent>, h: nat): nat {
    Sum(p.ids, TallIn(ev, h))
  }

  lemma {:induction false} SumMono(ids: seq<TaskId>, v: TaskId -> nat, w: TaskId -> nat)
    requires forall id :: id in ids ==> w(id) <= v(id)
    ensures Sum(ids, w) <= Sum(ids, v)
    ensures (exists id :: id in ids && w(id) < v(id)) ==> Sum(ids, w) < Sum(ids, v)
  {
    if ids != [] {
      SumMono(ids[1..], v, w);
    }
  }

  lemma TallBound(p: Plan, ev: seq<WorkflowEvent>, h: nat)
    ensures Tall(p, ev, h) <= |p.ids|
  {
    SumBound(p.ids, TallIn(ev, h), 1);
  }

  lemma TallFalls(p: Plan, before: seq<WorkflowEvent>, after: seq<WorkflowEvent>, h: nat)
    requires LegalLog(p, after) && before <= after
    ensures Tall(p, after, h) <= Tall(p, before, h)
    ensures (exists id :: id in p.ids && Height(NameAfter(after, id)) < h <= Height(NameAfter(before, id))) ==>
      Tall(p, after, h) < Tall(p, before, h)
  {
    var v, w := TallIn(before, h), TallIn(after, h);
    assert before == after[..|before|] && after == after[..|after|];
    forall id ensures Height(NameAfter(after, id)) <= Height(NameAfter(before, id)) {
      HeightFalls(p, after, |before|, |after|, id);
    }
    if exists id :: id in p.ids && Height(NameAfter(after, id)) < h <= Height(NameAfter(before, id)) {
      var id :| id in p.ids && Height(NameAfter(after, id)) < h <= Height(NameAfter(before, id));
      assert w(id) < v(id);
    }
    SumMono(p.ids, v, w);
  }
}
