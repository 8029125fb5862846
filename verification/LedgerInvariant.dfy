/**
 What every reachable ledger satisfies, and the one fact behind it: each
 legal move keeps all of it.
 */
module LedgerInvariant {
  import opened Wrappers
  import opened Failure
  import opened WorkflowSpec
  import opened WorkflowLedger

  /** Results exist for exactly the completed tasks, failure records for
      exactly the failed, cancelled and skipped ones, and a Failed state
      carries the same record as the failure table. */
  ghost predicate Partitioned(p: Plan, l: Ledger) {
    && l.states.Keys == p.nodes.Keys
    && (forall id :: id in l.results <==> id in l.states && l.states[id].Completed?)
    && (forall id :: id in l.failures <==> id in l.states && l.states[id].IsBad())
    && (forall id :: id in l.states && l.states[id].Failed? ==> l.failures[id] == l.states[id].record)
  }

  ghost predicate SameEntry(b: BusEvent, e: WorkflowEvent) {
    && b.workflowSeq == e.seqNo
    && match b
       case TaskReady(_, id) => e.taskId == Some(id) && e.state == NReady
       case TaskStarted(_, id) => e.taskId == Some(id) && e.state == NRunning
       case TaskCompleted(_, id, _) => e.taskId == Some(id) && e.state == NCompleted
       case TaskWaiting(_, id) => e.taskId == Some(id) && e.state == NWaiting
       case TaskFailed(_, id, _) => e.taskId == Some(id) && e.state == NFailed
       case TaskCancelled(_, id) => e.taskId == Some(id) && e.state == NCancelled
       case TaskSkipped(_, id, _) => e.taskId == Some(id) && e.state == NSkipped
       case WorkflowFinished(_, _) => e.taskId == None && e.state == NFinished
  }

  /** Gapless numbering from 1, and bus order equals log order. */
  ghost predicate Numbered(l: Ledger) {
    && l.seqNo == |l.events| == |l.bus|
    && (forall k :: 0 <= k < |l.events| ==> l.events[k].seqNo == k + 1)
    && (forall k :: 0 <= k < |l.bus| ==> SameEntry(l.bus[k], l.events[k]))
  }

  /** Replaying the names in the log gives the names of the current states. */
  ghost predicate Faithful(p: Plan, l: Ledger) {
    forall id :: id in l.states ==> NameAfter(l.events, id) == l.states[id].Name()
  }

  /** `n` is the log number of the last entry about `id`. */
  ghost predicate LastEntry(ev: seq<WorkflowEvent>, n: nat, id: TaskId) {
    && 1 <= n <= |ev| && ev[n - 1].taskId == Some(id)
    && forall k :: n <= k < |ev| ==> ev[k].taskId != Some(id)
  }

  /** A failure record carries the log number of its task's final transition. */
  ghost predicate Stamped(l: Ledger) {
    forall id :: id in l.failures ==>
      l.failures[id].toolCallId == id && LastEntry(l.events, l.failures[id].sequence, id)
  }

  predicate HasStarted(st: TaskState) {
    st.Ready? || st.Running? || st.WaitingForApproval? || st.Completed? || st.Failed?
  }

  ghost predicate DepsCompleted(p: Plan, states: map<TaskId, TaskState>, id: TaskId)
    requires id in p.nodes
  {
    forall d :: d in p.nodes[id].deps ==> d in states && states[d].Completed?
  }

  /** Whoever is ready or beyond has all prerequisites completed. */
  ghost predicate Unblocked(p: Plan, l: Ledger) {
    forall id :: id in l.states && id in p.nodes && HasStarted(l.states[id]) ==> DepsCompleted(p, l.states, id)
  }

  /** A skip blames a direct predecessor that went bad strictly earlier in the log. */
  ghost predicate Blames(p: Plan, l: Ledger, id: TaskId, d: TaskId) {
    && id in p.nodes && d in p.nodes[id].deps
    && d in l.states && l.states[d].IsBad()
    && d in l.failures && id in l.failures && l.failures[d].sequence < l.failures[id].sequence
  }

  ghost predicate Blamed(p: Plan, l: Ledger) {
    forall id :: id in l.states && l.states[id].Skipped? ==> Blames(p, l, id, l.states[id].prerequisite)
  }

  /** A record that does not claim NoEffect belongs to a task that ran. */
  ghost predicate Certain(l: Ledger) {
    forall id :: id in l.failures && l.failures[id].certainty != NoEffect ==> Ran(l.events, id)
  }

  ghost predicate Ran(ev: seq<WorkflowEvent>, id: TaskId) {
    exists k :: IsEvent(ev, k, id, NRunning)
  }

  // The states and results a subscriber rebuilds from the bus alone.

  function StatesAfter(before: map<TaskId, TaskState>, b: BusEvent): map<TaskId, TaskState> {
    match b
    case TaskReady(_, id) => before[id := Ready]
    case TaskStarted(_, id) => before[id := Running]
    case TaskCompleted(_, id, _) => before[id := Completed]
    case TaskWaiting(_, id) => before[id := WaitingForApproval]
    case TaskFailed(_, id, f) => before[id := TaskState.Failed(f)]
    case TaskCancelled(_, id) => before[id := TaskState.Cancelled]
    case TaskSkipped(_, id, d) => before[id := Skipped(d)]
    case WorkflowFinished(_, _) => before
  }

  function ReplayStates(p: Plan, bus: seq<BusEvent>): map<TaskId, TaskState> {
    if bus == [] then InitialStates(p) else StatesAfter(ReplayStates(p, bus[..|bus| - 1]), bus[|bus| - 1])
  }

  function ResultsAfter(before: map<TaskId, string>, b: BusEvent): map<TaskId, string> {
    if b.TaskCompleted? then before[b.taskId := b.resultDigest] else before
  }

  function ReplayResults(bus: seq<BusEvent>): map<TaskId, string> {
    if bus == [] then map[] else ResultsAfter(ReplayResults(bus[..|bus| - 1]), bus[|bus| - 1])
  }

  ghost predicate Replayed(p: Plan, l: Ledger) {
    ReplayStates(p, l.bus) == l.states && ReplayResults(l.bus) == l.results
  }

  ghost predicate LedgerInv(p: Plan, l: Ledger) {
    && Partitioned(p, l)
    && Numbered(l)
    && Faithful(p, l)
    && LegalLog(p, l.events)
    && Stamped(l)
    && Unblocked(p, l)
    && Blamed(p, l)
    && Certain(l)
    && Replayed(p, l)
  }

  /** A transition the coordinator is entitled to make. */
  ghost predicate LegalMove(p: Plan, l: Ledger, id: TaskId, st: TaskState, res: Option<string>, rec: Option<FailureRecord>) {
    && id in p.nodes && id in l.states
    && LegalNext(l.states[id].Name(), st.Name())
    && (st.Ready? ==> DepsCompleted(p, l.states, id))
    && (st.Skipped? ==>
          st.prerequisite in p.nodes[id].deps && st.prerequisite in l.states && l.states[st.prerequisite].IsBad())
    && (res.Some? <==> st.Completed?)
    && (rec.Some? <==> st.IsBad())
    && (st.Failed? ==> rec == Some(st.record))
    && (rec.Some? ==>
          && rec.value.sequence == l.seqNo + 1
          && rec.value.toolCallId == id
          && (rec.value.certainty != NoEffect ==> l.states[id].Running? || l.states[id].WaitingForApproval?))
  }

  lemma InitialInv(p: Plan)
    requires ValidPlan(p)
    ensures LedgerInv(p, InitialLedger(p))
  {
  }

  // ---------------------------------------------------------------------
  // Each part is kept by a legal move
  // ---------------------------------------------------------------------

  lemma PartitionedKept(p: Plan, l: Ledger, id: TaskId, st: TaskState, res: Option<string>, rec: Option<FailureRecord>)
    requires Partitioned(p, l) && LegalMove(p, l, id, st, res, rec)
    ensures Partitioned(p, l.Move(id, st, res, rec))
  {
  }

  lemma NumberedKept(p: Plan, l: Ledger, id: TaskId, st: TaskState, res: Option<string>, rec: Option<FailureRecord>)
    requires Numbered(l) && LegalMove(p, l, id, st, res, rec)
    ensures Numbered(l.Move(id, st, res, rec))
  {
    var m := l.Move(id, st, res, rec);
    assert |m.bus| == |l.bus| + 1;
    assert SameEntry(m.bus[|l.bus|], m.events[|l.bus|]);
  }

  lemma FaithfulKept(p: Plan, l: Ledger, id: TaskId, st: TaskState, res: Option<string>, rec: Option<FailureRecord>)
    requires Faithful(p, l) && LegalMove(p, l, id, st, res, rec)
    ensures Faithful(p, l.Move(id, st, res, rec))
  {
    var m := l.Move(id, st, res, rec);
    forall x | x in m.states ensures NameAfter(m.events, x) == m.states[x].Name() {
      NameAfterSnoc(l.events, WorkflowEvent(l.seqNo + 1, Some(id), st.Name()), x);
    }
  }

  lemma MoveIsLegalEvent(p: Plan, l: Ledger, id: TaskId, st: TaskState, res: Option<string>, rec: Option<FailureRecord>)
    requires l.states.Keys == p.nodes.Keys && l.seqNo == |l.events| && Faithful(p, l)
    requires LegalMove(p, l, id, st, res, rec)
    ensures LegalEvent(p, l.events, WorkflowEvent(l.seqNo + 1, Some(id), st.Name()))
  {
    if st.Skipped? {
      assert NameAfter(l.events, st.prerequisite) == l.states[st.prerequisite].Name();
      assert BadName(NameAfter(l.events, st.prerequisite));
    }
    if st.Ready? {
      forall d | d in p.nodes[id].deps ensures NameAfter(l.events, d) == NCompleted {
        assert d in l.states && l.states[d].Completed?;
      }
    }
  }

  lemma LegalLogKept(p: Plan, l: Ledger, id: TaskId, st: TaskState, res: Option<string>, rec: Option<FailureRecord>)
    requires l.states.Keys == p.nodes.Keys && l.seqNo == |l.events| && Faithful(p, l)
    requires LegalLog(p, l.events)
    requires LegalMove(p, l, id, st, res, rec)
    ensures LegalLog(p, l.Move(id, st, res, rec).events)
  {
    MoveIsLegalEvent(p, l, id, st, res, rec);
    LegalLogSnoc(p, l.events, WorkflowEvent(l.seqNo + 1, Some(id), st.Name()));
  }

  lemma StampedKept(p: Plan, l: Ledger, id: TaskId, st: TaskState, res: Option<string>, rec: Option<FailureRecord>)
    requires Partitioned(p, l) && Numbered(l) && Stamped(l) && LegalMove(p, l, id, st, res, rec)
    ensures Stamped(l.Move(id, st, res, rec))
  {
    var m := l.Move(id, st, res, rec);
    assert id !in l.failures;
    forall x | x in m.failures
      ensures m.failures[x].toolCallId == x && LastEntry(m.events, m.failures[x].sequence, x)
    {
      if x != id {
        assert LastEntry(l.events, l.failures[x].sequence, x);
      }
    }
  }

  lemma UnblockedKept(p: Plan, l: Ledger, id: TaskId, st: TaskState, res: Option<string>, rec: Option<FailureRecord>)
    requires Unblocked(p, l) && LegalMove(p, l, id, st, res, rec)
    ensures Unblocked(p, l.Move(id, st, res, rec))
  {
    var m := l.Move(id, st, res, rec);
    forall x | x in m.states && x in p.nodes && HasStarted(m.states[x]) ensures DepsCompleted(p, m.states, x) {
      assert DepsCompleted(p, l.states, x);
    }
  }

  lemma BlamedKept(p: Plan, l: Ledger, id: TaskId, st: TaskState, res: Option<string>, rec: Option<FailureRecord>)
    requires Partitioned(p, l) && Numbered(l) && Stamped(l) && Blamed(p, l) && LegalMove(p, l, id, st, res, rec)
    ensures Blamed(p, l.Move(id, st, res, rec))
  {
    var m := l.Move(id, st, res, rec);
    assert id !in l.failures;
    forall x | x in m.states && m.states[x].Skipped? ensures Blames(p, m, x, m.states[x].prerequisite) {
      var d := m.states[x].prerequisite;
      if x == id {
        assert LastEntry(l.events, l.failures[d].sequence, d);
      } else {
        assert Blames(p, l, x, d);
      }
    }
  }

  /** A task that is running or waits for approval has a `running` entry. */
  lemma RanBefore(p: Plan, ev: seq<WorkflowEvent>, id: TaskId)
    requires LegalLog(p, ev)
    requires NameAfter(ev, id) == NRunning || NameAfter(ev, id) == NWaiting
    ensures Ran(ev, id)
  {
    NameAfterWitness(ev, id);
    var k :| IsEvent(ev, k, id, NameAfter(ev, id));
    ReadyBeforeRunning(p, ev, k, id);
  }

  lemma RanSnoc(ev: seq<WorkflowEvent>, e: WorkflowEvent, id: TaskId)
    requires Ran(ev, id)
    ensures Ran(ev + [e], id)
  {
    var k :| IsEvent(ev, k, id, NRunning);
    assert IsEvent(ev + [e], k, id, NRunning);
  }

  lemma RunningRan(p: Plan, l: Ledger, id: TaskId)
    requires Faithful(p, l) && LegalLog(p, l.events)
    requires id in l.states && (l.states[id].Running? || l.states[id].WaitingForApproval?)
    ensures Ran(l.events, id)
  {
    assert NameAfter(l.events, id) == l.states[id].Name();
    RanBefore(p, l.events, id);
  }

  lemma CertainKept(p: Plan, l: Ledger, id: TaskId, st: TaskState, res: Option<string>, rec: Option<FailureRecord>)
    requires Faithful(p, l) && Certain(l) && LegalLog(p, l.events)
    requires LegalMove(p, l, id, st, res, rec)
    ensures Certain(l.Move(id, st, res, rec))
  {
    hide LegalLog, Faithful, Ran;
    var m := l.Move(id, st, res, rec);
    var e := WorkflowEvent(l.seqNo + 1, Some(id), st.Name());
    forall x | x in m.failures && m.failures[x].certainty != NoEffect
      ensures Ran(m.events, x)
    {
      if x == id && rec.Some? {
        RunningRan(p, l, id);
      } else {
        assert x in l.failures;
      }
      RanSnoc(l.events, e, x);
    }
  }

  lemma ReplaySnoc(p: Plan, bus: seq<BusEvent>, b: BusEvent)
    ensures ReplayStates(p, bus + [b]) == StatesAfter(ReplayStates(p, bus), b)
    ensures ReplayResults(bus + [b]) == ResultsAfter(ReplayResults(bus), b)
  {
    assert (bus + [b])[..|bus|] == bus;
  }

  lemma ReplayedKept(p: Plan, l: Ledger, id: TaskId, st: TaskState, res: Option<string>, rec: Option<FailureRecord>)
    requires Replayed(p, l) && LegalMove(p, l, id, st, res, rec)
    ensures Replayed(p, l.Move(id, st, res, rec))
  {
    hide ReplayStates, ReplayResults;
    ReplaySnoc(p, l.bus, EventFor(l.seqNo + 1, id, st, res).value);
  }

  /** A legal move keeps the whole ledger invariant. */
  lemma {:induction false} LedgerInvKept(p: Plan, l: Ledger, id: TaskId, st: TaskState, res: Option<string>, rec: Option<FailureRecord>)
    requires ValidPlan(p) && LedgerInv(p, l) && LegalMove(p, l, id, st, res, rec)
    ensures LedgerInv(p, l.Move(id, st, res, rec))
  {
    PartitionedKept(p, l, id, st, res, rec);
    NumberedKept(p, l, id, st, res, rec);
    FaithfulKept(p, l, id, st, res, rec);
    LegalLogKept(p, l, id, st, res, rec);
    StampedKept(p, l, id, st, res, rec);
    UnblockedKept(p, l, id, st, res, rec);
    BlamedKept(p, l, id, st, res, rec);
    CertainKept(p, l, id, st, res, rec);
    ReplayedKept(p, l, id, st, res, rec);
  }
}
