/**
 What a run has achieved when the coordinator stops: no deadlock, the meaning
 of each report status, who is skipped and whom a skip blames.
 */
module WorkflowReport {
  import opened Wrappers
  import opened Failure
  import opened WorkflowSpec
  import opened WorkflowLedger
  import opened LedgerInvariant
  import opened WorkflowMachine

  // ---------------------------------------------------------------------
  // Quiescence
  // ---------------------------------------------------------------------

  /** Propagation has nothing left to do. */
  ghost predicate Fixpoint(p: Plan, states: map<TaskId, TaskState>) {
    forall id :: id in p.nodes && id in states && states[id].Pending? ==>
      FirstBad(p.nodes[id].deps, states).None? && !AllCompletedDeps(p.nodes[id].deps, states)
  }

  /** Where the coordinator stops and reports. */
  ghost predicate Quiet(p: Plan, s: State) {
    && s.live == 0
    && (s.runCancel ==> s.cancelSeen)
    && (s.cancelSeen ==> forall id :: id in s.led.states ==> s.led.states[id].IsTerminal())
    && (!s.cancelSeen ==>
          && Fixpoint(p, s.led.states)
          && forall id :: id in s.led.states ==> !s.led.states[id].Ready?)
  }

  ghost predicate FinishedRun(p: Plan, c: Config, tr: seq<State>) {
    IsRun(p, c, tr) && Quiet(p, tr[|tr| - 1])
  }

  function Last(tr: seq<State>): State
    requires |tr| > 0
  {
    tr[|tr| - 1]
  }

  /** At quiescence nothing is running. */
  lemma NothingRuns(p: Plan, c: Config, s: State)
    requires Permits(c, s) && s.live == 0
    ensures forall id :: id in s.led.states ==> !s.led.states[id].Running?
  {
    assert s.bodies == map[];
  }

  // ---------------------------------------------------------------------
  // Ancestors
  // ---------------------------------------------------------------------

  /** Consecutive elements are predecessor and dependent. */
  ghost predicate Chain(p: Plan, path: seq<TaskId>) {
    && (forall k :: 0 <= k < |path| ==> path[k] in p.nodes)
    && forall k :: 0 <= k < |path| - 1 ==> path[k] in p.nodes[path[k + 1]].deps
  }

  ghost predicate ChainFromTo(p: Plan, path: seq<TaskId>, a: TaskId, d: TaskId) {
    |path| >= 2 && Chain(p, path) && path[0] == a && path[|path| - 1] == d
  }

  ghost predicate StrictAncestor(p: Plan, a: TaskId, d: TaskId) {
    exists path :: ChainFromTo(p, path, a, d)
  }

  lemma DirectAncestor(p: Plan, a: TaskId, d: TaskId)
    requires d in p.nodes && a in p.nodes && a in p.nodes[d].deps
    ensures StrictAncestor(p, a, d)
  {
    assert ChainFromTo(p, [a, d], a, d);
  }

  lemma ExtendAncestor(p: Plan, a: TaskId, m: TaskId, d: TaskId)
    requires StrictAncestor(p, a, m) && d in p.nodes && m in p.nodes[d].deps
    ensures StrictAncestor(p, a, d)
  {
    var path :| ChainFromTo(p, path, a, m);
    assert ChainFromTo(p, path + [d], a, d);
  }

  // ---------------------------------------------------------------------
  // No deadlock
  // ---------------------------------------------------------------------

  /** An uncancelled run that stops leaves a task Pending only behind a task
      that waits for approval. This is where acyclicity, the propagation
      fixpoint and permit accounting meet. */
  lemma {:induction false} PendingIsBehindApproval(p: Plan, c: Config, s: State, id: TaskId)
    requires ValidPlan(p) && Inv(p, c, s) && Quiet(p, s) && !s.cancelSeen
    requires id in p.nodes && s.led.states[id].Pending?
    ensures exists w :: StrictAncestor(p, w, id) && w in s.led.states && s.led.states[w].WaitingForApproval?
    decreases Rank(p)[id]
  {
    NothingRuns(p, c, s);
    var d :| d in p.nodes[id].deps && !(d in s.led.states && s.led.states[d].Completed?);
    if s.led.states[d].Pending? {
      PendingIsBehindApproval(p, c, s, d);
      var w :| StrictAncestor(p, w, d) && w in s.led.states && s.led.states[w].WaitingForApproval?;
      ExtendAncestor(p, w, d, id);
    } else {
      assert s.led.states[d].WaitingForApproval?;
      DirectAncestor(p, d, id);
    }
  }

  /** No deadlock, for whole runs: an uncancelled run never stops with a task that could still go on. */
  lemma NoDeadlock(p: Plan, c: Config, tr: seq<State>, id: TaskId)
    requires ValidPlan(p) && FinishedRun(p, c, tr) && !Last(tr).cancelSeen && id in p.nodes
    ensures var states := Last(tr).led.states;
      && id in states && !states[id].Ready? && !states[id].Running?
      && (states[id].Pending? ==> exists w :: StrictAncestor(p, w, id) && w in states && states[w].WaitingForApproval?)
  {
    hide ValidPlan, StrictAncestor;
    AlwaysInv(p, c, tr, |tr| - 1);
    NothingRuns(p, c, Last(tr));
    if Last(tr).led.states[id].Pending? {
      PendingIsBehindApproval(p, c, Last(tr), id);
    }
  }

  // ---------------------------------------------------------------------
  // The report
  // ---------------------------------------------------------------------

  datatype Report = Report(
    status: WorkflowStatus,
    lastSeq: nat,
    states: map<TaskId, TaskState>,
    results: map<TaskId, string>,
    failures: map<TaskId, FailureRecord>,
    unfinished: seq<TaskId>,
    events: seq<WorkflowEvent>,
    peak: nat,
    budgetExhausted: bool)

  predicate AnyWaiting(states: map<TaskId, TaskState>) {
    exists id :: id in states && states[id].WaitingForApproval?
  }

  predicate AllDone(states: map<TaskId, TaskState>) {
    forall id :: id in states ==> states[id].Completed?
  }

  function StatusOf(s: State): WorkflowStatus {
    if s.cancelSeen then RunCancelled
    else if AnyWaiting(s.led.states) then AwaitingApproval
    else if AllDone(s.led.states) then AllCompleted
    else SomeFailed
  }

  /** Ids, in insertion order, whose state is not terminal. */
  function Unfinished(ids: seq<TaskId>, states: map<TaskId, TaskState>): (r: seq<TaskId>)
    ensures forall id :: id in r <==> id in ids && id in states && !states[id].IsTerminal()
  {
    if ids == [] then []
    else (if ids[0] in states && !states[ids[0]].IsTerminal() then [ids[0]] else []) + Unfinished(ids[1..], states)
  }

  ghost predicate ListedBefore(ids: seq<TaskId>, x: TaskId, y: TaskId) {
    exists a, b :: 0 <= a < b < |ids| && ids[a] == x && ids[b] == y
  }

  lemma ListedBeforeTail(ids: seq<TaskId>, x: TaskId, y: TaskId)
    requires ids != [] && (ListedBefore(ids[1..], x, y) || (x == ids[0] && y in ids[1..]))
    ensures ListedBefore(ids, x, y)
  {
    if ListedBefore(ids[1..], x, y) {
      var a, b :| 0 <= a < b < |ids[1..]| && ids[1..][a] == x && ids[1..][b] == y;
      assert ids[a + 1] == x && ids[b + 1] == y;
    } else {
      var b :| 0 <= b < |ids[1..]| && ids[1..][b] == y;
      assert ids[b + 1] == y;
    }
  }

  /** The report lists every unfinished task once, in insertion order. */
  lemma {:induction false} UnfinishedKeepsOrder(ids: seq<TaskId>, states: map<TaskId, TaskState>, i: nat, j: nat)
    requires i < j < |Unfinished(ids, states)|
    ensures ListedBefore(ids, Unfinished(ids, states)[i], Unfinished(ids, states)[j])
    ensures Distinct(ids) ==> Unfinished(ids, states)[i] != Unfinished(ids, states)[j]
  {
    hide ListedBefore;
    var u, rest := Unfinished(ids, states), Unfinished(ids[1..], states);
    if u == rest {
      UnfinishedKeepsOrder(ids[1..], states, i, j);
    } else if i > 0 {
      UnfinishedKeepsOrder(ids[1..], states, i - 1, j - 1);
    } else {
      assert u[j] in rest;
    }
    ListedBeforeTail(ids, u[i], u[j]);
    if Distinct(ids) {
      ListedIsOrdered(ids, u[i], u[j]);
    }
  }

  lemma ListedIsOrdered(ids: seq<TaskId>, x: TaskId, y: TaskId)
    requires ListedBefore(ids, x, y) && Distinct(ids)
    ensures x != y
  {
  }

  /** What is unfinished, exactly: every task in a state that is not terminal, once, in insertion order. */
  lemma UnfinishedExactly(ids: seq<TaskId>, states: map<TaskId, TaskState>)
    requires Distinct(ids)
    ensures forall id :: id in Unfinished(ids, states) <==> id in ids && id in states && !states[id].IsTerminal()
    ensures Distinct(Unfinished(ids, states))
    ensures forall i, j :: 0 <= i < j < |Unfinished(ids, states)| ==>
      ListedBefore(ids, Unfinished(ids, states)[i], Unfinished(ids, states)[j])
  {
    hide ListedBefore;
    var u := Unfinished(ids, states);
    forall i, j | 0 <= i < j < |u| ensures ListedBefore(ids, u[i], u[j]) && u[i] != u[j] {
      UnfinishedKeepsOrder(ids, states, i, j);
    }
  }

  function ReportOf(p: Plan, s: State): Report {
    var closed := s.led.Close(StatusOf(s));
    Report(StatusOf(s), closed.seqNo, closed.states, closed.results, closed.failures,
           Unfinished(p.ids, s.led.states), closed.events, s.peak, s.budgetExhausted)
  }

  /** What the statuses mean, given that nothing is left Ready or Running. */
  ghost predicate StatusMeaning(p: Plan, s: State, r: Report) {
    && r.states.Keys == p.nodes.Keys
    && (r.status == RunCancelled <==> s.cancelSeen)
    && (r.status == AwaitingApproval <==> r.unfinished != [])
    && (r.status == AllCompleted <==> !s.cancelSeen && forall id :: id in r.states ==> r.states[id].Completed?)
    && (r.status == SomeFailed <==>
          !s.cancelSeen && r.unfinished == [] && exists id :: id in r.states && r.states[id].IsBad())
  }

  /** A settled ledger: everything is terminal or blocked behind an approval. */
  ghost predicate Settled(s: State) {
    && (s.cancelSeen ==> forall id :: id in s.led.states ==> s.led.states[id].IsTerminal())
    && (!s.cancelSeen ==>
          forall id :: id in s.led.states && !s.led.states[id].IsTerminal() ==> AnyWaiting(s.led.states))
  }

  lemma SettledStatus(p: Plan, s: State)
    requires s.led.states.Keys == p.nodes.Keys && (forall id :: id in p.ids <==> id in p.nodes)
    requires Settled(s)
    ensures StatusMeaning(p, s, ReportOf(p, s))
  {
    var states := s.led.states;
    var u := Unfinished(p.ids, states);
    if u != [] {
      assert u[0] in u;
    } else {
      forall id | id in states ensures states[id].IsTerminal() {
        assert id in p.ids && id !in u;
      }
    }
    if AnyWaiting(states) {
      var w :| w in states && states[w].WaitingForApproval?;
      assert w in u;
    }
  }

  lemma FinishedIsSettled(p: Plan, c: Config, s: State)
    requires ValidPlan(p) && Inv(p, c, s) && Quiet(p, s)
    ensures Settled(s)
  {
    if !s.cancelSeen {
      forall id | id in s.led.states && !s.led.states[id].IsTerminal() ensures AnyWaiting(s.led.states) {
        NothingRuns(p, c, s);
        if s.led.states[id].Pending? {
          PendingIsBehindApproval(p, c, s, id);
        }
      }
    }
  }

  /** The statuses mean what they say: an uncancelled run is waiting exactly
      when something is unfinished, and a cancelled, completed or failed run
      leaves nothing open. */
  lemma ReportStatus(p: Plan, c: Config, tr: seq<State>)
    requires ValidPlan(p) && FinishedRun(p, c, tr)
    ensures StatusMeaning(p, Last(tr), ReportOf(p, Last(tr)))
  {
    AlwaysInv(p, c, tr, |tr| - 1);
    FinishedIsSettled(p, c, Last(tr));
    SettledStatus(p, Last(tr));
  }

  /** Every task is accounted for once: completed with a result, ended badly
      with a record stamped with its last log number, or unfinished. */
  ghost predicate Accounted(r: Report, id: TaskId) {
    && id in r.states
    && (id in r.results <==> r.states[id].Completed?)
    && (id in r.failures <==> r.states[id].IsBad())
    && (id in r.unfinished <==> id !in r.results && id !in r.failures)
    && (r.states[id].Failed? ==> r.failures[id] == r.states[id].record)
    && (id in r.failures ==> LastEntry(r.events, r.failures[id].sequence, id))
    && (id in r.failures && r.failures[id].certainty != NoEffect ==> Ran(r.events, id))
  }

  lemma LedgerAccounts(p: Plan, s: State, id: TaskId)
    requires Partitioned(p, s.led) && Stamped(s.led) && Certain(s.led)
    requires id in p.nodes && id in p.ids
    ensures Accounted(ReportOf(p, s), id)
  {
    var r := ReportOf(p, s);
    var e := WorkflowEvent(s.led.seqNo + 1, None, NFinished);
    if id in s.led.failures {
      assert LastEntry(s.led.events, s.led.failures[id].sequence, id);
      if s.led.failures[id].certainty != NoEffect {
        RanSnoc(s.led.events, e, id);
      }
    }
  }

  lemma ReportPartition(p: Plan, c: Config, tr: seq<State>, id: TaskId)
    requires ValidPlan(p) && FinishedRun(p, c, tr) && id in p.nodes
    ensures Accounted(ReportOf(p, Last(tr)), id)
  {
    AlwaysInv(p, c, tr, |tr| - 1);
    LedgerAccounts(p, Last(tr), id);
  }

  /** The log of a report is gapless, ends with its only closing entry, and is
      at most 4n + 1 long; concurrency stayed within the bound and was seen. */
  ghost predicate LogMeaning(p: Plan, c: Config, r: Report) {
    && 0 < r.lastSeq == |r.events| <= 4 * |p.ids| + 1
    && (forall k :: 0 <= k < |r.events| ==> r.events[k].seqNo == k + 1)
    && LegalLog(p, r.events[..|r.events| - 1])
    && r.events[|r.events| - 1].state == NFinished
    && r.peak <= c.maxParallel
    && ((exists id :: Ran(r.events, id)) ==> r.peak >= 1)
  }

  lemma LedgerLog(p: Plan, c: Config, s: State)
    requires Numbered(s.led) && LegalLog(p, s.led.events) && |s.led.events| <= 4 * |p.ids|
    requires PeakSeen(s) && s.peak <= c.maxParallel && s.bodies == map[]
    ensures LogMeaning(p, c, ReportOf(p, s))
  {
    var r := ReportOf(p, s);
    assert r.events[..|r.events| - 1] == s.led.events;
    if exists id :: Ran(r.events, id) {
      var id :| Ran(r.events, id);
      var k :| IsEvent(r.events, k, id, NRunning);
      assert IsEvent(s.led.events, k, id, NRunning);
      assert Ran(s.led.events, id);
    }
  }

  lemma ReportLog(p: Plan, c: Config, tr: seq<State>)
    requires ValidPlan(p) && FinishedRun(p, c, tr)
    ensures LogMeaning(p, c, ReportOf(p, Last(tr)))
  {
    AlwaysInv(p, c, tr, |tr| - 1);
    LogIsBounded(p, Last(tr).led.events);
    NoBodies(c, Last(tr));
    LedgerLog(p, c, Last(tr));
  }

  lemma NoBodies(c: Config, s: State)
    requires Permits(c, s) && s.live == 0
    ensures s.bodies == map[]
  {
  }

  /** What a caller may read off a report, whatever happened during the run. */
  ghost predicate Meaningful(p: Plan, c: Config, r: Report) {
    && r.states.Keys == p.nodes.Keys
    && (r.status == AwaitingApproval <==> r.unfinished != [])
    && (r.status != RunCancelled ==>
          (r.status == AllCompleted <==> forall id :: id in r.states ==> r.states[id].Completed?))
    && (r.status == SomeFailed ==> exists id :: id in r.states && r.states[id].IsBad())
    && (forall id :: id in p.nodes ==> Accounted(r, id))
    && LogMeaning(p, c, r)
  }

  lemma ReportIsMeaningful(p: Plan, c: Config, tr: seq<State>)
    requires ValidPlan(p) && FinishedRun(p, c, tr)
    ensures Meaningful(p, c, ReportOf(p, Last(tr)))
    ensures ReportOf(p, Last(tr)).status == RunCancelled <==> Last(tr).cancelSeen
  {
    hide ValidPlan, Quiet, Step, ReportOf, Accounted, LogMeaning;
    ReportStatus(p, c, tr);
    ReportLog(p, c, tr);
    forall id | id in p.nodes ensures Accounted(ReportOf(p, Last(tr)), id) {
      ReportPartition(p, c, tr, id);
    }
  }

  /** A subscriber that only saw the bus knows every state, every result and how the run ended. */
  ghost predicate BusMeaning(p: Plan, bus: seq<BusEvent>, r: Report) {
    && |bus| > 0 && bus[|bus| - 1] == WorkflowFinished(r.lastSeq, r.status)
    && ReplayStates(p, bus) == r.states
    && ReplayResults(bus) == r.results
    && |bus| == |r.events|
    && forall k :: 0 <= k < |bus| ==> SameEntry(bus[k], r.events[k])
  }

  lemma LedgerBus(p: Plan, s: State)
    requires Numbered(s.led) && Replayed(p, s.led)
    ensures BusMeaning(p, s.led.Close(StatusOf(s)).bus, ReportOf(p, s))
  {
    var bus := s.led.Close(StatusOf(s)).bus;
    assert bus[..|bus| - 1] == s.led.bus;
  }

  lemma BusTellsAll(p: Plan, c: Config, tr: seq<State>)
    requires ValidPlan(p) && FinishedRun(p, c, tr)
    ensures BusMeaning(p, Last(tr).led.Close(StatusOf(Last(tr))).bus, ReportOf(p, Last(tr)))
  {
    AlwaysInv(p, c, tr, |tr| - 1);
    LedgerBus(p, Last(tr));
  }

  // ---------------------------------------------------------------------
  // Skips and whom they blame
  // ---------------------------------------------------------------------

  /** `path` leads from a task that failed or was cancelled, through the
      recorded prerequisites, to a skipped task; each skip came later than what it blames. */
  ghost predicate BlameChain(p: Plan, l: Ledger, path: seq<TaskId>, id: TaskId) {
    && |path| >= 2 && Chain(p, path) && path[|path| - 1] == id
    && (forall k :: 0 <= k < |path| ==> path[k] in l.states && path[k] in l.failures)
    && (l.states[path[0]].Failed? || l.states[path[0]].Cancelled?)
    && (forall k :: 0 < k < |path| ==> l.states[path[k]] == Skipped(path[k - 1]))
    && (forall k :: 0 < k < |path| ==> l.failures[path[k - 1]].sequence < l.failures[path[k]].sequence)
  }

  lemma {:induction false} BlameChainExists(p: Plan, l: Ledger, id: TaskId) returns (path: seq<TaskId>)
    requires Partitioned(p, l) && Blamed(p, l) && id in p.nodes && l.states[id].Skipped?
    ensures BlameChain(p, l, path, id)
    decreases l.failures[id].sequence
  {
    var d := l.states[id].prerequisite;
    assert Blames(p, l, id, d);
    if l.states[d].Skipped? {
      var before := BlameChainExists(p, l, d);
      path := before + [id];
    } else {
      path := [d, id];
    }
  }

  /** In every run, following the recorded prerequisites from a skipped task
      ends at a task that failed or was cancelled. */
  lemma EverySkipHasARoot(p: Plan, c: Config, tr: seq<State>, i: nat, id: TaskId)
    requires ValidPlan(p) && IsRun(p, c, tr) && i < |tr|
    requires id in p.nodes && id in tr[i].led.states && tr[i].led.states[id].Skipped?
    ensures exists path :: BlameChain(p, tr[i].led, path, id)
  {
    AlwaysInv(p, c, tr, i);
    var path := BlameChainExists(p, tr[i].led, id);
  }

  /** Nothing runs or is ready, and who waits or is done had its prerequisites completed. */
  ghost predicate Stopped(p: Plan, states: map<TaskId, TaskState>) {
    && states.Keys == p.nodes.Keys
    && Fixpoint(p, states)
    && forall id :: id in p.nodes ==>
         && !states[id].Ready? && !states[id].Running?
         && (!states[id].Pending? && !states[id].Skipped? ==> DepsCompleted(p, states, id))
  }

  lemma FinishedIsStopped(p: Plan, c: Config, s: State)
    requires Inv(p, c, s) && Quiet(p, s) && !s.cancelSeen
    ensures Stopped(p, s.led.states)
  {
    NothingRuns(p, c, s);
  }

  lemma {:induction false} BelowBadIsSkipped(p: Plan, states: map<TaskId, TaskState>, path: seq<TaskId>)
    requires Stopped(p, states)
    requires |path| >= 2 && Chain(p, path) && states[path[0]].IsBad()
    ensures states[path[|path| - 1]].Skipped?
  {
    var n := |path| - 1;
    if n > 1 {
      BelowBadIsSkipped(p, states, path[..n]);
    }
    assert path[n - 1] in p.nodes[path[n - 1 + 1]].deps;
  }

  /** At the end of an uncancelled run the skipped tasks are exactly the strict
      descendants of the tasks that failed or cancelled themselves. */
  lemma SkippedExactly(p: Plan, c: Config, tr: seq<State>, id: TaskId)
    requires ValidPlan(p) && FinishedRun(p, c, tr) && !Last(tr).cancelSeen && id in p.nodes
    ensures var states := ReportOf(p, Last(tr)).states;
      && states.Keys == p.nodes.Keys
      && (states[id].Skipped? <==>
            exists a :: a in states && StrictAncestor(p, a, id) && (states[a].Failed? || states[a].Cancelled?))
  {
    AlwaysInv(p, c, tr, |tr| - 1);
    FinishedIsStopped(p, c, Last(tr));
    SkippedExactlyIn(p, Last(tr).led, id);
  }

  lemma SkippedExactlyIn(p: Plan, l: Ledger, id: TaskId)
    requires Partitioned(p, l) && Blamed(p, l) && Stopped(p, l.states) && id in p.nodes
    ensures l.states[id].Skipped? <==>
      exists a :: a in l.states && StrictAncestor(p, a, id) && (l.states[a].Failed? || l.states[a].Cancelled?)
  {
    var states := l.states;
    if states[id].Skipped? {
      var path := BlameChainExists(p, l, id);
      assert ChainFromTo(p, path, path[0], id);
      assert StrictAncestor(p, path[0], id);
    }
    if exists a :: a in states && StrictAncestor(p, a, id) && (states[a].Failed? || states[a].Cancelled?) {
      var a :| a in states && StrictAncestor(p, a, id) && (states[a].Failed? || states[a].Cancelled?);
      var path :| ChainFromTo(p, path, a, id);
      BelowBadIsSkipped(p, states, path);
    }
  }
}
