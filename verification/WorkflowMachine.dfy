/**
 The executor as a transition system: every atomic thing the coordinator
 does and everything its surroundings may do in between (a body ends, the
 caller cancels, the deadline passes), in any order the guards allow.
 */
module WorkflowMachine {
  import opened Wrappers
  import opened Failure
  import opened WorkflowSpec
  import opened WorkflowLedger
  import opened LedgerInvariant

  const WORKFLOW_TOOL_NAME := "workflow_task"

  /** The fixed texts of the failures the executor itself records. */
  datatype Wording = Wording(
    cancelledBeforeStart: string,
    cancelledWhileWaiting: string,
    prerequisiteFailed: string,
    cancelledWhileRunning: string,
    timeoutElapsed: string,
    bodyPanicked: string)

  datatype Config = Config(runId: string, maxParallel: nat, hasTimeout: bool, hasBudget: bool, wording: Wording)

  /** What a body reports. A completed value is represented by its digest. */
  datatype TaskOutcome =
    | Done(digest: string)
    | Fault(fault: ToolFault)
    | NeedsApproval
    | GaveUp

  datatype Finish =
    | Outcome(outcome: TaskOutcome)
    | TimedOut
    | Interrupted
    | Panicked

  /** A started body: permit taken but not yet spawned, executing, or ended
      and waiting to be joined. Only an ended body has given its permit back. */
  datatype Body = Acquired | Executing | Ended(finish: Finish)

  datatype State = State(
    led: Ledger,
    bodies: map<TaskId, Body>,
    available: nat,
    live: nat,
    peak: nat,
    callerCancel: bool,
    expired: bool,
    runCancel: bool,
    cancelSeen: bool,
    budgetExhausted: bool)

  function Init(p: Plan, c: Config): State {
    State(InitialLedger(p), map[], c.maxParallel, 0, 0, false, false, false, false, false)
  }

  // ---------------------------------------------------------------------
  // Ledger changes
  // ---------------------------------------------------------------------

  datatype Change = Change(state: TaskState, result: Option<string>, record: Option<FailureRecord>)

  function Apply(l: Ledger, id: TaskId, ch: Change): (m: Ledger)
    ensures m.states == l.states[id := ch.state]
    ensures m.events == l.events + [WorkflowEvent(l.seqNo + 1, Some(id), ch.state.Name())]
    ensures m.seqNo == l.seqNo + 1
  {
    l.Move(id, ch.state, ch.result, ch.record)
  }

  /** Bounds the text a body or engine supplied. */
  function ScrubMessage(message: string): string {
    Fit(message, MAX_CAUSE_MESSAGE_BYTES)
  }

  /** The one cause a workflow failure carries. */
  function CauseOf(message: string): seq<CauseEntry> {
    [CauseEntry("workflow", Fit(message, MAX_CAUSE_MESSAGE_BYTES), None)]
  }

  /** What all records of the executor have in common: no parent, no retry, one cause of its own, and one moment. */
  predicate FromWorkflow(c: Config, r: FailureRecord) {
    && r.runId == c.runId && r.stepIndex == 0 && r.parentCallId.None? && r.toolName == "workflow_task" && r.attempt == 1
    && r.createdAt == r.failedAt
    && |r.cause| == 1 && r.cause[0].source == "workflow" && r.cause[0].payloadDigest.None? && !r.causeTruncated
  }

  /** A failure record shares the sequence space of the log: it is stamped with
      the number of the transition that follows. */
  function NewFailure(c: Config, l: Ledger, id: TaskId, class_: FailureClass, certainty: EffectCertainty,
                      message: string, now: int): (r: FailureRecord)
    ensures r.sequence == l.seqNo + 1 && r.toolCallId == id && r.certainty == certainty && r.faultClass == class_
    ensures r.cause == CauseOf(message)
    ensures FromWorkflow(c, r) && r.createdAt == now
  {
    FitTwice(message, MAX_CAUSE_MESSAGE_BYTES);
    FailureRecord(l.seqNo + 1, c.runId, 0, id, None, WORKFLOW_TOOL_NAME, 1, class_, certainty, now, now, [], false)
      .WithCause("workflow", ScrubMessage(message), None)
  }

  function FailChange(rec: FailureRecord): Change {
    Change(TaskState.Failed(rec), None, Some(rec))
  }

  function SettleChange(c: Config, l: Ledger, id: TaskId, f: Finish, interrupt: EffectCertainty, now: int): Change {
    match f
    case Outcome(Done(digest)) => Change(Completed, Some(digest), None)
    case Outcome(Fault(fault)) =>
      FailChange(NewFailure(c, l, id, fault.faultClass, fault.certainty, fault.message, now))
    case Outcome(NeedsApproval) => Change(WaitingForApproval, None, None)
    case Outcome(GaveUp) =>
      Change(TaskState.Cancelled, None,
             Some(NewFailure(c, l, id, FailureClass.Cancelled, interrupt, c.wording.cancelledWhileRunning, now)))
    case Interrupted =>
      Change(TaskState.Cancelled, None,
             Some(NewFailure(c, l, id, FailureClass.Cancelled, interrupt, c.wording.cancelledWhileRunning, now)))
    case TimedOut =>
      FailChange(NewFailure(c, l, id, Timeout, interrupt, c.wording.timeoutElapsed, now))
    case Panicked =>
      FailChange(NewFailure(c, l, id, FailureClass.Failed, UncertainEffect, c.wording.bodyPanicked, now))
  }

  function CancelChange(c: Config, l: Ledger, id: TaskId, waiting: bool, interrupt: EffectCertainty, now: int): Change {
    Change(TaskState.Cancelled, None, Some(
      if waiting then
        NewFailure(c, l, id, FailureClass.Cancelled, interrupt, c.wording.cancelledWhileWaiting, now)
      else
        NewFailure(c, l, id, FailureClass.Cancelled, NoEffect, c.wording.cancelledBeforeStart, now)))
  }

  function SkipChange(c: Config, l: Ledger, id: TaskId, bad: TaskId, now: int): Change {
    Change(Skipped(bad), None,
           Some(NewFailure(c, l, id, Rejected, NoEffect, c.wording.prerequisiteFailed + bad, now)))
  }

  const READY_CHANGE := Change(Ready, None, None)
  const RUNNING_CHANGE := Change(Running, None, None)

  /** The first predecessor, in edge order, that ended without success. */
  function FirstBad(deps: seq<TaskId>, states: map<TaskId, TaskState>): (r: Option<TaskId>)
    ensures r.Some? ==> r.value in deps && r.value in states && states[r.value].IsBad()
    ensures r.None? ==> forall d :: d in deps && d in states ==> !states[d].IsBad()
  {
    if deps == [] then None
    else if deps[0] in states && states[deps[0]].IsBad() then Some(deps[0])
    else FirstBad(deps[1..], states)
  }

  predicate AllCompletedDeps(deps: seq<TaskId>, states: map<TaskId, TaskState>) {
    forall d :: d in deps ==> d in states && states[d].Completed?
  }

  // ---------------------------------------------------------------------
  // Steps
  // ---------------------------------------------------------------------

  datatype Action =
    // surroundings
    | CallerCancels
    | DeadlinePasses
    | BodyEnds(id: TaskId, finish: Finish)
    // coordinator
    | TripOnCancel
    | TripOnBudget
    | SeeCancel
    | CancelOpen(id: TaskId, now: int)
    | Skip(id: TaskId, now: int)
    | MakeReady(id: TaskId)
    | Start(id: TaskId)
    | Spawn(id: TaskId)
    | Join(id: TaskId, now: int)

  predicate Enabled(p: Plan, c: Config, s: State, a: Action) {
    match a
    case CallerCancels => true
    case DeadlinePasses => c.hasBudget
    case BodyEnds(id, f) =>
      id in s.bodies && s.bodies[id].Executing? && (f.Interrupted? ==> s.runCancel) && (f.TimedOut? ==> c.hasTimeout)
    case TripOnCancel => s.callerCancel
    case TripOnBudget => s.expired && !s.budgetExhausted
    case SeeCancel => s.runCancel && !s.cancelSeen
    case CancelOpen(id, _) =>
      && s.cancelSeen && id in p.nodes && id in s.led.states
      && (s.led.states[id].Pending? || s.led.states[id].Ready? || s.led.states[id].WaitingForApproval?)
    case Skip(id, _) =>
      && !s.cancelSeen && id in p.nodes && id in s.led.states && s.led.states[id].Pending?
      && FirstBad(p.nodes[id].deps, s.led.states).Some?
    case MakeReady(id) =>
      && !s.cancelSeen && id in p.nodes && id in s.led.states && s.led.states[id].Pending?
      && FirstBad(p.nodes[id].deps, s.led.states).None?
      && AllCompletedDeps(p.nodes[id].deps, s.led.states)
    case Start(id) =>
      && !s.cancelSeen && id in p.nodes && id in s.led.states && s.led.states[id].Ready?
      && s.available > 0
    case Spawn(id) => id in s.bodies && s.bodies[id].Acquired? && s.available <= c.maxParallel
    case Join(id, _) => id in s.bodies && s.bodies[id].Ended? && id in p.nodes && s.live > 0
  }

  function Max(a: nat, b: nat): nat { if a < b then b else a }

  /** The ledger change an action makes, if it makes one. */
  function ChangeOf(p: Plan, c: Config, s: State, a: Action): Option<(TaskId, Change)>
    requires Enabled(p, c, s, a)
  {
    match a
    case CancelOpen(id, now) =>
      Some((id, CancelChange(c, s.led, id, s.led.states[id].WaitingForApproval?, p.nodes[id].interrupt, now)))
    case Skip(id, now) => Some((id, SkipChange(c, s.led, id, FirstBad(p.nodes[id].deps, s.led.states).value, now)))
    case MakeReady(id) => Some((id, READY_CHANGE))
    case Start(id) => Some((id, RUNNING_CHANGE))
    case Join(id, now) => Some((id, SettleChange(c, s.led, id, s.bodies[id].finish, p.nodes[id].interrupt, now)))
    case _ => None
  }

  function LedgerAfter(l: Ledger, ch: Option<(TaskId, Change)>): Ledger {
    match ch
    case None => l
    case Some((id, ch)) => Apply(l, id, ch)
  }

  function BodiesAfter(s: State, a: Action): map<TaskId, Body> {
    match a
    case BodyEnds(id, f) => s.bodies[id := Ended(f)]
    case Start(id) => s.bodies[id := Acquired]
    case Spawn(id) => s.bodies[id := Executing]
    case Join(id, _) => s.bodies - {id}
    case _ => s.bodies
  }

  function Next(p: Plan, c: Config, s: State, a: Action): State
    requires Enabled(p, c, s, a)
  {
    State(
      LedgerAfter(s.led, ChangeOf(p, c, s, a)),
      BodiesAfter(s, a),
      if a.BodyEnds? then s.available + 1 else if a.Start? then s.available - 1 else s.available,
      if a.Start? then s.live + 1 else if a.Join? then s.live - 1 else s.live,
      if a.Spawn? then Max(s.peak, c.maxParallel - s.available) else s.peak,
      s.callerCancel || a.CallerCancels?,
      s.expired || a.DeadlinePasses?,
      s.runCancel || a.TripOnCancel? || a.TripOnBudget?,
      s.cancelSeen || a.SeeCancel?,
      s.budgetExhausted || a.TripOnBudget?)
  }

  ghost predicate Step(p: Plan, c: Config, s: State, t: State) {
    exists a :: Enabled(p, c, s, a) && t == Next(p, c, s, a)
  }

  /** A run: consecutive states from the initial one. */
  ghost predicate IsRun(p: Plan, c: Config, tr: seq<State>) {
    && |tr| > 0 && tr[0] == Init(p, c)
    && forall i :: 0 <= i < |tr| - 1 ==> Step(p, c, tr[i], tr[i + 1])
  }

  // ---------------------------------------------------------------------
  // Invariant
  // ---------------------------------------------------------------------

  ghost function Holders(bodies: map<TaskId, Body>): set<TaskId> {
    set id | id in bodies && !bodies[id].Ended?
  }

  /** Permit accounting: holders plus available permits make up the bound,
      and `live` counts exactly the tasks the ledger shows as Running. */
  ghost predicate PermitsOf(n: nat, states: map<TaskId, TaskState>, bodies: map<TaskId, Body>, available: nat,
                            live: nat, peak: nat) {
    && (forall id :: id in bodies <==> id in states && states[id].Running?)
    && live == |bodies|
    && available + |Holders(bodies)| == n
    && peak <= n
  }

  ghost predicate Permits(c: Config, s: State) {
    PermitsOf(c.maxParallel, s.led.states, s.bodies, s.available, s.live, s.peak)
  }

  ghost predicate SomeAcquired(s: State) {
    exists id :: id in s.bodies && s.bodies[id].Acquired?
  }

  ghost predicate PeakSeen(s: State) {
    (exists id :: Ran(s.led.events, id)) ==> s.peak >= 1 || SomeAcquired(s)
  }

  ghost predicate Flags(c: Config, s: State) {
    && (s.cancelSeen ==> s.runCancel)
    && (s.runCancel ==> s.callerCancel || s.budgetExhausted)
    && (s.budgetExhausted ==> s.runCancel)
    && (s.budgetExhausted ==> s.expired)
    && (s.expired ==> c.hasBudget)
  }

  /** Before a cancel is seen, a task is cancelled only by its own body. */
  ghost predicate CancelledRan(p: Plan, s: State) {
    !s.cancelSeen ==>
      forall id :: id in p.nodes && id in s.led.states && s.led.states[id].Cancelled? ==> DepsCompleted(p, s.led.states, id)
  }

  ghost predicate Inv(p: Plan, c: Config, s: State) {
    LedgerInv(p, s.led) && Permits(c, s) && PeakSeen(s) && Flags(c, s) && CancelledRan(p, s)
  }

  ghost predicate LegalChange(p: Plan, l: Ledger, id: TaskId, ch: Change) {
    LegalMove(p, l, id, ch.state, ch.result, ch.record)
  }

  lemma SettleIsLegal(p: Plan, c: Config, l: Ledger, id: TaskId, f: Finish, interrupt: EffectCertainty, now: int)
    requires id in p.nodes && id in l.states && l.states[id].Running?
    ensures LegalChange(p, l, id, SettleChange(c, l, id, f, interrupt, now))
  {
  }

  lemma CancelIsLegal(p: Plan, c: Config, l: Ledger, id: TaskId, interrupt: EffectCertainty, now: int)
    requires id in p.nodes && id in l.states
    requires l.states[id].Pending? || l.states[id].Ready? || l.states[id].WaitingForApproval?
    ensures LegalChange(p, l, id, CancelChange(c, l, id, l.states[id].WaitingForApproval?, interrupt, now))
  {
  }

  lemma SkipIsLegal(p: Plan, c: Config, l: Ledger, id: TaskId, now: int)
    requires id in p.nodes && id in l.states && l.states[id].Pending?
    requires FirstBad(p.nodes[id].deps, l.states).Some?
    ensures LegalChange(p, l, id, SkipChange(c, l, id, FirstBad(p.nodes[id].deps, l.states).value, now))
  {
  }

  /** Whatever a step does to the ledger is one legal move, or nothing. */
  lemma StepMovesLegally(p: Plan, c: Config, s: State, a: Action)
    requires s.led.states.Keys == p.nodes.Keys && Permits(c, s)
    requires Enabled(p, c, s, a)
    ensures match ChangeOf(p, c, s, a)
      case None => Next(p, c, s, a).led == s.led
      case Some((id, ch)) => Next(p, c, s, a).led == Apply(s.led, id, ch) && LegalChange(p, s.led, id, ch)
  {
    match a
    case CancelOpen(id, now) => CancelIsLegal(p, c, s.led, id, p.nodes[id].interrupt, now);
    case Skip(id, now) => SkipIsLegal(p, c, s.led, id, now);
    case Join(id, now) => SettleIsLegal(p, c, s.led, id, s.bodies[id].finish, p.nodes[id].interrupt, now);
    case MakeReady(id) =>
    case Start(id) =>
    case _ =>
  }

  lemma LedgerInvStep(p: Plan, c: Config, s: State, a: Action)
    requires ValidPlan(p) && LedgerInv(p, s.led) && Permits(c, s) && Enabled(p, c, s, a)
    ensures LedgerInv(p, Next(p, c, s, a).led)
  {
    StepMovesLegally(p, c, s, a);
    var ch := ChangeOf(p, c, s, a);
    if ch.Some? {
      LedgerInvKept(p, s.led, ch.value.0, ch.value.1.state, ch.value.1.result, ch.value.1.record);
    }
  }

  lemma StatesAfter(p: Plan, c: Config, s: State, a: Action)
    requires s.led.states.Keys == p.nodes.Keys && Permits(c, s) && Enabled(p, c, s, a)
    ensures match ChangeOf(p, c, s, a)
      case None => Next(p, c, s, a).led.states == s.led.states
      case Some((id, ch)) =>
        && id in s.led.states && Next(p, c, s, a).led.states == s.led.states[id := ch.state]
        && LegalNext(s.led.states[id].Name(), ch.state.Name())
  {
    StepMovesLegally(p, c, s, a);
  }

  lemma SubsetSize<T>(a: set<T>, b: set<T>)
    requires a <= b
    ensures |a| <= |b|
  {
    assert b == a + (b - a);
  }

  lemma EndKeepsPermits(n: nat, states: map<TaskId, TaskState>, bodies: map<TaskId, Body>, available: nat, live: nat,
                        peak: nat, id: TaskId, f: Finish)
    requires PermitsOf(n, states, bodies, available, live, peak)
    requires id in bodies && !bodies[id].Ended?
    ensures PermitsOf(n, states, bodies[id := Ended(f)], available + 1, live, peak)
  {
    var after := bodies[id := Ended(f)];
    assert after.Keys == bodies.Keys;
    assert Holders(after) == Holders(bodies) - {id};
  }

  lemma StartKeepsPermits(n: nat, states: map<TaskId, TaskState>, bodies: map<TaskId, Body>, available: nat, live: nat,
                          peak: nat, id: TaskId)
    requires PermitsOf(n, states, bodies, available, live, peak)
    requires id in states && states[id].Ready? && available > 0
    ensures PermitsOf(n, states[id := Running], bodies[id := Acquired], available - 1, live + 1, peak)
  {
    var after := bodies[id := Acquired];
    assert id !in bodies;
    assert after.Keys == bodies.Keys + {id};
    assert Holders(after) == Holders(bodies) + {id};
  }

  lemma SpawnKeepsPermits(n: nat, states: map<TaskId, TaskState>, bodies: map<TaskId, Body>, available: nat, live: nat,
                          peak: nat, id: TaskId)
    requires PermitsOf(n, states, bodies, available, live, peak)
    requires id in bodies && bodies[id].Acquired?
    ensures PermitsOf(n, states, bodies[id := Executing], available, live, Max(peak, n - available))
    ensures n - available >= 1
  {
    var after := bodies[id := Executing];
    assert after.Keys == bodies.Keys;
    assert Holders(after) == Holders(bodies);
    SubsetSize({id}, Holders(bodies));
  }

  lemma JoinKeepsPermits(n: nat, states: map<TaskId, TaskState>, bodies: map<TaskId, Body>, available: nat, live: nat,
                         peak: nat, id: TaskId, st: TaskState)
    requires PermitsOf(n, states, bodies, available, live, peak)
    requires id in bodies && bodies[id].Ended? && !st.Running?
    ensures live > 0 && PermitsOf(n, states[id := st], bodies - {id}, available, live - 1, peak)
  {
    var after := bodies - {id};
    assert after.Keys == bodies.Keys - {id};
    assert Holders(after) == Holders(bodies);
    SubsetSize({id}, bodies.Keys);
  }

  lemma MoveKeepsPermits(n: nat, states: map<TaskId, TaskState>, bodies: map<TaskId, Body>, available: nat, live: nat,
                         peak: nat, id: TaskId, st: TaskState)
    requires PermitsOf(n, states, bodies, available, live, peak)
    requires id in states && !states[id].Running? && !st.Running?
    ensures PermitsOf(n, states[id := st], bodies, available, live, peak)
  {
  }

  lemma QuietMoveKeepsPermits(p: Plan, c: Config, s: State, a: Action)
    requires s.led.states.Keys == p.nodes.Keys && Permits(c, s) && Enabled(p, c, s, a)
    requires a.CancelOpen? || a.Skip? || a.MakeReady?
    ensures Permits(c, Next(p, c, s, a))
  {
    StatesAfter(p, c, s, a);
    var ch := ChangeOf(p, c, s, a).value;
    MoveKeepsPermits(c.maxParallel, s.led.states, s.bodies, s.available, s.live, s.peak, ch.0, ch.1.state);
  }

  lemma StartStepKeepsPermits(p: Plan, c: Config, s: State, a: Action)
    requires s.led.states.Keys == p.nodes.Keys && Permits(c, s) && Enabled(p, c, s, a) && a.Start?
    ensures Permits(c, Next(p, c, s, a))
  {
    StartKeepsPermits(c.maxParallel, s.led.states, s.bodies, s.available, s.live, s.peak, a.id);
  }

  lemma JoinStepKeepsPermits(p: Plan, c: Config, s: State, a: Action)
    requires s.led.states.Keys == p.nodes.Keys && Permits(c, s) && Enabled(p, c, s, a) && a.Join?
    ensures Permits(c, Next(p, c, s, a))
  {
    var st := SettleChange(c, s.led, a.id, s.bodies[a.id].finish, p.nodes[a.id].interrupt, a.now).state;
    JoinKeepsPermits(c.maxParallel, s.led.states, s.bodies, s.available, s.live, s.peak, a.id, st);
  }

  /** Permits are conserved: taken by a start, returned when the body ends
      (also when it panics), and `live` follows the ledger's Running tasks. */
  lemma PermitsKept(p: Plan, c: Config, s: State, a: Action)
    requires s.led.states.Keys == p.nodes.Keys && Permits(c, s) && Enabled(p, c, s, a)
    ensures Permits(c, Next(p, c, s, a))
  {
    match a
    case BodyEnds(id, f) =>
      EndKeepsPermits(c.maxParallel, s.led.states, s.bodies, s.available, s.live, s.peak, id, f);
    case Spawn(id) =>
      SpawnKeepsPermits(c.maxParallel, s.led.states, s.bodies, s.available, s.live, s.peak, id);
    case Start(_) => StartStepKeepsPermits(p, c, s, a);
    case Join(_, _) => JoinStepKeepsPermits(p, c, s, a);
    case CancelOpen(_, _) => QuietMoveKeepsPermits(p, c, s, a);
    case Skip(_, _) => QuietMoveKeepsPermits(p, c, s, a);
    case MakeReady(_) => QuietMoveKeepsPermits(p, c, s, a);
    case _ =>
  }

  lemma PeakSeenKept(p: Plan, c: Config, s: State, a: Action)
    requires s.led.states.Keys == p.nodes.Keys && Permits(c, s) && PeakSeen(s) && Enabled(p, c, s, a)
    ensures PeakSeen(Next(p, c, s, a))
  {
    var t := Next(p, c, s, a);
    match a
    case Start(id) =>
      assert id in t.bodies && t.bodies[id].Acquired?;
    case Spawn(id) =>
      SpawnKeepsPermits(c.maxParallel, s.led.states, s.bodies, s.available, s.live, s.peak, id);
    case _ =>
      AcquiredKept(p, c, s, a);
      if exists x :: Ran(t.led.events, x) {
        var x :| Ran(t.led.events, x);
        RanBack(p, c, s, a, x);
      }
  }

  lemma AcquiredKept(p: Plan, c: Config, s: State, a: Action)
    requires Enabled(p, c, s, a) && !a.Spawn?
    ensures SomeAcquired(s) ==> SomeAcquired(Next(p, c, s, a))
    ensures !a.Start? ==> Next(p, c, s, a).peak == s.peak
  {
    if SomeAcquired(s) {
      var y :| y in s.bodies && s.bodies[y].Acquired?;
      var b := Next(p, c, s, a).bodies;
      assert y in b && b[y].Acquired?;
    }
  }

  /** A log grows by at most one entry per step, about the task the step moves. */
  lemma EventsAfter(p: Plan, c: Config, s: State, a: Action)
    requires s.led.states.Keys == p.nodes.Keys && Permits(c, s) && Enabled(p, c, s, a)
    ensures match ChangeOf(p, c, s, a)
      case None => Next(p, c, s, a).led.events == s.led.events
      case Some((id, ch)) =>
        Next(p, c, s, a).led.events == s.led.events + [WorkflowEvent(s.led.seqNo + 1, Some(id), ch.state.Name())]
  {
    StepMovesLegally(p, c, s, a);
  }

  lemma RanBack(p: Plan, c: Config, s: State, a: Action, x: TaskId)
    requires s.led.states.Keys == p.nodes.Keys && Permits(c, s) && Enabled(p, c, s, a) && !a.Start?
    requires Ran(Next(p, c, s, a).led.events, x)
    ensures Ran(s.led.events, x)
  {
    EventsAfter(p, c, s, a);
    NotRunning(p, c, s, a);
    var after := Next(p, c, s, a).led.events;
    var k :| IsEvent(after, k, x, NRunning);
    assert IsEvent(s.led.events, k, x, NRunning);
  }

  lemma NotRunning(p: Plan, c: Config, s: State, a: Action)
    requires Enabled(p, c, s, a) && !a.Start?
    ensures var ch := ChangeOf(p, c, s, a); ch.Some? ==> !ch.value.1.state.Running?
  {
  }

  lemma CancelledRanKept(p: Plan, c: Config, s: State, a: Action)
    requires s.led.states.Keys == p.nodes.Keys && Permits(c, s) && CancelledRan(p, s) && Unblocked(p, s.led)
    requires Enabled(p, c, s, a)
    ensures CancelledRan(p, Next(p, c, s, a))
  {
    var t := Next(p, c, s, a);
    StatesAfter(p, c, s, a);
    var ch := ChangeOf(p, c, s, a);
    if !t.cancelSeen {
      forall x | x in p.nodes && x in t.led.states && t.led.states[x].Cancelled? ensures DepsCompleted(p, t.led.states, x) {
        if ch.Some? && ch.value.0 == x {
          assert a.Join?;
        }
        assert DepsCompleted(p, s.led.states, x);
      }
    }
  }

  lemma InitInv(p: Plan, c: Config)
    requires ValidPlan(p)
    ensures Inv(p, c, Init(p, c))
  {
    InitialInv(p);
    assert Holders(Init(p, c).bodies) == {};
  }

  lemma InvKept(p: Plan, c: Config, s: State, a: Action)
    requires ValidPlan(p) && Inv(p, c, s) && Enabled(p, c, s, a)
    ensures Inv(p, c, Next(p, c, s, a))
  {
    LedgerInvStep(p, c, s, a);
    PermitsKept(p, c, s, a);
    PeakSeenKept(p, c, s, a);
    CancelledRanKept(p, c, s, a);
  }

  lemma StepInv(p: Plan, c: Config, s: State, t: State)
    requires ValidPlan(p) && Inv(p, c, s) && Step(p, c, s, t)
    ensures Inv(p, c, t)
  {
    var a :| Enabled(p, c, s, a) && t == Next(p, c, s, a);
    InvKept(p, c, s, a);
  }

  /** Every state of every run satisfies the invariant. */
  lemma {:induction false} AlwaysInv(p: Plan, c: Config, tr: seq<State>, i: nat)
    requires ValidPlan(p) && IsRun(p, c, tr) && i < |tr|
    ensures Inv(p, c, tr[i])
  {
    if i == 0 {
      InitInv(p, c);
    } else {
      AlwaysInv(p, c, tr, i - 1);
      assert Step(p, c, tr[i - 1], tr[i - 1 + 1]);
      StepInv(p, c, tr[i - 1], tr[i]);
    }
  }
}
