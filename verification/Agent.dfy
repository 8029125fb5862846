/**
 The agent loop: model turns, gated tool calls with retry, the failure
 records it writes, and when it stops.
 */
module Agent {
  import opened Wrappers
  import opened Failure
  import opened Redaction
  import opened Retry
  import opened Provenance

  datatype ToolCall = ToolCall(id: string, name: string, args: Json)

  /** What the model answers in one turn. No calls means a final answer. */
  datatype ModelTurn = InferenceError | Answer(calls: seq<ToolCall>)

  /** Everything outside the loop: the model, what happens around each
      dispatch (turn, call, attempt) and when, and the payload digest. */
  datatype World = World(
    model: nat -> ModelTurn,
    probes: (nat, nat, nat) -> Probe,
    clock: (nat, nat, nat) -> (int, int),
    digest: Json -> string)

  datatype Policy = Policy(maxAttempts: nat, runId: string)

  datatype AgentStep = AgentStep(stepIndex: nat, toolCalls: seq<ToolExecutionRecord>)

  datatype AgentResult = AgentResult(steps: seq<AgentStep>, turnsTaken: nat, completed: bool)

  /** The capabilities that only read. */
  const READ_ONLY: set<string> := {"read_file", "list_dir", "git_status", "cortex.search", "cortex_recall"}

  /** What the skill contract says to be safe to repeat; any other name is not. */
  predicate IsIdempotent(name: string) {
    name == "read_file" || name == "list_dir" || name == "git_status" || name == "cortex.search" || name == "cortex_recall"
  }

  // ---------------------------------------------------------------------
  // One call
  // ---------------------------------------------------------------------

  /** Which call of which turn. */
  datatype Origin = Origin(turn: nat, k: nat, call: ToolCall)

  function Answers(w: World, o: Origin): nat -> Result<string, ToolFault> {
    (attempt: nat) => AttemptTool(w.probes(o.turn, o.k, attempt), IsIdempotent(o.call.name))
  }

  function Clock(w: World, o: Origin): nat -> (int, int) {
    (attempt: nat) => w.clock(o.turn, o.k, attempt)
  }

  function CallLimit(pol: Policy, o: Origin): nat {
    Limit(IsIdempotent(o.call.name), pol.maxAttempts)
  }

  /** The record written for one failed attempt. */
  function AttemptRecord(w: World, pol: Policy, o: Origin, a: AttemptFailure, sequence: nat, parent: Option<string>): FailureRecord {
    FailureRecord(sequence, pol.runId, o.turn, o.call.id, parent, o.call.name, a.attempt, a.fault.faultClass,
                  a.fault.certainty, a.createdAt, a.failedAt, [], false)
      .WithCause("tool_dispatch", Redact(a.fault.message, o.call.args), Some(w.digest(o.call.args)))
  }

  /** What the log entry of a call says about the attempts that were made. */
  ghost predicate CallLogged(w: World, pol: Policy, o: Origin, seq0: nat, parent: Option<string>, call: ToolExecutionRecord) {
    && call.callId == o.call.id && call.toolName == o.call.name && call.arguments == o.call.args
    && (call.success <==> call.failure.None?)
    && exists r, fs :: LoggedAs(w, pol, o, seq0, parent, call, r, fs)
  }

  ghost predicate LoggedAs(w: World, pol: Policy, o: Origin, seq0: nat, parent: Option<string>, call: ToolExecutionRecord,
                           r: Result<string, ToolFault>, fs: seq<AttemptFailure>) {
    && RetryOutcome(Answers(w, o), Clock(w, o), CallLimit(pol, o), r, fs)
    && (call.success <==> r.Ok?)
    && call.output == (match r case Ok(out) => out case Err(f) => Redact(f.message, o.call.args))
    && |Records(call)| == |fs|
    && forall i :: 0 <= i < |fs| ==> Records(call)[i] == AttemptRecord(w, pol, o, fs[i], seq0 + 1 + i, parent)
  }

  lemma RecordsOfParts(call: ToolExecutionRecord, rs: seq<FailureRecord>)
    requires if call.failure.None? then call.retryFailures == rs
             else rs != [] && call.failure.value == rs[|rs| - 1] && call.retryFailures == rs[..|rs| - 1]
    ensures Records(call) == rs
  {
  }

  method ExecuteCall(w: World, pol: Policy, o: Origin, seq0: nat, parent: Option<string>)
    returns (call: ToolExecutionRecord, failureSeq: nat, published: seq<FailureRecord>)
    ensures CallLogged(w, pol, o, seq0, parent, call) && TellsAnswers(w, pol, o, call)
    ensures published == Records(call) && failureSeq == seq0 + |Records(call)|
  {
    hide Redact, IsIdempotent, Limit, RetryOutcome, AttemptRecord, Answers, Clock, Repeatable, Records,
         TellsAnswers;
    var r, failed := RetryLoop(pol.maxAttempts, IsIdempotent(o.call.name), Answers(w, o), Clock(w, o));
    failureSeq := seq0;
    published := [];
    for i := 0 to |failed|
      invariant failureSeq == seq0 + i && |published| == i
      invariant forall k :: 0 <= k < i ==> published[k] == AttemptRecord(w, pol, o, failed[k], seq0 + 1 + k, parent)
    {
      failureSeq := failureSeq + 1;
      published := published + [AttemptRecord(w, pol, o, failed[i], failureSeq, parent)];
    }
    match r {
      case Ok(out) =>
        call := ToolExecutionRecord(o.call.id, o.call.name, o.call.args, out, true, None, published);
      case Err(fault) =>
        var last := |published| - 1;
        call := ToolExecutionRecord(o.call.id, o.call.name, o.call.args, Redact(fault.message, o.call.args), false,
                                    Some(published[last]), published[..last]);
    }
    RecordsOfParts(call, published);
    assert LoggedAs(w, pol, o, seq0, parent, call, r, failed);
    CallTellsAnswers(w, pol, o, seq0, parent, call);
  }

  // ---------------------------------------------------------------------
  // The run
  // ---------------------------------------------------------------------

  function AllCalls(steps: seq<AgentStep>): seq<ToolExecutionRecord> {
    if steps == [] then [] else AllCalls(steps[..|steps| - 1]) + steps[|steps| - 1].toolCalls
  }

  /** Attempts made for a call: the failed ones, and the successful one if there is one. */
  function AttemptsOf(call: ToolExecutionRecord): nat {
    |Records(call)| + if call.success then 1 else 0
  }

  /** How the last attempt of a call was answered. */
  function LastAnswer(w: World, o: Origin, call: ToolExecutionRecord): Result<string, ToolFault> {
    Answers(w, o)(AttemptsOf(call))
  }

  /** A call after which the run must not go on. */
  predicate Halts(call: ToolExecutionRecord) {
    call.failure.Some? && (call.failure.value.faultClass.ApprovalPending? || call.failure.value.faultClass.Cancelled?)
  }

  /** The calls the model asked for in one turn, and in the first `turns` turns. */
  function AskedIn(w: World, turn: nat): (r: seq<Origin>) {
    match w.model(turn)
    case InferenceError => []
    case Answer(calls) => seq(|calls|, k requires 0 <= k < |calls| => Origin(turn, k, calls[k]))
  }

  function Asked(w: World, turns: nat): seq<Origin> {
    if turns == 0 then [] else Asked(w, turns - 1) + AskedIn(w, turns)
  }

  /** The calls carried out are a first part of the calls asked for, each
      logged with the numbers and the parent that its place gives it. */
  ghost predicate Faithful(w: World, pol: Policy, asked: seq<Origin>, calls: seq<ToolExecutionRecord>) {
    && |calls| <= |asked|
    && forall j: nat :: j < |calls| ==> LoggedAt(w, pol, asked, calls, j)
  }

  ghost predicate NoneHalts(calls: seq<ToolExecutionRecord>) {
    forall j :: 0 <= j < |calls| ==> !Halts(calls[j])
  }

  lemma AllRecordsSnoc(calls: seq<ToolExecutionRecord>, call: ToolExecutionRecord)
    ensures AllRecords(calls + [call]) == AllRecords(calls) + Records(call)
  {
    assert (calls + [call])[..|calls|] == calls;
  }

  /** The `j`-th call is logged with what its place gives it. */
  ghost predicate LoggedAt(w: World, pol: Policy, asked: seq<Origin>, calls: seq<ToolExecutionRecord>, j: nat)
    requires j < |calls| && j < |asked|
  {
    CallLogged(w, pol, asked[j], |AllRecords(calls[..j])|, ParentCall(calls, j), calls[j])
  }

  lemma LoggedAtLonger(w: World, pol: Policy, asked: seq<Origin>, calls: seq<ToolExecutionRecord>,
                       call: ToolExecutionRecord, j: nat)
    requires j < |calls| && j < |asked| && LoggedAt(w, pol, asked, calls, j)
    ensures LoggedAt(w, pol, asked, calls + [call], j)
  {
    hide CallLogged, AllRecords;
    assert (calls + [call])[..j] == calls[..j];
    assert ParentCall(calls + [call], j) == ParentCall(calls, j);
  }

  lemma FaithfulSnoc(w: World, pol: Policy, asked: seq<Origin>, calls: seq<ToolExecutionRecord>, call: ToolExecutionRecord)
    requires Faithful(w, pol, asked, calls) && |calls| < |asked|
    requires CallLogged(w, pol, asked[|calls|], |AllRecords(calls)|, ParentCall(calls, |calls|), call)
    ensures Faithful(w, pol, asked, calls + [call])
  {
    hide CallLogged, AllRecords;
    var more := calls + [call];
    assert LoggedAt(w, pol, asked, more, |calls|) by {
      assert more[..|calls|] == calls;
      assert ParentCall(more, |calls|) == ParentCall(calls, |calls|);
    }
    hide LoggedAt;
    forall j: nat | j < |calls| ensures LoggedAt(w, pol, asked, more, j) {
      LoggedAtLonger(w, pol, asked, calls, call, j);
    }
  }

  lemma FaithfulLonger(w: World, pol: Policy, asked: seq<Origin>, more: seq<Origin>, calls: seq<ToolExecutionRecord>)
    requires Faithful(w, pol, asked, calls)
    ensures Faithful(w, pol, asked + more, calls)
  {
    hide CallLogged, AllRecords;
    forall j: nat | j < |calls| ensures LoggedAt(w, pol, asked + more, calls, j) {
      assert LoggedAt(w, pol, asked, calls, j);
    }
  }

  /** The loop's counters agree with what has been logged, and nothing has halted. */
  ghost predicate Progress(w: World, pol: Policy, asked: seq<Origin>, calls: seq<ToolExecutionRecord>,
                           failureSeq: nat, lastFailed: Option<string>, bus: seq<FailureRecord>) {
    && Faithful(w, pol, asked, calls) && NoneHalts(calls)
    && failureSeq == |AllRecords(calls)|
    && lastFailed == ParentCall(calls, |calls|)
    && bus == AllRecords(calls)
  }

  /** The same right after a call that halts the run. */
  ghost predicate Halted(w: World, pol: Policy, asked: seq<Origin>, calls: seq<ToolExecutionRecord>, bus: seq<FailureRecord>) {
    && Faithful(w, pol, asked, calls)
    && |calls| > 0 && Halts(calls[|calls| - 1]) && NoneHalts(calls[..|calls| - 1])
    && bus == AllRecords(calls)
  }

  lemma ProgressSnoc(w: World, pol: Policy, asked: seq<Origin>, calls: seq<ToolExecutionRecord>,
                     failureSeq: nat, lastFailed: Option<string>, bus: seq<FailureRecord>, call: ToolExecutionRecord)
    requires Progress(w, pol, asked, calls, failureSeq, lastFailed, bus) && |calls| < |asked|
    requires CallLogged(w, pol, asked[|calls|], failureSeq, lastFailed, call)
    ensures !Halts(call) ==>
      Progress(w, pol, asked, calls + [call], failureSeq + |Records(call)|,
               if call.success then None else Some(call.callId), bus + Records(call))
    ensures Halts(call) ==> Halted(w, pol, asked, calls + [call], bus + Records(call))
  {
    hide CallLogged, AllRecords, Faithful, Records;
    FaithfulSnoc(w, pol, asked, calls, call);
    AllRecordsSnoc(calls, call);
    var more := calls + [call];
    assert more[..|more| - 1] == calls;
  }

  lemma ProgressLonger(w: World, pol: Policy, asked: seq<Origin>, more: seq<Origin>, calls: seq<ToolExecutionRecord>,
                       failureSeq: nat, lastFailed: Option<string>, bus: seq<FailureRecord>)
    requires Progress(w, pol, asked, calls, failureSeq, lastFailed, bus)
    ensures Progress(w, pol, asked + more, calls, failureSeq, lastFailed, bus)
  {
    hide AllRecords, Faithful;
    FaithfulLonger(w, pol, asked, more, calls);
  }

  /** Each turn but the last asked for calls, and had all of them carried out; so did the last if `whole`. */
  ghost predicate TurnsLogged(w: World, steps: seq<AgentStep>, whole: bool) {
    forall i: nat :: i < |steps| ==>
      && steps[i].stepIndex == i + 1
      && w.model(i + 1).Answer? && |steps[i].toolCalls| <= |w.model(i + 1).calls|
      && (i < |steps| - 1 ==> w.model(i + 1).calls != [])
      && (whole || i < |steps| - 1 ==> |steps[i].toolCalls| == |w.model(i + 1).calls|)
  }

  lemma TurnSnoc(w: World, steps: seq<AgentStep>, calls: seq<ToolCall>, records: seq<ToolExecutionRecord>)
    requires TurnsLogged(w, steps, true) && (steps != [] ==> w.model(|steps|) != Answer([]))
    requires w.model(|steps| + 1) == Answer(calls) && |records| <= |calls|
    ensures TurnsLogged(w, steps + [AgentStep(|steps| + 1, records)], |records| == |calls|)
  {
  }

  /** The calls of one turn, in order, until one of them halts the run. */
  method ExecuteTurn(w: World, pol: Policy, turn: nat, calls: seq<ToolCall>, ghost before: seq<ToolExecutionRecord>,
                     ghost asked: seq<Origin>, failureSeq0: nat, lastFailed0: Option<string>, bus0: seq<FailureRecord>)
    returns (records: seq<ToolExecutionRecord>, failureSeq: nat, lastFailed: Option<string>, halted: bool,
             bus: seq<FailureRecord>)
    requires w.model(turn) == Answer(calls) && |before| == |asked|
    requires Progress(w, pol, asked, before, failureSeq0, lastFailed0, bus0)
    ensures |records| <= |calls| && (!halted ==> |records| == |calls|)
    ensures !halted ==> Progress(w, pol, asked + AskedIn(w, turn), before + records, failureSeq, lastFailed, bus)
    ensures halted ==> records != [] && Halted(w, pol, asked + AskedIn(w, turn), before + records, bus)
  {
    hide Progress, Halted, CallLogged, Records;
    records, failureSeq, lastFailed, halted, bus := [], failureSeq0, lastFailed0, false, bus0;
    ghost var all := asked + AskedIn(w, turn);
    ProgressLonger(w, pol, asked, AskedIn(w, turn), before, failureSeq, lastFailed, bus);
    assert before + records == before;
    for k := 0 to |calls|
      invariant !halted && |records| == k
      invariant Progress(w, pol, all, before + records, failureSeq, lastFailed, bus)
    {
      ghost var done := before + records;
      var o := Origin(turn, k, calls[k]);
      assert all[|done|] == o;
      var call, n, published := ExecuteCall(w, pol, o, failureSeq, lastFailed);
      ProgressSnoc(w, pol, all, done, failureSeq, lastFailed, bus, call);
      records, failureSeq, bus := records + [call], n, bus + published;
      assert before + records == done + [call];
      lastFailed := if call.success then None else Some(call.callId);
      if Halts(call) {
        halted := true;
        return;
      }
    }
  }

  /** Runs the model and its tool calls for at most `maxTurns` turns. `bus`
      receives one event per failed attempt, also when inference fails and
      the result is lost. */
  method ExecuteTask(w: World, pol: Policy, maxTurns: nat)
    returns (r: Result<AgentResult, ()>, bus: seq<FailureRecord>)
    ensures r.Ok? ==> RunLogged(w, pol, r.value, bus) && r.value.turnsTaken <= maxTurns
    ensures r.Ok? && !r.value.completed && r.value.turnsTaken < maxTurns ==> EndsInStop(w, r.value)
    ensures r.Err? ==> exists t: nat, calls :: t <= maxTurns && RunLost(w, pol, t, calls, bus)
  {
    hide Progress, Halted, RunLogged, RunLost, NoneHalts, TurnsLogged, EndsInStop, Asked, AllCalls;
    var steps: seq<AgentStep> := [];
    bus := [];
    var failureSeq: nat, lastFailed: Option<string> := 0, None;
    ProgressStart(w, pol);
    for turn := 1 to maxTurns + 1
      invariant Progress(w, pol, Asked(w, turn - 1), AllCalls(steps), failureSeq, lastFailed, bus)
      invariant |AllCalls(steps)| == |Asked(w, turn - 1)| && |steps| == turn - 1
      invariant TurnsLogged(w, steps, true) && (steps != [] ==> w.model(|steps|) != Answer([]))
    {
      match w.model(turn) {
        case InferenceError =>
          ProgressIsLost(w, pol, turn, AllCalls(steps), failureSeq, lastFailed, bus);
          return Err(()), bus;
        case Answer(calls) =>
          ghost var done := AllCalls(steps);
          var records: seq<ToolExecutionRecord>, halted := [], false;
          if calls != [] {
            records, failureSeq, lastFailed, halted, bus :=
              ExecuteTurn(w, pol, turn, calls, done, Asked(w, turn - 1), failureSeq, lastFailed, bus);
          } else {
            assert done + records == done && AskedIn(w, turn) == [];
          }
          AskedNext(w, turn);
          StepsSnoc(steps, AgentStep(turn, records));
          TurnSnoc(w, steps, calls, records);
          steps := steps + [AgentStep(turn, records)];
          if halted {
            HaltedRun(w, pol, AgentResult(steps, turn, false), bus);
            return Ok(AgentResult(steps, turn, false)), bus;
          }
          if calls == [] {
            FullRun(w, pol, AgentResult(steps, turn, true), failureSeq, lastFailed, bus);
            return Ok(AgentResult(steps, turn, true)), bus;
          }
      }
    }
    FullRun(w, pol, AgentResult(steps, maxTurns, false), failureSeq, lastFailed, bus);
    r := Ok(AgentResult(steps, maxTurns, false));
  }

  lemma ProgressStart(w: World, pol: Policy)
    ensures Progress(w, pol, Asked(w, 0), AllCalls([]), 0, None, [])
    ensures |AllCalls([])| == |Asked(w, 0)| && TurnsLogged(w, [], true)
  {
  }

  lemma AskedNext(w: World, turn: nat)
    requires turn > 0
    ensures Asked(w, turn) == Asked(w, turn - 1) + AskedIn(w, turn)
    ensures AskedIn(w, turn) == [] ==> Asked(w, turn) == Asked(w, turn - 1)
  {
  }

  /** The result is lost because inference fails in turn `t`: all calls of the turns before were carried out,
      and the bus has what they left. */
  ghost predicate RunLost(w: World, pol: Policy, t: nat, calls: seq<ToolExecutionRecord>, bus: seq<FailureRecord>) {
    && t > 0 && w.model(t).InferenceError?
    && Faithful(w, pol, Asked(w, t - 1), calls) && |calls| == |Asked(w, t - 1)|
    && bus == AllRecords(calls)
  }

  lemma ProgressIsLost(w: World, pol: Policy, t: nat, calls: seq<ToolExecutionRecord>, failureSeq: nat,
                       lastFailed: Option<string>, bus: seq<FailureRecord>)
    requires t > 0 && w.model(t).InferenceError? && |calls| == |Asked(w, t - 1)|
    requires Progress(w, pol, Asked(w, t - 1), calls, failureSeq, lastFailed, bus)
    ensures RunLost(w, pol, t, calls, bus)
  {
    hide Faithful, AllRecords, Asked;
  }

  lemma StepsSnoc(steps: seq<AgentStep>, step: AgentStep)
    ensures AllCalls(steps + [step]) == AllCalls(steps) + step.toolCalls
  {
    assert (steps + [step])[..|steps|] == steps;
  }

  /** What a finished run amounts to: the calls carried out are the calls the
      model asked for, except that nothing follows a call that halts the run. */
  ghost predicate RunLogged(w: World, pol: Policy, r: AgentResult, bus: seq<FailureRecord>) {
    var calls := AllCalls(r.steps);
    && Faithful(w, pol, Asked(w, r.turnsTaken), calls)
    && bus == AllRecords(calls)
    && |r.steps| == r.turnsTaken
    && TurnsLogged(w, r.steps, NoneHalts(calls))
    && (NoneHalts(calls) ==> |calls| == |Asked(w, r.turnsTaken)|)
    && (!NoneHalts(calls) ==>
          && |calls| > 0 && Halts(calls[|calls| - 1]) && NoneHalts(calls[..|calls| - 1])
          && r.turnsTaken > 0 && |calls| > |Asked(w, r.turnsTaken - 1)|)
    && (r.completed <==> r.turnsTaken > 0 && w.model(r.turnsTaken) == Answer([]))
  }

  lemma FullRun(w: World, pol: Policy, r: AgentResult, failureSeq: nat, lastFailed: Option<string>, bus: seq<FailureRecord>)
    requires Progress(w, pol, Asked(w, r.turnsTaken), AllCalls(r.steps), failureSeq, lastFailed, bus)
    requires |AllCalls(r.steps)| == |Asked(w, r.turnsTaken)| && |r.steps| == r.turnsTaken
    requires TurnsLogged(w, r.steps, true)
    requires r.completed <==> r.turnsTaken > 0 && w.model(r.turnsTaken) == Answer([])
    ensures RunLogged(w, pol, r, bus) && NoneHalts(AllCalls(r.steps))
  {
    hide Faithful, AllRecords, Asked;
  }

  lemma HaltedRun(w: World, pol: Policy, r: AgentResult, bus: seq<FailureRecord>)
    requires Halted(w, pol, Asked(w, r.turnsTaken), AllCalls(r.steps), bus)
    requires !r.completed && |r.steps| == r.turnsTaken > 0 && w.model(r.turnsTaken) != Answer([])
    requires TurnsLogged(w, r.steps, true) || TurnsLogged(w, r.steps, false)
    requires |AllCalls(r.steps)| > |Asked(w, r.turnsTaken - 1)|
    ensures RunLogged(w, pol, r, bus) && !NoneHalts(AllCalls(r.steps)) && EndsInStop(w, r)
  {
    hide LoggedAt, AllRecords, Asked, Answers, CallLogged;
    var calls, asked := AllCalls(r.steps), Asked(w, r.turnsTaken);
    HaltsByAnswer(w, pol, asked, calls, |calls| - 1);
  }

  // ---------------------------------------------------------------------
  // When a run stops
  // ---------------------------------------------------------------------

  /** The last call was answered with one of the two faults that stop a run. */
  ghost predicate EndsInStop(w: World, r: AgentResult) {
    var calls, asked := AllCalls(r.steps), Asked(w, r.turnsTaken);
    && 0 < |calls| <= |asked|
    && var a := LastAnswer(w, asked[|calls| - 1], calls[|calls| - 1]);
       a.Err? && a.error.faultClass in {FailureClass.ApprovalPending, FailureClass.Cancelled}
  }

  lemma HaltsByAnswer(w: World, pol: Policy, asked: seq<Origin>, calls: seq<ToolExecutionRecord>, j: nat)
    requires Faithful(w, pol, asked, calls) && j < |calls|
    ensures Halts(calls[j]) <==>
      var a := LastAnswer(w, asked[j], calls[j]);
      a.Err? && a.error.faultClass in {FailureClass.ApprovalPending, FailureClass.Cancelled}
  {
    hide CallLogged, AllRecords, Answers;
    assert LoggedAt(w, pol, asked, calls, j);
    CallTellsAnswers(w, pol, asked[j], |AllRecords(calls[..j])|, ParentCall(calls, j), calls[j]);
  }

  /** A run stops at a call if and only if the call's last attempt is answered with a fault that waits for
      approval or was cancelled: nothing is done after such a call, not even in the same turn, and
      nothing the model asked for is left out unless the last call is one. */
  lemma RunStopsExactly(w: World, pol: Policy, r: AgentResult, bus: seq<FailureRecord>)
    requires RunLogged(w, pol, r, bus)
    ensures |AllCalls(r.steps)| <= |Asked(w, r.turnsTaken)|
    ensures forall j: nat {:trigger AllCalls(r.steps)[j]} :: j < |AllCalls(r.steps)| ==>
      var a := LastAnswer(w, Asked(w, r.turnsTaken)[j], AllCalls(r.steps)[j]);
      a.Err? && a.error.faultClass in {FailureClass.ApprovalPending, FailureClass.Cancelled} ==>
        j == |AllCalls(r.steps)| - 1 && Asked(w, r.turnsTaken)[j].turn == r.turnsTaken && !r.completed
    ensures |AllCalls(r.steps)| < |Asked(w, r.turnsTaken)| ==> EndsInStop(w, r)
  {
    hide CallLogged, AllRecords, Asked, LastAnswer, Faithful;
    var calls, asked := AllCalls(r.steps), Asked(w, r.turnsTaken);
    SomeAsked(w, pol, r, bus);
    forall j: nat | j < |calls| ensures
      var a := LastAnswer(w, asked[j], calls[j]);
      a.Err? && a.error.faultClass in {FailureClass.ApprovalPending, FailureClass.Cancelled} ==>
        j == |calls| - 1 && asked[j].turn == r.turnsTaken && !r.completed
    {
      HaltsByAnswer(w, pol, asked, calls, j);
      if Halts(calls[j]) {
        OnlyLastHalts(calls);
        AskedTurn(w, r.turnsTaken, j);
        LastTurnAsked(w, r);
      }
    }
    if |calls| < |asked| {
      HaltsByAnswer(w, pol, asked, calls, |calls| - 1);
    }
  }

  lemma SomeAsked(w: World, pol: Policy, r: AgentResult, bus: seq<FailureRecord>)
    requires RunLogged(w, pol, r, bus)
    ensures |AllCalls(r.steps)| <= |Asked(w, r.turnsTaken)|
  {
    hide LoggedAt, AllRecords, Asked;
  }

  lemma LastTurnAsked(w: World, r: AgentResult)
    requires r.turnsTaken > 0 && |Asked(w, r.turnsTaken)| > |Asked(w, r.turnsTaken - 1)|
    ensures w.model(r.turnsTaken) != Answer([])
  {
  }

  // ---------------------------------------------------------------------
  // What a logged run guarantees
  // ---------------------------------------------------------------------

  lemma LoggedCallIsLinked(w: World, pol: Policy, o: Origin, seq0: nat, parent: Option<string>, call: ToolExecutionRecord)
    requires CallLogged(w, pol, o, seq0, parent, call)
    ensures LinkedCall(call, parent)
    ensures forall i :: 0 <= i < |Records(call)| ==> Records(call)[i].sequence == seq0 + 1 + i
  {
    hide Redact, IsIdempotent, Limit, Answers;
    var r: Result<string, ToolFault>, fs: seq<AttemptFailure> :| LoggedAs(w, pol, o, seq0, parent, call, r, fs);
  }

  lemma {:induction false} FaithfulIsChronological(w: World, pol: Policy, asked: seq<Origin>, calls: seq<ToolExecutionRecord>, n: nat)
    requires Faithful(w, pol, asked, calls) && n <= |calls|
    ensures Chronological(calls[..n])
  {
    hide CallLogged, Faithful;
    if n > 0 {
      FaithfulIsChronological(w, pol, asked, calls, n - 1);
      LoggedFrom(w, pol, asked, calls, n - 1);
      var a, rs, all := AllRecords(calls[..n - 1]), Records(calls[n - 1]), AllRecords(calls[..n]);
      assert calls[..n][..n - 1] == calls[..n - 1];
      assert all == a + rs;
      forall i | 0 <= i < |all| ensures all[i].sequence == i + 1 {
        assert all[i] == if i < |a| then a[i] else rs[i - |a|];
      }
    }
  }

  lemma LoggedFrom(w: World, pol: Policy, asked: seq<Origin>, calls: seq<ToolExecutionRecord>, j: nat)
    requires Faithful(w, pol, asked, calls) && j < |calls|
    ensures LinkedCall(calls[j], ParentCall(calls, j))
    ensures forall i :: 0 <= i < |Records(calls[j])| ==> Records(calls[j])[i].sequence == |AllRecords(calls[..j])| + 1 + i
  {
    hide AllRecords, CallLogged;
    assert LoggedAt(w, pol, asked, calls, j);
    LoggedCallIsLinked(w, pol, asked[j], |AllRecords(calls[..j])|, ParentCall(calls, j), calls[j]);
  }

  /** The record of the `n`-th attempt of a call, told by how that attempt was answered. */
  ghost predicate TellsAttempt(w: World, pol: Policy, o: Origin, n: nat, rec: FailureRecord) {
    match Answers(w, o)(n)
    case Ok(_) => false
    case Err(f) =>
      && rec.faultClass == f.faultClass && rec.certainty == f.certainty
      && rec.runId == pol.runId && rec.stepIndex == o.turn
      && rec.toolCallId == o.call.id && rec.toolName == o.call.name && rec.attempt == n
      && (rec.createdAt, rec.failedAt) == w.clock(o.turn, o.k, n)
      && rec.cause ==
         [CauseEntry("tool_dispatch", Fit(Redact(f.message, o.call.args), 512), Some(w.digest(o.call.args)))]
      && !rec.causeTruncated
  }

  /** What is logged of a call, told by how its attempts were answered. */
  ghost predicate TellsAnswers(w: World, pol: Policy, o: Origin, call: ToolExecutionRecord) {
    && call.callId == o.call.id && call.toolName == o.call.name && call.arguments == o.call.args
    && (forall i :: 0 <= i < |Records(call)| ==> TellsAttempt(w, pol, o, i + 1, Records(call)[i]))
    && match LastAnswer(w, o, call)
       case Ok(out) => call.success && call.failure.None? && call.output == out
       case Err(f) =>
         && !call.success && call.failure.Some? && call.output == Redact(f.message, o.call.args)
         && call.failure.value.faultClass == f.faultClass && call.failure.value.certainty == f.certainty
  }

  lemma CallTellsAnswers(w: World, pol: Policy, o: Origin, seq0: nat, parent: Option<string>, call: ToolExecutionRecord)
    requires CallLogged(w, pol, o, seq0, parent, call)
    ensures TellsAnswers(w, pol, o, call)
  {
    hide Redact, IsIdempotent, Limit, AttemptTool, Fit;
    var r: Result<string, ToolFault>, fs: seq<AttemptFailure> :| LoggedAs(w, pol, o, seq0, parent, call, r, fs);
    forall i | 0 <= i < |Records(call)| ensures TellsAttempt(w, pol, o, i + 1, Records(call)[i]) {
      AttemptIsTold(w, pol, o, fs[i], seq0 + 1 + i, parent);
    }
    if r.Err? {
      assert call.failure == Some(Records(call)[|fs| - 1]);
    }
  }

  lemma AttemptIsTold(w: World, pol: Policy, o: Origin, a: AttemptFailure, sequence: nat, parent: Option<string>)
    requires Answers(w, o)(a.attempt) == Err(a.fault) && Clock(w, o)(a.attempt) == (a.createdAt, a.failedAt)
    ensures TellsAttempt(w, pol, o, a.attempt, AttemptRecord(w, pol, o, a, sequence, parent))
  {
    hide Redact, AttemptTool, IsIdempotent, Fit;
  }

  /** In every finished run, what is recorded and handed back of each call is what its attempts were
      answered: the class and certainty of every fault, its redacted text, and where it happened. */
  lemma RunTellsAnswers(w: World, pol: Policy, r: AgentResult, bus: seq<FailureRecord>, j: nat)
    requires RunLogged(w, pol, r, bus) && j < |AllCalls(r.steps)|
    ensures j < |Asked(w, r.turnsTaken)| && TellsAnswers(w, pol, Asked(w, r.turnsTaken)[j], AllCalls(r.steps)[j])
  {
    hide CallLogged, AllRecords, Asked, TellsAnswers;
    var calls, asked := AllCalls(r.steps), Asked(w, r.turnsTaken);
    assert LoggedAt(w, pol, asked, calls, j);
    CallTellsAnswers(w, pol, asked[j], |AllRecords(calls[..j])|, ParentCall(calls, j), calls[j]);
  }

  /** In every finished run, failure numbers are 1, 2, ... in chronological
      order (and in the order of the bus), every parent link names the
      immediately preceding terminally failed call, and, when call ids are
      distinct, the walk from any record ends at the start of its block of failures. */
  lemma {:induction false} RunProvenance(w: World, pol: Policy, r: AgentResult, bus: seq<FailureRecord>)
    requires RunLogged(w, pol, r, bus)
    ensures Linked(AllCalls(r.steps)) && Chronological(AllCalls(r.steps))
    ensures forall i :: 0 <= i < |bus| ==> bus[i].sequence == i + 1
    ensures DistinctCalls(AllCalls(r.steps)) ==>
      forall j: nat, i: nat :: j < |AllCalls(r.steps)| && i < |Records(AllCalls(r.steps)[j])| ==>
        RootCauseOf(bus, Records(AllCalls(r.steps)[j])[i]) == RootOf(AllCalls(r.steps), j, i)
  {
    hide Faithful, RootCauseOf, RootOf, LinkedCall, Asked;
    var calls := AllCalls(r.steps);
    FaithfulIsChronological(w, pol, Asked(w, r.turnsTaken), calls, |calls|);
    assert calls[..|calls|] == calls;
    forall j: nat | j < |calls| ensures LinkedCall(calls[j], ParentCall(calls, j)) {
      LoggedFrom(w, pol, Asked(w, r.turnsTaken), calls, j);
    }
    if DistinctCalls(calls) {
      forall j: nat, i: nat | j < |calls| && i < |Records(calls[j])|
        ensures RootCauseOf(bus, Records(calls[j])[i]) == RootOf(calls, j, i)
      {
        RootCauseIsBlockStart(calls, j, i);
      }
    }
  }

  /** Also when inference fails and the result is lost, the bus has the failures of all calls
      made until then, numbered and linked in the same way. */
  lemma LostRunProvenance(w: World, pol: Policy, t: nat, calls: seq<ToolExecutionRecord>, bus: seq<FailureRecord>)
    requires RunLost(w, pol, t, calls, bus)
    ensures Linked(calls) && |calls| == |Asked(w, t - 1)|
    ensures forall i :: 0 <= i < |bus| ==> bus[i].sequence == i + 1
  {
    hide Faithful, LinkedCall, Asked;
    var asked := Asked(w, t - 1);
    FaithfulIsChronological(w, pol, asked, calls, |calls|);
    assert calls[..|calls|] == calls;
    forall j: nat | j < |calls| ensures LinkedCall(calls[j], ParentCall(calls, j)) {
      LoggedFrom(w, pol, asked, calls, j);
    }
  }

  /** How often a call has reached the dispatcher in its first `n` attempts. */
  function Dispatches(w: World, o: Origin, n: nat): (d: nat)
    ensures d <= n
  {
    if n == 0 then 0 else Dispatches(w, o, n - 1) + if Dispatched(w.probes(o.turn, o.k, n)) then 1 else 0
  }

  /** Effect safety of one call. Its attempts stay in bounds: more than one only for a read-only capability,
      within the policy and five. It is dispatched at most once otherwise. Every attempt before
      the last was refused as unreachable without effect. A cancel or deadline on a
      mutating call claims no effect only if nothing was dispatched. */
  ghost predicate EffectSafe(w: World, pol: Policy, o: Origin, call: ToolExecutionRecord) {
    && AttemptsInBounds(Answers(w, o), o.call.name in READ_ONLY, pol.maxAttempts, LastAnswer(w, o, call), AttemptsOf(call))
    && Dispatches(w, o, AttemptsOf(call)) <= CallLimit(pol, o)
    && (o.call.name !in READ_ONLY ==> Dispatches(w, o, AttemptsOf(call)) <= 1)
    && (forall i :: 0 <= i < AttemptsOf(call) - 1 ==>
          i < |Records(call)| && Records(call)[i].faultClass == Unavailable && Records(call)[i].certainty == NoEffect)
    && (o.call.name !in READ_ONLY ==>
          forall i :: 0 <= i < |Records(call)| && Records(call)[i].certainty == NoEffect ==>
            var p := w.probes(o.turn, o.k, i + 1);
            p.cancelledBefore || !p.ending.Replied? ==> !Dispatched(p))
  }

  lemma ReadOnlyIsIdempotent(name: string)
    ensures IsIdempotent(name) <==> name in {"read_file", "list_dir", "git_status", "cortex.search", "cortex_recall"}
  {
  }

  lemma {:induction false} CallIsEffectSafe(w: World, pol: Policy, o: Origin, seq0: nat, parent: Option<string>,
                                            call: ToolExecutionRecord)
    requires CallLogged(w, pol, o, seq0, parent, call)
    ensures EffectSafe(w, pol, o, call)
  {
    ReadOnlyIsIdempotent(o.call.name);
    hide Redact, IsIdempotent, AttemptTool, Dispatches;
    var r: Result<string, ToolFault>, fs: seq<AttemptFailure> :| LoggedAs(w, pol, o, seq0, parent, call, r, fs);
    AttemptsCounted(Answers(w, o), Clock(w, o), IsIdempotent(o.call.name), pol.maxAttempts, r, fs);
    forall i | 0 <= i < |Records(call)| && !IsIdempotent(o.call.name) && Records(call)[i].certainty == NoEffect
      ensures var p := w.probes(o.turn, o.k, i + 1); p.cancelledBefore || !p.ending.Replied? ==> !Dispatched(p)
    {
      assert Answers(w, o)(i + 1) == Err(fs[i].fault);
    }
  }

  /** How often the dispatcher was reached during the first `n` calls of a run. */
  function DispatchesOf(w: World, asked: seq<Origin>, calls: seq<ToolExecutionRecord>, n: nat): nat
    requires n <= |calls| <= |asked|
  {
    if n == 0 then 0
    else DispatchesOf(w, asked, calls, n - 1) + Dispatches(w, asked[n - 1], AttemptsOf(calls[n - 1]))
  }

  /** How often it may be reached at most. */
  function DispatchBudget(pol: Policy, asked: seq<Origin>, n: nat): nat
    requires n <= |asked|
  {
    if n == 0 then 0 else DispatchBudget(pol, asked, n - 1) + CallLimit(pol, asked[n - 1])
  }

  lemma {:induction false} DispatchesAreBounded(w: World, pol: Policy, asked: seq<Origin>, calls: seq<ToolExecutionRecord>, n: nat)
    requires n <= |calls| <= |asked| && forall j: nat :: j < |calls| ==> EffectSafe(w, pol, asked[j], calls[j])
    ensures DispatchesOf(w, asked, calls, n) <= DispatchBudget(pol, asked, n)
  {
    if n > 0 {
      hide Dispatches, CallLimit;
      DispatchesAreBounded(w, pol, asked, calls, n - 1);
      assert EffectSafe(w, pol, asked[n - 1], calls[n - 1]);
    }
  }

  /** In which turn a request was made. */
  lemma {:induction false} AskedTurn(w: World, turns: nat, j: nat)
    requires j < |Asked(w, turns)|
    ensures 1 <= Asked(w, turns)[j].turn <= turns
    ensures turns > 0 && j >= |Asked(w, turns - 1)| ==> Asked(w, turns)[j].turn == turns
  {
    if turns > 0 && j < |Asked(w, turns - 1)| {
      AskedTurn(w, turns - 1, j);
    }
  }

  ghost predicate IsRequest(w: World, o: Origin) {
    w.model(o.turn).Answer? && o.k < |w.model(o.turn).calls| && o.call == w.model(o.turn).calls[o.k]
  }

  predicate AskedBefore(a: Origin, b: Origin) {
    a.turn < b.turn || (a.turn == b.turn && a.k < b.k)
  }

  lemma {:induction false} AskedIsRequest(w: World, turns: nat, j: nat)
    requires j < |Asked(w, turns)|
    ensures IsRequest(w, Asked(w, turns)[j])
  {
    if j < |Asked(w, turns - 1)| {
      AskedIsRequest(w, turns - 1, j);
    }
  }

  lemma {:induction false} AskedInOrder(w: World, turns: nat, i: nat, j: nat)
    requires i < j < |Asked(w, turns)|
    ensures AskedBefore(Asked(w, turns)[i], Asked(w, turns)[j])
  {
    AskedTurn(w, turns, j);
    if j < |Asked(w, turns - 1)| {
      AskedInOrder(w, turns - 1, i, j);
    } else if i < |Asked(w, turns - 1)| {
      AskedTurn(w, turns - 1, i);
    }
  }

  lemma {:induction false} RequestIsAsked(w: World, turns: nat, o: Origin)
    requires 1 <= o.turn <= turns && IsRequest(w, o)
    ensures o in Asked(w, turns)
  {
    if o.turn == turns {
      var n := |Asked(w, turns - 1)|;
      assert AskedIn(w, turns)[o.k] == o && Asked(w, turns)[n + o.k] == o;
    } else {
      RequestIsAsked(w, turns - 1, o);
    }
  }

  /** What was asked for: every call of every turn, by turns, and within a turn as the model listed them. */
  lemma {:induction false} AskedExactly(w: World, turns: nat)
    ensures forall o :: o in Asked(w, turns) <==> 1 <= o.turn <= turns && IsRequest(w, o)
    ensures forall i, j :: 0 <= i < j < |Asked(w, turns)| ==> AskedBefore(Asked(w, turns)[i], Asked(w, turns)[j])
  {
    hide Asked, IsRequest;
    forall o ensures o in Asked(w, turns) <==> 1 <= o.turn <= turns && IsRequest(w, o) {
      if o in Asked(w, turns) {
        var j :| 0 <= j < |Asked(w, turns)| && Asked(w, turns)[j] == o;
        AskedTurn(w, turns, j);
        AskedIsRequest(w, turns, j);
      } else if 1 <= o.turn <= turns && IsRequest(w, o) {
        RequestIsAsked(w, turns, o);
      }
    }
    forall i, j | 0 <= i < j < |Asked(w, turns)| ensures AskedBefore(Asked(w, turns)[i], Asked(w, turns)[j]) {
      AskedInOrder(w, turns, i, j);
    }
  }

  /** Effect safety of a whole run: every call is safe, the dispatcher is reached no more often
      than the calls' limits add up to, and a call that waits for approval or was cancelled
      is the last, in the last turn: no dispatch follows it. */
  lemma RunIsEffectSafe(w: World, pol: Policy, r: AgentResult, bus: seq<FailureRecord>)
    requires RunLogged(w, pol, r, bus)
    ensures var calls := AllCalls(r.steps); var asked := Asked(w, r.turnsTaken);
      && |calls| <= |asked|
      && (forall j: nat :: j < |calls| ==> EffectSafe(w, pol, asked[j], calls[j]))
      && DispatchesOf(w, asked, calls, |calls|) <= DispatchBudget(pol, asked, |calls|)
      && (forall j: nat | j < |calls| && calls[j].failure.Some?
                          && calls[j].failure.value.faultClass in {FailureClass.ApprovalPending, FailureClass.Cancelled} ::
            && !r.completed && asked[j].turn == r.turnsTaken
            && DispatchesOf(w, asked, calls, |calls|) == DispatchesOf(w, asked, calls, j + 1))
  {
    hide CallLogged, AllRecords, Asked, EffectSafe, LastAnswer;
    var calls, asked := AllCalls(r.steps), Asked(w, r.turnsTaken);
    RunStopsExactly(w, pol, r, bus);
    forall j: nat | j < |calls|
      ensures EffectSafe(w, pol, asked[j], calls[j])
      ensures calls[j].failure.Some? ==>
        LastAnswer(w, asked[j], calls[j]).Err? &&
        LastAnswer(w, asked[j], calls[j]).error.faultClass == calls[j].failure.value.faultClass
    {
      RunTellsAnswers(w, pol, r, bus, j);
      assert LoggedAt(w, pol, asked, calls, j);
      CallIsEffectSafe(w, pol, asked[j], |AllRecords(calls[..j])|, ParentCall(calls, j), calls[j]);
    }
    DispatchesAreBounded(w, pol, asked, calls, |calls|);
  }

  lemma OnlyLastHalts(calls: seq<ToolExecutionRecord>)
    requires |calls| > 0 && NoneHalts(calls[..|calls| - 1])
    ensures forall j :: 0 <= j < |calls| && Halts(calls[j]) ==> j == |calls| - 1
  {
    forall j | 0 <= j < |calls| - 1 ensures !Halts(calls[j]) {
      assert calls[..|calls| - 1][j] == calls[j];
    }
  }

  /** No string argument that is apart from the placeholder appears in what a
      failed call leaves behind: neither in its output nor in any recorded cause. */
  lemma CallLeaksNothing(w: World, pol: Policy, o: Origin, seq0: nat, parent: Option<string>, call: ToolExecutionRecord, v: string)
    requires CallLogged(w, pol, o, seq0, parent, call)
    requires Collected(o.call.args, v) && Apart(v)
    ensures !call.success ==> !Contains(call.output, v)
    ensures forall i, k :: 0 <= i < |Records(call)| && 0 <= k < |Records(call)[i].cause| ==>
      !Contains(Records(call)[i].cause[k].message, v)
  {
    hide Redact, IsIdempotent, Limit, Answers, Apart, Contains, RetryOutcome, Collected, Fit;
    var r: Result<string, ToolFault>, fs: seq<AttemptFailure> :| LoggedAs(w, pol, o, seq0, parent, call, r, fs);
    if r.Err? {
      RedactedIsFree(r.error.message, o.call.args, v);
    }
    forall i, k | 0 <= i < |Records(call)| && 0 <= k < |Records(call)[i].cause|
      ensures !Contains(Records(call)[i].cause[k].message, v)
    {
      RedactedIsFree(fs[i].fault.message, o.call.args, v);
    }
  }

  /** A redacted message, whole or cut to any length. */
  lemma RedactedIsFree(message: string, args: Json, v: string)
    requires Collected(args, v) && Apart(v)
    ensures !Contains(Redact(message, args), v)
    ensures forall n :: !Contains(Fit(Redact(message, args), n), v)
  {
    RedactionRemoves(message, args, v);
    CutsStayFree(Redact(message, args), v);
  }

  // ---------------------------------------------------------------------
  // Seen as a workflow task
  // ---------------------------------------------------------------------

  datatype Outcome = OutcomeCompleted | OutcomeFailed(fault: ToolFault) | OutcomePending

  /** The last failure record of a run, if any call failed with one. */
  function LastFailure(calls: seq<ToolExecutionRecord>): Option<FailureRecord> {
    if calls == [] then None
    else if calls[|calls| - 1].failure.Some? then calls[|calls| - 1].failure
    else LastFailure(calls[..|calls| - 1])
  }

  /** A failed call says so itself; one without a record, and a run out of turns, claim no certainty. */
  function AgentOutcome(r: AgentResult): Outcome {
    var calls := AllCalls(r.steps);
    var last := LastFailure(calls);
    if last.Some? then
      if last.value.faultClass.ApprovalPending? then OutcomePending
      else
        OutcomeFailed(ToolFault(last.value.faultClass, last.value.certainty,
                                if last.value.cause != [] then last.value.cause[0].message else "agent tool call failed"))
    else if exists i :: 0 <= i < |calls| && !calls[i].success then
      OutcomeFailed(ToolFault(FailureClass.Failed, UncertainEffect, "agent tool call failed without a failure record"))
    else if r.completed then OutcomeCompleted
    else OutcomeFailed(ToolFault(FailureClass.Failed, UncertainEffect, "agent did not complete within its turn budget"))
  }

  lemma {:induction false} LastFailureFound(calls: seq<ToolExecutionRecord>)
    ensures LastFailure(calls).None? <==> forall i :: 0 <= i < |calls| ==> calls[i].failure.None?
  {
    if calls != [] {
      LastFailureFound(calls[..|calls| - 1]);
    }
  }

  lemma {:induction false} NoPendingEarlier(calls: seq<ToolExecutionRecord>)
    requires NoneHalts(calls)
    ensures LastFailure(calls).Some? ==> !LastFailure(calls).value.faultClass.ApprovalPending?
  {
    if calls != [] {
      NoPendingEarlier(calls[..|calls| - 1]);
    }
  }

  /** A run counts as completed exactly when it completed and no call ever
      failed, and as waiting for approval exactly when its last call waits. */
  lemma AgentOutcomeMeaning(w: World, pol: Policy, r: AgentResult, bus: seq<FailureRecord>)
    requires RunLogged(w, pol, r, bus)
    ensures AgentOutcome(r).OutcomeCompleted? <==>
      r.completed && forall i :: 0 <= i < |AllCalls(r.steps)| ==> AllCalls(r.steps)[i].success
    ensures AgentOutcome(r).OutcomePending? <==>
      var calls := AllCalls(r.steps);
      calls != [] && calls[|calls| - 1].failure.Some? && calls[|calls| - 1].failure.value.faultClass.ApprovalPending?
  {
    hide Faithful, Asked;
    var calls := AllCalls(r.steps);
    LastFailureFound(calls);
    forall j: nat | j < |calls| ensures calls[j].success <==> calls[j].failure.None? {
      LoggedFrom(w, pol, Asked(w, r.turnsTaken), calls, j);
    }
    if NoneHalts(calls) {
      NoPendingEarlier(calls);
    }
  }

  /** Call `j` failed for good and none after it did. */
  ghost predicate IsLastFailed(calls: seq<ToolExecutionRecord>, j: nat) {
    j < |calls| && calls[j].failure.Some? && forall k :: j < k < |calls| ==> calls[k].failure.None?
  }

  lemma {:induction false} LastFailureIs(calls: seq<ToolExecutionRecord>, j: nat)
    requires IsLastFailed(calls, j)
    ensures LastFailure(calls) == calls[j].failure
  {
    if j < |calls| - 1 {
      LastFailureIs(calls[..|calls| - 1], j);
    }
  }

  /** A run that did not complete well reports the fault of its last failed call,
      and if no call failed it claims no certainty about effects. */
  lemma ReportedFaultMeaning(w: World, pol: Policy, r: AgentResult, bus: seq<FailureRecord>)
    requires RunLogged(w, pol, r, bus) && AgentOutcome(r).OutcomeFailed?
    ensures forall j: nat {:trigger AllCalls(r.steps)[j]} :: IsLastFailed(AllCalls(r.steps), j) ==>
      var last := AllCalls(r.steps)[j].failure.value;
      && last.cause != []
      && AgentOutcome(r).fault == ToolFault(last.faultClass, last.certainty, last.cause[0].message)
    ensures (forall j: nat :: j < |AllCalls(r.steps)| ==> AllCalls(r.steps)[j].success) ==>
      !r.completed && AgentOutcome(r).fault.certainty.UncertainEffect? && AgentOutcome(r).fault.faultClass.Failed?
  {
    hide CallLogged, AllRecords, Asked;
    var calls, asked := AllCalls(r.steps), Asked(w, r.turnsTaken);
    forall j: nat | IsLastFailed(calls, j)
      ensures LastFailure(calls) == calls[j].failure && calls[j].failure.value.cause != []
    {
      LastFailureIs(calls, j);
      assert LoggedAt(w, pol, asked, calls, j);
      LoggedCallHasCauses(w, pol, asked[j], |AllRecords(calls[..j])|, ParentCall(calls, j), calls[j]);
    }
    forall j: nat | j < |calls| ensures calls[j].success <==> calls[j].failure.None? {
      LoggedFrom(w, pol, asked, calls, j);
    }
    LastFailureFound(calls);
  }

  lemma LoggedCallHasCauses(w: World, pol: Policy, o: Origin, seq0: nat, parent: Option<string>, call: ToolExecutionRecord)
    requires CallLogged(w, pol, o, seq0, parent, call) && call.failure.Some?
    ensures call.failure.value.cause != [] && call.failure.value == Records(call)[|Records(call)| - 1]
    ensures call.arguments == o.call.args
  {
    hide Redact, IsIdempotent, Limit, Answers;
    var r: Result<string, ToolFault>, fs: seq<AttemptFailure> :| LoggedAs(w, pol, o, seq0, parent, call, r, fs);
    var last := |fs| - 1;
    assert Records(call)[last] == AttemptRecord(w, pol, o, fs[last], seq0 + 1 + last, parent);
  }

  /** What an agent reports to the workflow that runs it, whole or cut to any
      length, names no argument of the call that failed if it is apart from the placeholder. */
  lemma ReportedFaultLeaksNothing(w: World, pol: Policy, r: AgentResult, bus: seq<FailureRecord>, j: nat, v: string)
    requires RunLogged(w, pol, r, bus) && AgentOutcome(r).OutcomeFailed? && IsLastFailed(AllCalls(r.steps), j)
    requires Collected(AllCalls(r.steps)[j].arguments, v) && Apart(v)
    ensures forall n :: !Contains(Fit(AgentOutcome(r).fault.message, n), v)
  {
    hide CallLogged, AllRecords, Asked, Apart, Contains, Collected, Fit;
    var calls, asked := AllCalls(r.steps), Asked(w, r.turnsTaken);
    LastFailureIs(calls, j);
    assert LoggedAt(w, pol, asked, calls, j);
    var n, parent := |AllRecords(calls[..j])|, ParentCall(calls, j);
    LoggedCallHasCauses(w, pol, asked[j], n, parent, calls[j]);
    CallLeaksNothing(w, pol, asked[j], n, parent, calls[j], v);
    CutsStayFree(AgentOutcome(r).fault.message, v);
  }

  lemma CutsStayFree(s: string, v: string)
    requires !Contains(s, v)
    ensures forall n :: !Contains(Fit(s, n), v)
  {
    forall n ensures !Contains(Fit(s, n), v) {
      var t := Fit(s, n);
      assert t <= s && t + s[|t|..] == s;
      if Contains(t, v) {
        PrefixContains(t, s[|t|..], v);
      }
    }
  }
}
