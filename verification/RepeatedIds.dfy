/**
 What the exact condition on call ids means for whole agent runs, and a run of the
 agent in which a repeated id leads the walk astray.
 */
module RepeatedIds {
  import opened Wrappers
  import opened Failure
  import opened Redaction
  import opened Retry
  import opened Provenance
  import opened RootCauseExact
  import opened Agent

  /** In every finished run: the walk is right for all records if and only if the repeats
      of call ids, if there are any, are harmless. */
  lemma RunRootCauseExactly(w: World, pol: Policy, r: AgentResult, bus: seq<FailureRecord>)
    requires RunLogged(w, pol, r, bus)
    ensures WalksRight(AllCalls(r.steps)) <==> Harmless(AllCalls(r.steps))
  {
    RunProvenance(w, pol, r, bus);
    RootCauseExactly(AllCalls(r.steps));
  }

  // ---------------------------------------------------------------------
  // A run with a harmful repeat
  // ---------------------------------------------------------------------

  /** Every dispatch is answered by this fault, so that nothing is ever tried again. */
  const REFUSAL := ToolFault(FailureClass.Failed, UncertainEffect, "refused")

  const ONE_ATTEMPT := Policy(1, "run")

  function Request(id: string): ToolCall {
    ToolCall(id, "write_file", JNull)
  }

  /** The model asks for calls under the ids `a`, `b` and again `a`, and then answers. */
  function Asking(a: string, b: string): World {
    World((turn: nat) => if turn == 1 then Answer([Request(a), Request(b), Request(a)]) else Answer([]),
          (turn: nat, k: nat, attempt: nat) => Probe(false, Replied(Err(REFUSAL))),
          (turn: nat, k: nat, attempt: nat) => (0, 0),
          (args: Json) => "")
  }

  function RefusedAttempt(): AttemptFailure {
    AttemptFailure(1, REFUSAL, 0, 0)
  }

  /** The log entry of a refused call. */
  function RefusedCall(w: World, o: Origin, seq0: nat, parent: Option<string>): ToolExecutionRecord {
    ToolExecutionRecord(o.call.id, o.call.name, o.call.args, Redact(REFUSAL.message, o.call.args), false,
                        Some(AttemptRecord(w, ONE_ATTEMPT, o, RefusedAttempt(), seq0 + 1, parent)), [])
  }

  lemma RefusedIsLogged(w: World, o: Origin, seq0: nat, parent: Option<string>)
    requires w.probes(o.turn, o.k, 1) == Probe(false, Replied(Err(REFUSAL))) && w.clock(o.turn, o.k, 1) == (0, 0)
    ensures CallLogged(w, ONE_ATTEMPT, o, seq0, parent, RefusedCall(w, o, seq0, parent))
    ensures |Records(RefusedCall(w, o, seq0, parent))| == 1 && !Halts(RefusedCall(w, o, seq0, parent))
  {
    hide Redact, IsIdempotent;
    var call, fs := RefusedCall(w, o, seq0, parent), [RefusedAttempt()];
    var r: Result<string, ToolFault> := Err(REFUSAL);
    assert Answers(w, o)(1) == r;
    assert RetryOutcome(Answers(w, o), Clock(w, o), CallLimit(ONE_ATTEMPT, o), r, fs);
    assert LoggedAs(w, ONE_ATTEMPT, o, seq0, parent, call, r, fs);
  }

  lemma RefusedNext(w: World, asked: seq<Origin>, calls: seq<ToolExecutionRecord>, bus: seq<FailureRecord>) returns (call: ToolExecutionRecord)
    requires |calls| < |asked|
    requires Progress(w, ONE_ATTEMPT, asked, calls, |AllRecords(calls)|, ParentCall(calls, |calls|), bus)
    requires w.probes(asked[|calls|].turn, asked[|calls|].k, 1) == Probe(false, Replied(Err(REFUSAL)))
    requires w.clock(asked[|calls|].turn, asked[|calls|].k, 1) == (0, 0)
    ensures call.callId == asked[|calls|].call.id && !call.success && |Records(call)| == 1
    ensures var more := calls + [call];
      Progress(w, ONE_ATTEMPT, asked, more, |AllRecords(more)|, ParentCall(more, |more|), bus + Records(call))
  {
    hide Progress, CallLogged, Redact, AttemptRecord, AllRecords;
    var o, n, parent := asked[|calls|], |AllRecords(calls)|, ParentCall(calls, |calls|);
    call := RefusedCall(w, o, n, parent);
    RefusedIsLogged(w, o, n, parent);
    ProgressSnoc(w, ONE_ATTEMPT, asked, calls, n, parent, bus, call);
    AllRecordsSnoc(calls, call);
  }

  lemma ThreeAsked(a: string, b: string)
    ensures Asked(Asking(a, b), 2) ==
      [Origin(1, 0, Request(a)), Origin(1, 1, Request(b)), Origin(1, 2, Request(a))]
  {
    var w := Asking(a, b);
    assert Asked(w, 0) == [];
    assert AskedIn(w, 1) == [Origin(1, 0, Request(a)), Origin(1, 1, Request(b)), Origin(1, 2, Request(a))];
    assert Asked(w, 1) == Asked(w, 0) + AskedIn(w, 1);
    assert AskedIn(w, 2) == [];
    assert Asked(w, 2) == Asked(w, 1) + AskedIn(w, 2);
  }

  lemma ThreeRefused(a: string, b: string) returns (calls: seq<ToolExecutionRecord>, bus: seq<FailureRecord>)
    ensures |calls| == 3 && calls[0].callId == calls[2].callId == a && calls[1].callId == b
    ensures forall j :: 0 <= j < 3 ==> Recorded(calls, j)
    ensures Progress(Asking(a, b), ONE_ATTEMPT, Asked(Asking(a, b), 2), calls, |AllRecords(calls)|, ParentCall(calls, 3), bus)
  {
    hide Progress, AllRecords, Asked;
    var w, asked := Asking(a, b), Asked(Asking(a, b), 2);
    ThreeAsked(a, b);
    NothingYet(w, asked);
    var c0 := RefusedNext(w, asked, [], []);
    var c1 := RefusedNext(w, asked, [] + [c0], [] + Records(c0));
    var c2 := RefusedNext(w, asked, [] + [c0] + [c1], [] + Records(c0) + Records(c1));
    calls, bus := [] + [c0] + [c1] + [c2], [] + Records(c0) + Records(c1) + Records(c2);
  }

  lemma NothingYet(w: World, asked: seq<Origin>)
    ensures Progress(w, ONE_ATTEMPT, asked, [], |AllRecords([])|, ParentCall([], 0), [])
  {
  }

  /** For any two different ids there is a run of the agent, with calls under the first, the
      second and the first again, in which the walk from some record ends in the wrong place. */
  lemma RepeatedIdsDefeatTheWalk(a: string, b: string) returns (r: AgentResult, bus: seq<FailureRecord>)
    requires a != b
    ensures RunLogged(Asking(a, b), ONE_ATTEMPT, r, bus)
    ensures !WalksRight(AllCalls(r.steps))
  {
    hide Progress, AllRecords, RunLogged, Asked, WalksRight;
    var calls: seq<ToolExecutionRecord>;
    calls, bus := ThreeRefused(a, b);
    r := AgentResult([AgentStep(1, calls), AgentStep(2, [])], 2, true);
    CallsOfTwoSteps(calls, r.steps);
    ThreeAsked(a, b);
    FullRun(Asking(a, b), ONE_ATTEMPT, r, |AllRecords(calls)|, ParentCall(calls, 3), bus);
    RunRootCauseExactly(Asking(a, b), ONE_ATTEMPT, r, bus);
    GapIsHarmful(calls, 0, 1, 2);
  }

  lemma GapIsHarmful(calls: seq<ToolExecutionRecord>, k: nat, x: nat, j: nat)
    requires Repeat(calls, k, j) && k < x < j && calls[x].callId != calls[k].callId
    ensures !Harmless(calls)
  {
    assert !HarmlessRepeat(calls, k, j);
  }

  lemma CallsOfTwoSteps(calls: seq<ToolExecutionRecord>, steps: seq<AgentStep>)
    requires steps == [AgentStep(1, calls), AgentStep(2, [])]
    ensures AllCalls(steps) == calls
  {
    assert steps[..1] == [steps[0]] && steps[..1][..0] == [];
    assert AllCalls(steps[..1]) == AllCalls([]) + calls;
    assert AllCalls(steps) == AllCalls(steps[..1]) + [];
  }
}
