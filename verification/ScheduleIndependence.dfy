/**
 The outcome of an undisturbed run does not depend on the schedule: whatever
 the interleaving and the parallelism, every task ends as a recursive
 evaluation of the graph says it does.
 */
module ScheduleIndependence {
  import opened Failure
  import opened WorkflowSpec
  import opened WorkflowLedger
  import opened LedgerInvariant
  import opened WorkflowMachine
  import opened WorkflowReport

  /** How a task ended, without the parts that depend on timing: sequence
      numbers, clock readings, and which of several bad predecessors was seen first. */
  datatype Verdict =
    | VOpen
    | VPending
    | VSkipped
    | VWaiting
    | VCompleted(digest: string)
    | VFailed(faultClass: FailureClass, certainty: EffectCertainty, cause: seq<CauseEntry>)
    | VCancelled(certainty: EffectCertainty, cause: seq<CauseEntry>)
  {
    predicate IsBad() {
      VSkipped? || VFailed? || VCancelled?
    }
  }

  function VerdictOf(l: Ledger, id: TaskId): Verdict
    requires id in l.states
    requires l.states[id].Completed? ==> id in l.results
    requires l.states[id].IsBad() ==> id in l.failures
  {
    match l.states[id]
    case Pending => VPending
    case Ready => VOpen
    case Running => VOpen
    case WaitingForApproval => VWaiting
    case Completed => VCompleted(l.results[id])
    case Failed(f) => VFailed(f.faultClass, f.certainty, f.cause)
    case Cancelled => VCancelled(l.failures[id].certainty, l.failures[id].cause)
    case Skipped(_) => VSkipped
  }

  // ---------------------------------------------------------------------
  // The reference: evaluate the graph from its roots
  // ---------------------------------------------------------------------

  /** The verdict on a task whose body ran and finished with `f`. */
  function BodyVerdict(w: Wording, f: Finish, interrupt: EffectCertainty): Verdict {
    match f
    case Outcome(Done(digest)) => VCompleted(digest)
    case Outcome(Fault(fault)) => VFailed(fault.faultClass, fault.certainty, CauseOf(fault.message))
    case Outcome(NeedsApproval) => VWaiting
    case Outcome(GaveUp) => VCancelled(interrupt, CauseOf(w.cancelledWhileRunning))
    case Interrupted => VCancelled(interrupt, CauseOf(w.cancelledWhileRunning))
    case TimedOut => VFailed(Timeout, interrupt, CauseOf(w.timeoutElapsed))
    case Panicked => VFailed(FailureClass.Failed, UncertainEffect, CauseOf(w.bodyPanicked))
  }

  /** Skipped below anything bad, run once everything above completed, otherwise left pending. */
  ghost function Eval(p: Plan, w: Wording, out: TaskId -> Finish, id: TaskId): Verdict
    requires ValidPlan(p) && id in p.nodes
    decreases Rank(p)[id], 1
  {
    if BadAbove(p, w, out, id) then VSkipped
    else if DoneAbove(p, w, out, id) then BodyVerdict(w, out(id), p.nodes[id].interrupt)
    else VPending
  }

  ghost predicate BadAbove(p: Plan, w: Wording, out: TaskId -> Finish, id: TaskId)
    requires ValidPlan(p) && id in p.nodes
    decreases Rank(p)[id], 0
  {
    exists d :: d in p.nodes[id].deps && Eval(p, w, out, d).IsBad()
  }

  ghost predicate DoneAbove(p: Plan, w: Wording, out: TaskId -> Finish, id: TaskId)
    requires ValidPlan(p) && id in p.nodes
    decreases Rank(p)[id], 0
  {
    forall d :: d in p.nodes[id].deps ==> Eval(p, w, out, d).VCompleted?
  }

  // ---------------------------------------------------------------------
  // Runs whose bodies follow a script
  // ---------------------------------------------------------------------

  /** Every body that ended did so with the outcome the script gives its task. */
  ghost predicate Obeys(out: TaskId -> Finish, s: State) {
    forall id :: id in s.bodies && s.bodies[id].Ended? ==> s.bodies[id].finish == out(id)
  }

  ghost predicate ScriptedRun(p: Plan, c: Config, out: TaskId -> Finish, tr: seq<State>) {
    IsRun(p, c, tr) && forall i :: 0 <= i < |tr| ==> Obeys(out, tr[i])
  }

  predicate RanToEnd(st: TaskState, cancelSeen: bool) {
    st.Completed? || st.Failed? || st.WaitingForApproval? || (st.Cancelled? && !cancelSeen)
  }

  /** Tasks that ran carry the verdict of their own script entry. */
  ghost predicate Agrees(p: Plan, c: Config, out: TaskId -> Finish, l: Ledger, cancelSeen: bool) {
    Partitioned(p, l) &&
    forall id :: id in p.nodes && RanToEnd(l.states[id], cancelSeen) ==>
      VerdictOf(l, id) == BodyVerdict(c.wording, out(id), p.nodes[id].interrupt)
  }

  /** What a ledger change says about its task. */
  function VerdictOfChange(ch: Change): Verdict
    requires ch.state.Completed? ==> ch.result.Some?
    requires ch.state.IsBad() ==> ch.record.Some?
  {
    match ch.state
    case Pending => VPending
    case Ready => VOpen
    case Running => VOpen
    case WaitingForApproval => VWaiting
    case Completed => VCompleted(ch.result.value)
    case Failed(f) => VFailed(f.faultClass, f.certainty, f.cause)
    case Cancelled => VCancelled(ch.record.value.certainty, ch.record.value.cause)
    case Skipped(_) => VSkipped
  }

  lemma ChangedVerdict(p: Plan, l: Ledger, id: TaskId, ch: Change)
    requires Partitioned(p, l) && LegalChange(p, l, id, ch)
    ensures Partitioned(p, Apply(l, id, ch))
    ensures VerdictOf(Apply(l, id, ch), id) == VerdictOfChange(ch)
  {
    PartitionedKept(p, l, id, ch.state, ch.result, ch.record);
  }

  lemma SettleChangeVerdict(c: Config, l: Ledger, id: TaskId, f: Finish, interrupt: EffectCertainty, now: int)
    ensures VerdictOfChange(SettleChange(c, l, id, f, interrupt, now)) == BodyVerdict(c.wording, f, interrupt)
  {
  }

  lemma SettledVerdict(p: Plan, c: Config, l: Ledger, id: TaskId, f: Finish, interrupt: EffectCertainty, now: int)
    requires Partitioned(p, l) && id in p.nodes && l.states[id].Running?
    ensures var m := Apply(l, id, SettleChange(c, l, id, f, interrupt, now));
      Partitioned(p, m) && VerdictOf(m, id) == BodyVerdict(c.wording, f, interrupt)
  {
    SettleIsLegal(p, c, l, id, f, interrupt, now);
    ChangedVerdict(p, l, id, SettleChange(c, l, id, f, interrupt, now));
    SettleChangeVerdict(c, l, id, f, interrupt, now);
  }

  /** A move says nothing new about any other task. */
  lemma OtherVerdicts(p: Plan, l: Ledger, id: TaskId, ch: Change, x: TaskId)
    requires Partitioned(p, l) && LegalChange(p, l, id, ch) && x in p.nodes && x != id
    ensures Partitioned(p, Apply(l, id, ch))
    ensures Apply(l, id, ch).states[x] == l.states[x]
    ensures VerdictOf(Apply(l, id, ch), x) == VerdictOf(l, x)
  {
    PartitionedKept(p, l, id, ch.state, ch.result, ch.record);
  }

  lemma ChangeAgrees(p: Plan, c: Config, out: TaskId -> Finish, s: State, a: Action)
    requires Agrees(p, c, out, s.led, s.cancelSeen) && Permits(c, s) && Obeys(out, s) && Enabled(p, c, s, a)
    requires ChangeOf(p, c, s, a).Some?
    ensures Agrees(p, c, out, Next(p, c, s, a).led, s.cancelSeen)
  {
    var (id, ch) := ChangeOf(p, c, s, a).value;
    StepMovesLegally(p, c, s, a);
    var m := Apply(s.led, id, ch);
    PartitionedKept(p, s.led, id, ch.state, ch.result, ch.record);
    forall x | x in p.nodes && RanToEnd(m.states[x], s.cancelSeen)
      ensures VerdictOf(m, x) == BodyVerdict(c.wording, out(x), p.nodes[x].interrupt)
    {
      if x != id {
        OtherVerdicts(p, s.led, id, ch, x);
      } else {
        EndedByJoin(p, c, s, a);
        SettledVerdict(p, c, s.led, id, s.bodies[id].finish, p.nodes[id].interrupt, a.now);
      }
    }
  }

  lemma EndedByJoin(p: Plan, c: Config, s: State, a: Action)
    requires Enabled(p, c, s, a) && ChangeOf(p, c, s, a).Some?
    requires RanToEnd(ChangeOf(p, c, s, a).value.1.state, s.cancelSeen)
    ensures a.Join?
  {
  }

  lemma StepAgrees(p: Plan, c: Config, out: TaskId -> Finish, s: State, t: State)
    requires Agrees(p, c, out, s.led, s.cancelSeen) && Permits(c, s) && Obeys(out, s) && Step(p, c, s, t)
    ensures Agrees(p, c, out, t.led, t.cancelSeen)
  {
    var a :| Enabled(p, c, s, a) && t == Next(p, c, s, a);
    if ChangeOf(p, c, s, a).Some? {
      ChangeAgrees(p, c, out, s, a);
    }
  }

  lemma NextAgrees(p: Plan, c: Config, out: TaskId -> Finish, tr: seq<State>, i: nat)
    requires ValidPlan(p) && ScriptedRun(p, c, out, tr) && i + 1 < |tr|
    requires Agrees(p, c, out, tr[i].led, tr[i].cancelSeen)
    ensures Agrees(p, c, out, tr[i + 1].led, tr[i + 1].cancelSeen)
  {
    hide Agrees, ValidPlan, Step, LedgerInv, Permits, PeakSeen, Flags, CancelledRan;
    AlwaysInv(p, c, tr, i);
    assert Step(p, c, tr[i], tr[i + 1]);
    StepAgrees(p, c, out, tr[i], tr[i + 1]);
  }

  lemma StartAgrees(p: Plan, c: Config, out: TaskId -> Finish, tr: seq<State>)
    requires ValidPlan(p) && ScriptedRun(p, c, out, tr)
    ensures Agrees(p, c, out, tr[0].led, tr[0].cancelSeen)
  {
    hide Step, Obeys, ValidPlan, VerdictOf, BodyVerdict;
    assert tr[0] == Init(p, c);
  }

  lemma {:induction false} AlwaysAgrees(p: Plan, c: Config, out: TaskId -> Finish, tr: seq<State>, i: nat)
    requires ValidPlan(p) && ScriptedRun(p, c, out, tr) && i < |tr|
    ensures Agrees(p, c, out, tr[i].led, tr[i].cancelSeen)
  {
    hide Agrees, ValidPlan, ScriptedRun;
    if i == 0 {
      StartAgrees(p, c, out, tr);
    } else {
      AlwaysAgrees(p, c, out, tr, i - 1);
      NextAgrees(p, c, out, tr, i - 1);
    }
  }

  // ---------------------------------------------------------------------
  // The theorem
  // ---------------------------------------------------------------------

  ghost predicate SomeDepBad(p: Plan, states: map<TaskId, TaskState>, id: TaskId)
    requires id in p.nodes
  {
    exists d :: d in p.nodes[id].deps && d in states && states[d].IsBad()
  }

  /** In a stopped ledger the state of the predecessors decides whether a task
      is skipped, has run, or is pending. */
  lemma StoppedShape(p: Plan, l: Ledger, id: TaskId)
    requires id in p.nodes && Partitioned(p, l) && Blamed(p, l) && Stopped(p, l.states)
    ensures l.states[id].Skipped? <==> SomeDepBad(p, l.states, id)
    ensures RanToEnd(l.states[id], false) <==> DepsCompleted(p, l.states, id)
    ensures l.states[id].Skipped? || RanToEnd(l.states[id], false) || l.states[id].Pending?
  {
    if l.states[id].Skipped? {
      assert Blames(p, l, id, l.states[id].prerequisite);
    } else if l.states[id].Pending? {
      assert FirstBad(p.nodes[id].deps, l.states).None?;
    } else {
      assert DepsCompleted(p, l.states, id);
    }
  }

  lemma VerdictKind(p: Plan, l: Ledger, id: TaskId)
    requires Partitioned(p, l) && id in p.nodes
    ensures VerdictOf(l, id).IsBad() <==> l.states[id].IsBad()
    ensures VerdictOf(l, id).VCompleted? <==> l.states[id].Completed?
  {
  }

  lemma AboveMatches(p: Plan, w: Wording, out: TaskId -> Finish, l: Ledger, id: TaskId)
    requires ValidPlan(p) && Partitioned(p, l) && id in p.nodes
    requires forall d :: d in p.nodes[id].deps ==> VerdictOf(l, d) == Eval(p, w, out, d)
    ensures BadAbove(p, w, out, id) <==> SomeDepBad(p, l.states, id)
    ensures DoneAbove(p, w, out, id) <==> DepsCompleted(p, l.states, id)
  {
    forall d | d in p.nodes[id].deps
      ensures Eval(p, w, out, d).IsBad() <==> l.states[d].IsBad()
      ensures Eval(p, w, out, d).VCompleted? <==> l.states[d].Completed?
    {
      VerdictKind(p, l, d);
    }
  }

  lemma {:induction false} StoppedIsEval(p: Plan, c: Config, out: TaskId -> Finish, l: Ledger, id: TaskId)
    requires ValidPlan(p) && id in p.nodes
    requires Agrees(p, c, out, l, false) && Blamed(p, l) && Stopped(p, l.states)
    ensures VerdictOf(l, id) == Eval(p, c.wording, out, id)
    decreases Rank(p)[id]
  {
    forall d | d in p.nodes[id].deps
      ensures d in p.nodes && VerdictOf(l, d) == Eval(p, c.wording, out, d)
    {
      StoppedIsEval(p, c, out, l, d);
    }
    AboveMatches(p, c.wording, out, l, id);
    StoppedShape(p, l, id);
  }

  /** Every undisturbed scripted run, under any interleaving and any
      parallelism, ends with exactly the verdicts of the recursive evaluation. */
  lemma RunIsEval(p: Plan, c: Config, out: TaskId -> Finish, tr: seq<State>, id: TaskId)
    requires ValidPlan(p) && ScriptedRun(p, c, out, tr) && Quiet(p, Last(tr)) && !Last(tr).cancelSeen
    requires id in p.nodes
    ensures Partitioned(p, Last(tr).led)
    ensures VerdictOf(Last(tr).led, id) == Eval(p, c.wording, out, id)
  {
    AlwaysAgrees(p, c, out, tr, |tr| - 1);
    AlwaysInv(p, c, tr, |tr| - 1);
    FinishedIsStopped(p, c, Last(tr));
    StoppedIsEval(p, c, out, Last(tr).led, id);
  }

  /** The tables of a report as a ledger to read verdicts from. */
  function Tables(r: Report): Ledger {
    Ledger(r.lastSeq, r.states, r.results, r.failures, r.events, [])
  }

  /** Every task ends in the report as the recursive evaluation says. */
  ghost predicate ReportIsEval(p: Plan, w: Wording, out: TaskId -> Finish, r: Report)
    requires ValidPlan(p)
  {
    && Partitioned(p, Tables(r))
    && forall id :: id in p.nodes ==> VerdictOf(Tables(r), id) == Eval(p, w, out, id)
  }

  lemma ReportedRunIsEval(p: Plan, c: Config, out: TaskId -> Finish, tr: seq<State>)
    requires ValidPlan(p) && ScriptedRun(p, c, out, tr) && Quiet(p, Last(tr)) && !Last(tr).cancelSeen
    ensures ReportIsEval(p, c.wording, out, ReportOf(p, Last(tr)))
  {
    hide ValidPlan, Quiet, Eval;
    var r := ReportOf(p, Last(tr));
    PartitionKnown(p, c, tr);
    forall id | id in p.nodes ensures VerdictOf(Tables(r), id) == Eval(p, c.wording, out, id) {
      RunIsEval(p, c, out, tr, id);
    }
  }

  lemma PartitionKnown(p: Plan, c: Config, tr: seq<State>)
    requires ValidPlan(p) && IsRun(p, c, tr)
    ensures Partitioned(p, Last(tr).led)
  {
    AlwaysInv(p, c, tr, |tr| - 1);
  }

  /** Two undisturbed runs of one script agree on every task's end and on every result. */
  lemma ScheduleDoesNotMatter(p: Plan, c1: Config, c2: Config, out: TaskId -> Finish, tr1: seq<State>, tr2: seq<State>)
    requires ValidPlan(p) && c1.wording == c2.wording
    requires ScriptedRun(p, c1, out, tr1) && Quiet(p, Last(tr1)) && !Last(tr1).cancelSeen
    requires ScriptedRun(p, c2, out, tr2) && Quiet(p, Last(tr2)) && !Last(tr2).cancelSeen
    ensures Partitioned(p, Last(tr1).led) && Partitioned(p, Last(tr2).led)
    ensures forall id :: id in p.nodes ==> VerdictOf(Last(tr1).led, id) == VerdictOf(Last(tr2).led, id)
    ensures Last(tr1).led.results == Last(tr2).led.results
  {
    var l1, l2 := Last(tr1).led, Last(tr2).led;
    AlwaysInv(p, c1, tr1, |tr1| - 1);
    AlwaysInv(p, c2, tr2, |tr2| - 1);
    forall id | id in p.nodes ensures VerdictOf(l1, id) == VerdictOf(l2, id) {
      RunIsEval(p, c1, out, tr1, id);
      RunIsEval(p, c2, out, tr2, id);
    }
    SameVerdictsSameResults(p, l1, l2);
  }

  lemma SameVerdictsSameResults(p: Plan, l1: Ledger, l2: Ledger)
    requires Partitioned(p, l1) && Partitioned(p, l2)
    requires forall id :: id in p.nodes ==> VerdictOf(l1, id) == VerdictOf(l2, id)
    ensures l1.results == l2.results
  {
    forall id
      ensures id in l1.results <==> id in l2.results
      ensures id in l1.results && id in l2.results ==> l1.results[id] == l2.results[id]
    {
      if id in p.nodes {
        SameResult(p, l1, l2, id);
      }
    }
  }

  lemma SameResult(p: Plan, l1: Ledger, l2: Ledger, id: TaskId)
    requires Partitioned(p, l1) && Partitioned(p, l2) && id in p.nodes
    requires VerdictOf(l1, id) == VerdictOf(l2, id)
    ensures id in l1.results <==> id in l2.results
    ensures id in l1.results && id in l2.results ==> l1.results[id] == l2.results[id]
  {
  }
}
