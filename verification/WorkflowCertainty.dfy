/**
 What the failure records of a run say, exactly: a skipped task had no effect
 and blames its first bad predecessor; a cancelled one had none if it never
 ran, and otherwise what its runner says about interruptions; a failed one did
 run, and its record is that of the way its body ended.
 */
module WorkflowCertainty {
  import opened Wrappers
  import opened Failure
  import opened WorkflowSpec
  import opened WorkflowLedger
  import opened LedgerInvariant
  import opened WorkflowMachine
  import opened WorkflowSafety

  ghost predicate Waited(ev: seq<WorkflowEvent>, id: TaskId) {
    exists k :: IsEvent(ev, k, id, NWaiting)
  }

  /** The record of one task, judged by its state and by what the log says it did. */
  ghost predicate ExactRecord(p: Plan, w: Wording, ev: seq<WorkflowEvent>, id: TaskId, st: TaskState, rec: FailureRecord)
    requires id in p.nodes
  {
    match st
    case Skipped(d) =>
      rec.faultClass.Rejected? && rec.certainty.NoEffect? && rec.cause == CauseOf(w.prerequisiteFailed + d)
    case Cancelled =>
      && rec.faultClass.Cancelled?
      && rec.certainty == (if Ran(ev, id) then p.nodes[id].interrupt else NoEffect)
      && rec.cause == CauseOf(if !Ran(ev, id) then w.cancelledBeforeStart
                              else if Waited(ev, id) then w.cancelledWhileWaiting
                              else w.cancelledWhileRunning)
    case Failed(_) => Ran(ev, id)
    case _ => true
  }

  ghost predicate Exact(p: Plan, c: Config, l: Ledger) {
    forall id :: id in p.nodes && id in l.states && id in l.failures ==>
      && FromWorkflow(c, l.failures[id])
      && ExactRecord(p, c.wording, l.events, id, l.states[id], l.failures[id])
  }

  // ---------------------------------------------------------------------
  // What the log says a task has done
  // ---------------------------------------------------------------------

  /** Having been in a state, a task never gets back above it. */
  lemma EnteredHeight(p: Plan, ev: seq<WorkflowEvent>, k: nat, id: TaskId, n: Name)
    requires LegalLog(p, ev) && IsEvent(ev, k, id, n)
    ensures Height(NameAfter(ev, id)) <= Height(n)
  {
    hide LegalLog, NameAfter, Height;
    assert ev[..k + 1] == ev[..k] + [ev[k]] && ev[..|ev|] == ev;
    NameAfterSnoc(ev[..k], ev[k], id);
    HeightFalls(p, ev, k + 1, |ev|, id);
  }

  /** Whoever is still above a state in the life of a task has never been in it. */
  lemma NotEntered(p: Plan, ev: seq<WorkflowEvent>, id: TaskId, n: Name)
    requires LegalLog(p, ev) && Height(NameAfter(ev, id)) > Height(n)
    ensures !exists k :: IsEvent(ev, k, id, n)
  {
    hide LegalLog, NameAfter, Height;
    if k :| IsEvent(ev, k, id, n) {
      EnteredHeight(p, ev, k, id, n);
    }
  }

  /** An entry about one task, in a state other than these two, changes nobody's past. */
  lemma PastKept(ev: seq<WorkflowEvent>, e: WorkflowEvent, x: TaskId)
    requires e.taskId != Some(x) || (e.state != NRunning && e.state != NWaiting)
    ensures Ran(ev + [e], x) <==> Ran(ev, x)
    ensures Waited(ev + [e], x) <==> Waited(ev, x)
  {
    var more := ev + [e];
    forall k ensures IsEvent(more, k, x, NRunning) <==> IsEvent(ev, k, x, NRunning) {
    }
    forall k ensures IsEvent(more, k, x, NWaiting) <==> IsEvent(ev, k, x, NWaiting) {
    }
  }

  /** State and log agree on whether an open task ran and waited. */
  lemma PastOf(p: Plan, l: Ledger, id: TaskId)
    requires Faithful(p, l) && LegalLog(p, l.events) && id in l.states && !l.states[id].IsTerminal()
    ensures Ran(l.events, id) <==> l.states[id].Running? || l.states[id].WaitingForApproval?
    ensures Waited(l.events, id) <==> l.states[id].WaitingForApproval?
  {
    var st := l.states[id];
    assert NameAfter(l.events, id) == st.Name();
    if st.Pending? || st.Ready? {
      NotEntered(p, l.events, id, NRunning);
    } else {
      RunningRan(p, l, id);
    }
    if st.WaitingForApproval? {
      NameAfterWitness(l.events, id);
    } else {
      NotEntered(p, l.events, id, NWaiting);
    }
  }

  // ---------------------------------------------------------------------
  // Every step keeps the records exact
  // ---------------------------------------------------------------------

  /** The record a step writes is exact for the task it is about. */
  lemma NewRecordIsExact(p: Plan, c: Config, s: State, a: Action)
    requires Permits(c, s) && Faithful(p, s.led) && LegalLog(p, s.led.events) && Enabled(p, c, s, a)
    requires ChangeOf(p, c, s, a).Some? && ChangeOf(p, c, s, a).value.1.record.Some?
    ensures var (id, ch) := ChangeOf(p, c, s, a).value;
      && id in p.nodes && id in s.led.states && !s.led.states[id].IsTerminal()
      && FromWorkflow(c, ch.record.value)
      && ExactRecord(p, c.wording, s.led.events, id, ch.state, ch.record.value)
  {
    hide LegalLog, Faithful, CauseOf, Ran, Waited, FromWorkflow;
    match a
    case CancelOpen(id, _) => PastOf(p, s.led, id);
    case Skip(_, _) =>
    case Join(id, _) =>
      assert s.led.states[id].Running?;
      PastOf(p, s.led, id);
  }

  lemma ExactStep(p: Plan, c: Config, s: State, a: Action)
    requires Inv(p, c, s) && Exact(p, c, s.led) && Enabled(p, c, s, a)
    ensures Exact(p, c, Next(p, c, s, a).led)
  {
    StepMovesLegally(p, c, s, a);
    var change := ChangeOf(p, c, s, a);
    if change.Some? {
      if change.value.1.record.Some? {
        NewRecordIsExact(p, c, s, a);
      }
      ExactMove(p, c, s.led, change.value.0, change.value.1);
    }
  }

  lemma ExactMove(p: Plan, c: Config, l: Ledger, id: TaskId, ch: Change)
    requires Partitioned(p, l) && Exact(p, c, l) && LegalChange(p, l, id, ch)
    requires ch.record.Some? ==>
      FromWorkflow(c, ch.record.value) && ExactRecord(p, c.wording, l.events, id, ch.state, ch.record.value)
    ensures Exact(p, c, Apply(l, id, ch))
  {
    hide CauseOf, Ran, Waited, FromWorkflow;
    var m := Apply(l, id, ch);
    var e := WorkflowEvent(l.seqNo + 1, Some(id), ch.state.Name());
    PartitionedKept(p, l, id, ch.state, ch.result, ch.record);
    forall x | x in p.nodes && x in m.states && x in m.failures
      ensures FromWorkflow(c, m.failures[x]) && ExactRecord(p, c.wording, m.events, x, m.states[x], m.failures[x])
    {
      PastKept(l.events, e, x);
      if x == id {
        assert m.failures[x] == ch.record.value;
      } else {
        assert m.failures[x] == l.failures[x] && m.states[x] == l.states[x];
        assert ExactRecord(p, c.wording, l.events, x, l.states[x], l.failures[x]);
      }
    }
  }

  lemma NextExact(p: Plan, c: Config, tr: seq<State>, i: nat)
    requires ValidPlan(p) && IsRun(p, c, tr) && i + 1 < |tr| && Exact(p, c, tr[i].led)
    ensures Exact(p, c, tr[i + 1].led)
  {
    hide Exact, ValidPlan, Inv, Enabled, Next;
    AlwaysInv(p, c, tr, i);
    assert Step(p, c, tr[i], tr[i + 1]);
    var a :| Enabled(p, c, tr[i], a) && tr[i + 1] == Next(p, c, tr[i], a);
    ExactStep(p, c, tr[i], a);
  }

  /** In every state of every run each failure record is exact. */
  lemma {:induction false} AlwaysExact(p: Plan, c: Config, tr: seq<State>, i: nat)
    requires ValidPlan(p) && IsRun(p, c, tr) && i < |tr|
    ensures Exact(p, c, tr[i].led)
  {
    hide ValidPlan, Step, ExactRecord, FromWorkflow;
    if i > 0 {
      hide Exact;
      AlwaysExact(p, c, tr, i - 1);
      NextExact(p, c, tr, i - 1);
    }
  }

  // ---------------------------------------------------------------------
  // Failed tasks
  // ---------------------------------------------------------------------

  /** In state `s` the body of the task has ended with `f`. */
  predicate EndedWith(s: State, id: TaskId, f: Finish) {
    id in s.bodies && s.bodies[id] == Ended(f)
  }

  /** `rec` is what that end of a body is to be recorded as. */
  predicate RecordsFinish(p: Plan, w: Wording, id: TaskId, f: Finish, rec: FailureRecord) {
    && id in p.nodes
    && match f
       case Outcome(Fault(fault)) =>
         && rec.faultClass == fault.faultClass && rec.certainty == fault.certainty
         && rec.cause == CauseOf(fault.message)
       case TimedOut =>
         rec.faultClass.Timeout? && rec.certainty == p.nodes[id].interrupt && rec.cause == CauseOf(w.timeoutElapsed)
       case Panicked =>
         rec.faultClass.Failed? && rec.certainty.UncertainEffect? && rec.cause == CauseOf(w.bodyPanicked)
       case _ => false
  }

  ghost predicate FailedAsEnded(p: Plan, c: Config, tr: seq<State>, i: nat, id: TaskId, rec: FailureRecord)
    requires i < |tr|
  {
    exists j, f :: 0 <= j <= i && EndedWith(tr[j], id, f) && RecordsFinish(p, c.wording, id, f, rec)
  }

  lemma FailsByJoin(p: Plan, c: Config, s: State, a: Action, id: TaskId)
    requires Enabled(p, c, s, a) && Permits(c, s) && s.led.states.Keys == p.nodes.Keys
    requires id in s.led.states && !s.led.states[id].Failed? && Next(p, c, s, a).led.states[id].Failed?
    ensures exists f :: EndedWith(s, id, f) && RecordsFinish(p, c.wording, id, f, Next(p, c, s, a).led.states[id].record)
  {
    hide CauseOf;
    StepMovesLegally(p, c, s, a);
    assert a.Join? && a.id == id;
    var f := s.bodies[id].finish;
    assert EndedWith(s, id, f);
  }

  lemma FailsNow(p: Plan, c: Config, tr: seq<State>, i: nat, id: TaskId)
    requires ValidPlan(p) && IsRun(p, c, tr) && i + 1 < |tr| && id in tr[i].led.states && id in tr[i + 1].led.states
    requires !tr[i].led.states[id].Failed? && tr[i + 1].led.states[id].Failed?
    ensures FailedAsEnded(p, c, tr, i + 1, id, tr[i + 1].led.states[id].record)
  {
    hide ValidPlan, Next, Enabled, RecordsFinish, Permits;
    KnownAt(p, c, tr, i);
    assert Step(p, c, tr[i], tr[i + 1]);
    var a :| Enabled(p, c, tr[i], a) && tr[i + 1] == Next(p, c, tr[i], a);
    FailsByJoin(p, c, tr[i], a, id);
    var f :| EndedWith(tr[i], id, f) && RecordsFinish(p, c.wording, id, f, tr[i + 1].led.states[id].record);
    assert EndedWith(tr[i], id, f);
  }

  /** In every run the record of a failed task is that of the way its own body ended. */
  lemma {:induction false} AlwaysFailedAsEnded(p: Plan, c: Config, tr: seq<State>, i: nat, id: TaskId)
    requires ValidPlan(p) && IsRun(p, c, tr) && i < |tr|
    requires id in p.nodes && id in tr[i].led.states && tr[i].led.states[id].Failed?
    ensures FailedAsEnded(p, c, tr, i, id, tr[i].led.states[id].record)
  {
    if i > 0 {
      hide ValidPlan, IsRun, FailedAsEnded, Permits;
      KnownAt(p, c, tr, i - 1);
      if tr[i - 1].led.states[id].Failed? {
        AlwaysFailedAsEnded(p, c, tr, i - 1, id);
        TerminalStays(p, c, tr, i - 1, id);
        StaysAsEnded(p, c, tr, i - 1, id, tr[i].led.states[id].record);
      } else {
        FailsNow(p, c, tr, i - 1, id);
      }
    }
  }

  lemma StaysAsEnded(p: Plan, c: Config, tr: seq<State>, i: nat, id: TaskId, rec: FailureRecord)
    requires i + 1 < |tr| && FailedAsEnded(p, c, tr, i, id, rec)
    ensures FailedAsEnded(p, c, tr, i + 1, id, rec)
  {
    hide RecordsFinish;
    var j, f :| 0 <= j <= i && EndedWith(tr[j], id, f) && RecordsFinish(p, c.wording, id, f, rec);
    assert EndedWith(tr[j], id, f);
  }

  lemma KnownAt(p: Plan, c: Config, tr: seq<State>, i: nat)
    requires ValidPlan(p) && IsRun(p, c, tr) && i < |tr|
    ensures tr[i].led.states.Keys == p.nodes.Keys && Permits(c, tr[i])
  {
    AlwaysInv(p, c, tr, i);
  }

  lemma TerminalStays(p: Plan, c: Config, tr: seq<State>, i: nat, id: TaskId)
    requires ValidPlan(p) && IsRun(p, c, tr) && i + 1 < |tr|
    requires id in tr[i].led.states && tr[i].led.states[id].IsTerminal()
    ensures id in tr[i + 1].led.states && tr[i + 1].led.states[id] == tr[i].led.states[id]
  {
    LaterFollows(p, c, tr, i, i + 1);
  }

  // ---------------------------------------------------------------------
  // Whom a skip blames
  // ---------------------------------------------------------------------

  predicate WentBad(states: map<TaskId, TaskState>, d: TaskId) {
    d in states && (states[d].Failed? || states[d].Cancelled? || states[d].Skipped?)
  }

  /** Of these predecessors, in edge order, `d` is the first that ended without success. */
  ghost predicate FirstGoneBad(deps: seq<TaskId>, states: map<TaskId, TaskState>, d: TaskId) {
    exists k :: 0 <= k < |deps| && deps[k] == d && WentBad(states, d) && forall j :: 0 <= j < k ==> !WentBad(states, deps[j])
  }

  lemma {:induction false} FirstBadIsFirst(deps: seq<TaskId>, states: map<TaskId, TaskState>)
    requires FirstBad(deps, states).Some?
    ensures FirstGoneBad(deps, states, FirstBad(deps, states).value)
  {
    var d := FirstBad(deps, states).value;
    if !WentBad(states, deps[0]) {
      FirstBadIsFirst(deps[1..], states);
      var k :| 0 <= k < |deps[1..]| && deps[1..][k] == d && forall j :: 0 <= j < k ==> !WentBad(states, deps[1..][j]);
      forall j | 0 <= j < k + 1 ensures !WentBad(states, deps[j]) {
        assert j > 0 ==> deps[1..][j - 1] == deps[j];
      }
      assert deps[k + 1] == d;
    }
  }

  /** At some earlier moment the task was skipped, and `d` was then its first predecessor gone bad. */
  ghost predicate BlamedWhenSkipped(p: Plan, tr: seq<State>, i: nat, id: TaskId, d: TaskId)
    requires i < |tr| && id in p.nodes
  {
    exists j :: 0 <= j < i && SkipsNow(p, tr[j], tr[j + 1], id, d)
  }

  ghost predicate SkipsNow(p: Plan, s: State, t: State, id: TaskId, d: TaskId)
    requires id in p.nodes
  {
    && id in s.led.states && s.led.states[id].Pending? && FirstGoneBad(p.nodes[id].deps, s.led.states, d)
    && id in t.led.states && t.led.states[id] == Skipped(d)
  }

  lemma SkipsByFirst(p: Plan, c: Config, s: State, a: Action, id: TaskId)
    requires Enabled(p, c, s, a) && Permits(c, s) && s.led.states.Keys == p.nodes.Keys && id in p.nodes
    requires !s.led.states[id].Skipped? && id in Next(p, c, s, a).led.states && Next(p, c, s, a).led.states[id].Skipped?
    ensures SkipsNow(p, s, Next(p, c, s, a), id, Next(p, c, s, a).led.states[id].prerequisite)
  {
    hide CauseOf, FirstGoneBad, FirstBad;
    StepMovesLegally(p, c, s, a);
    assert a.Skip? && a.id == id;
    FirstBadIsFirst(p.nodes[id].deps, s.led.states);
  }

  /** In every run the prerequisite recorded for a skipped task is the first of its predecessors, in
      edge order, that had gone bad when it was skipped. */
  lemma {:induction false} AlwaysBlamesFirst(p: Plan, c: Config, tr: seq<State>, i: nat, id: TaskId)
    requires ValidPlan(p) && IsRun(p, c, tr) && i < |tr|
    requires id in p.nodes && id in tr[i].led.states && tr[i].led.states[id].Skipped?
    ensures BlamedWhenSkipped(p, tr, i, id, tr[i].led.states[id].prerequisite)
  {
    if i > 0 {
      hide ValidPlan, Step, Permits, SkipsNow, Enabled, Next;
      KnownAt(p, c, tr, i - 1);
      if tr[i - 1].led.states[id].Skipped? {
        AlwaysBlamesFirst(p, c, tr, i - 1, id);
        TerminalStays(p, c, tr, i - 1, id);
      } else {
        assert Step(p, c, tr[i - 1], tr[i - 1 + 1]);
        StepSkips(p, c, tr[i - 1], tr[i], id);
        assert SkipsNow(p, tr[i - 1], tr[i - 1 + 1], id, tr[i].led.states[id].prerequisite);
      }
    }
  }

  lemma StepSkips(p: Plan, c: Config, s: State, t: State, id: TaskId)
    requires Step(p, c, s, t) && Permits(c, s) && s.led.states.Keys == p.nodes.Keys && id in p.nodes
    requires !s.led.states[id].Skipped? && id in t.led.states && t.led.states[id].Skipped?
    ensures SkipsNow(p, s, t, id, t.led.states[id].prerequisite)
  {
    hide Permits, SkipsNow, Enabled, Next;
    var a :| Enabled(p, c, s, a) && t == Next(p, c, s, a);
    SkipsByFirst(p, c, s, a, id);
  }

  // ---------------------------------------------------------------------
  // How bodies can end
  // ---------------------------------------------------------------------

  /** A body is timed out only under a configured timeout and interrupted only after a cancel. */
  ghost predicate PossibleEnds(c: Config, s: State) {
    forall id, f :: EndedWith(s, id, f) ==> (f.TimedOut? ==> c.hasTimeout) && (f.Interrupted? ==> s.runCancel)
  }

  lemma EndsStayPossible(p: Plan, c: Config, s: State, t: State)
    requires PossibleEnds(c, s) && Step(p, c, s, t)
    ensures PossibleEnds(c, t)
  {
    var a :| Enabled(p, c, s, a) && t == Next(p, c, s, a);
    forall id, f | EndedWith(t, id, f) ensures (f.TimedOut? ==> c.hasTimeout) && (f.Interrupted? ==> t.runCancel) {
      if !(a.BodyEnds? && a.id == id) {
        assert EndedWith(s, id, f);
      }
    }
  }

  lemma {:induction false} AlwaysPossibleEnds(p: Plan, c: Config, tr: seq<State>, i: nat)
    requires IsRun(p, c, tr) && i < |tr|
    ensures PossibleEnds(c, tr[i])
  {
    if i > 0 {
      hide Step, PossibleEnds;
      AlwaysPossibleEnds(p, c, tr, i - 1);
      assert Step(p, c, tr[i - 1], tr[i - 1 + 1]);
      EndsStayPossible(p, c, tr[i - 1], tr[i]);
    }
  }

  // ---------------------------------------------------------------------
  // Completed and waiting tasks
  // ---------------------------------------------------------------------

  ghost predicate EndedBefore(tr: seq<State>, i: nat, id: TaskId, f: Finish)
    requires i < |tr|
  {
    exists j :: 0 <= j <= i && EndedWith(tr[j], id, f)
  }

  /** Results and waits are those of the ways bodies ended. */
  ghost predicate AsEnded(tr: seq<State>, i: nat)
    requires i < |tr|
  {
    && (forall id, digest :: Yields(tr[i], id, digest) ==> EndedBefore(tr, i, id, Outcome(Done(digest))))
    && (forall id :: Waits(tr[i], id) ==> EndedBefore(tr, i, id, Outcome(NeedsApproval)))
  }

  predicate Waits(s: State, id: TaskId) {
    id in s.led.states && s.led.states[id].WaitingForApproval?
  }

  /** The task has this result. */
  predicate Yields(s: State, id: TaskId, digest: string) {
    id in s.led.results && s.led.results[id] == digest
  }

  lemma SettlesAsEnded(p: Plan, c: Config, s: State, a: Action, id: TaskId)
    requires Enabled(p, c, s, a) && Permits(c, s) && s.led.states.Keys == p.nodes.Keys
    ensures forall digest :: Yields(Next(p, c, s, a), id, digest) && !Yields(s, id, digest) ==> EndedWith(s, id, Outcome(Done(digest)))
    ensures Waits(Next(p, c, s, a), id) && !Waits(s, id) ==> EndedWith(s, id, Outcome(NeedsApproval))
  {
    hide CauseOf;
    StepMovesLegally(p, c, s, a);
  }

  lemma StaysEnded(tr: seq<State>, i: nat, id: TaskId, f: Finish)
    requires i + 1 < |tr| && EndedBefore(tr, i, id, f)
    ensures EndedBefore(tr, i + 1, id, f)
  {
    var j :| 0 <= j <= i && EndedWith(tr[j], id, f);
    assert EndedWith(tr[j], id, f);
  }

  lemma AsEndedNext(p: Plan, c: Config, tr: seq<State>, i: nat)
    requires ValidPlan(p) && IsRun(p, c, tr) && i + 1 < |tr| && AsEnded(tr, i)
    ensures AsEnded(tr, i + 1)
  {
    hide ValidPlan, Enabled, Next, Permits, EndedWith, EndedBefore, Yields, Waits;
    KnownAt(p, c, tr, i);
    assert Step(p, c, tr[i], tr[i + 1]);
    var a :| Enabled(p, c, tr[i], a) && tr[i + 1] == Next(p, c, tr[i], a);
    var k, t := i + 1, tr[i + 1];
    forall id, f | EndedBefore(tr, i, id, f) || EndedWith(tr[i], id, f) ensures EndedBefore(tr, k, id, f) {
      if EndedWith(tr[i], id, f) {
        EndedNow(tr, i, id, f);
      }
      StaysEnded(tr, i, id, f);
    }
    forall id, digest | Yields(t, id, digest) ensures EndedBefore(tr, k, id, Outcome(Done(digest))) {
      SettlesAsEnded(p, c, tr[i], a, id);
    }
    forall id | Waits(t, id) ensures EndedBefore(tr, k, id, Outcome(NeedsApproval)) {
      SettlesAsEnded(p, c, tr[i], a, id);
    }
  }

  lemma EndedNow(tr: seq<State>, i: nat, id: TaskId, f: Finish)
    requires i < |tr| && EndedWith(tr[i], id, f)
    ensures EndedBefore(tr, i, id, f)
  {
  }

  /** In every run each result is the one its own body ended with, and whoever waits for approval asked for it. */
  lemma {:induction false} AlwaysAsEnded(p: Plan, c: Config, tr: seq<State>, i: nat)
    requires ValidPlan(p) && IsRun(p, c, tr) && i < |tr|
    ensures AsEnded(tr, i)
  {
    hide ValidPlan, Step, EndedBefore;
    if i > 0 {
      hide AsEnded;
      AlwaysAsEnded(p, c, tr, i - 1);
      AsEndedNext(p, c, tr, i - 1);
    }
  }
}
