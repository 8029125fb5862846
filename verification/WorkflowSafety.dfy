/**
 Properties that relate two moments of a run: nothing is rewritten, terminal
 states stay, and once a cancel has been seen no task becomes ready, starts
 or is skipped.
 */
module WorkflowSafety {
  import opened Wrappers
  import opened WorkflowSpec
  import opened WorkflowLedger
  import opened LedgerInvariant
  import opened WorkflowMachine

  /** Ledgers only grow: log, bus, results, records, and terminal states stay. */
  ghost predicate LedgerFollows(l: Ledger, m: Ledger) {
    && l.events <= m.events
    && l.bus <= m.bus
    && l.states.Keys <= m.states.Keys
    && (forall id :: id in l.states && l.states[id].IsTerminal() ==> m.states[id] == l.states[id])
    && (forall id :: id in l.results ==> id in m.results && m.results[id] == l.results[id])
    && (forall id :: id in l.failures ==> id in m.failures && m.failures[id] == l.failures[id])
  }

  ghost predicate FlagsFollow(s: State, t: State) {
    && (s.callerCancel ==> t.callerCancel) && (s.expired ==> t.expired) && (s.runCancel ==> t.runCancel)
    && (s.cancelSeen ==> t.cancelSeen) && (s.budgetExhausted ==> t.budgetExhausted)
    && s.peak <= t.peak
  }

  /** How one state may follow another, at any distance. */
  ghost predicate Follows(s: State, t: State) {
    && LedgerFollows(s.led, t.led)
    && FlagsFollow(s, t)
    && (s.cancelSeen ==> OnlyStops(t.led.events[|s.led.events|..]))
  }

  /** None of these entries makes a task ready, starts it or skips it. */
  ghost predicate OnlyStops(ev: seq<WorkflowEvent>) {
    forall k :: 0 <= k < |ev| ==> ev[k].state != NReady && ev[k].state != NRunning && ev[k].state != NSkipped
  }

  lemma FollowsTrans(s: State, t: State, u: State)
    requires Follows(s, t) && Follows(t, u)
    ensures Follows(s, u)
  {
    if s.cancelSeen {
      var a, b := t.led.events[|s.led.events|..], u.led.events[|t.led.events|..];
      assert u.led.events[|s.led.events|..] == a + b;
    }
  }

  lemma MoveFollows(p: Plan, l: Ledger, id: TaskId, ch: Change)
    requires Partitioned(p, l) && LegalChange(p, l, id, ch)
    ensures LedgerFollows(l, Apply(l, id, ch))
    ensures Apply(l, id, ch).events[|l.events|..] == [WorkflowEvent(l.seqNo + 1, Some(id), ch.state.Name())]
  {
    assert id !in l.failures && id !in l.results;
  }

  lemma AfterCancelOnlyStops(p: Plan, c: Config, s: State, a: Action)
    requires Enabled(p, c, s, a) && s.cancelSeen
    ensures match ChangeOf(p, c, s, a)
      case None => true
      case Some((_, ch)) => !ch.state.Ready? && !ch.state.Running? && !ch.state.Skipped?
  {
  }

  lemma FlagsStep(p: Plan, c: Config, s: State, a: Action)
    requires Enabled(p, c, s, a)
    ensures FlagsFollow(s, Next(p, c, s, a))
    ensures Next(p, c, s, a).led == LedgerAfter(s.led, ChangeOf(p, c, s, a))
  {
  }

  lemma ActionFollows(p: Plan, c: Config, s: State, a: Action)
    requires Partitioned(p, s.led) && Permits(c, s) && Enabled(p, c, s, a)
    ensures Follows(s, Next(p, c, s, a))
  {
    FlagsStep(p, c, s, a);
    var ch := ChangeOf(p, c, s, a);
    if ch.Some? {
      StepMovesLegally(p, c, s, a);
      MoveFollows(p, s.led, ch.value.0, ch.value.1);
      if s.cancelSeen {
        AfterCancelOnlyStops(p, c, s, a);
      }
    } else {
      assert s.led.events[|s.led.events|..] == [];
    }
  }

  lemma StepFollows(p: Plan, c: Config, s: State, t: State)
    requires Partitioned(p, s.led) && Permits(c, s) && Step(p, c, s, t)
    ensures Follows(s, t)
  {
    var a :| Enabled(p, c, s, a) && t == Next(p, c, s, a);
    ActionFollows(p, c, s, a);
  }

  lemma FollowsRefl(s: State)
    ensures Follows(s, s)
  {
    assert s.led.events[|s.led.events|..] == [];
  }

  lemma NextFollows(p: Plan, c: Config, tr: seq<State>, i: nat)
    requires ValidPlan(p) && IsRun(p, c, tr) && i + 1 < |tr|
    ensures Follows(tr[i], tr[i + 1])
  {
    hide ValidPlan, Step, Follows, LedgerInv, Permits;
    assert Step(p, c, tr[i], tr[i + 1]);
    AlwaysInv(p, c, tr, i);
    PartitionedOf(p, tr[i].led);
    StepFollows(p, c, tr[i], tr[i + 1]);
  }

  lemma PartitionedOf(p: Plan, l: Ledger)
    requires LedgerInv(p, l)
    ensures Partitioned(p, l)
  {
  }

  /** Between any two moments of a run: the log, the bus, the results, the
      failure records and every terminal state are only ever added to, flags
      never fall, and after a seen cancel nothing becomes ready, starts or is skipped. */
  lemma {:induction false} LaterFollows(p: Plan, c: Config, tr: seq<State>, i: nat, j: nat)
    requires ValidPlan(p) && IsRun(p, c, tr) && i <= j < |tr|
    ensures Follows(tr[i], tr[j])
    decreases j
  {
    hide Follows, IsRun, ValidPlan;
    if i == j {
      FollowsRefl(tr[i]);
    } else {
      LaterFollows(p, c, tr, i, j - 1);
      NextFollows(p, c, tr, j - 1);
      FollowsTrans(tr[i], tr[j - 1], tr[j]);
    }
  }

  /** No task is started after the cancel was seen: a task that ever runs has
      its `running` entry in the log the coordinator had at that moment. */
  lemma NoStartAfterCancel(p: Plan, c: Config, tr: seq<State>, i: nat, j: nat, k: nat, id: TaskId)
    requires ValidPlan(p) && IsRun(p, c, tr) && i <= j < |tr| && tr[i].cancelSeen
    requires IsEvent(tr[j].led.events, k, id, NRunning)
    ensures IsEvent(tr[i].led.events, k, id, NRunning)
  {
    LaterFollows(p, c, tr, i, j);
    StopsBeyond(tr[j].led.events, |tr[i].led.events|);
  }

  lemma StopsBeyond(ev: seq<WorkflowEvent>, n: nat)
    requires n <= |ev| && OnlyStops(ev[n..])
    ensures forall k :: n <= k < |ev| ==> ev[k].state != NReady && ev[k].state != NRunning && ev[k].state != NSkipped
  {
    forall k | n <= k < |ev| ensures ev[k].state != NReady && ev[k].state != NRunning && ev[k].state != NSkipped {
      assert ev[n..][k - n] == ev[k];
    }
  }
}
