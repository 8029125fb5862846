/**
 The two figures of a report that none of its tables shows, told by what
 happened in the run: the peak is the number of bodies that held a permit
 together when they were most, and the budget flag says that the deadline
 tripped the run.
 */
module WorkflowFigures {
  import opened WorkflowSpec
  import opened WorkflowLedger
  import opened LedgerInvariant
  import opened WorkflowMachine
  import opened WorkflowReport
  import opened WorkflowSafety

  /** With no start half done, the bodies holding a permit are no more than the peak so far. */
  ghost predicate PeakCovers(s: State, peak: nat) {
    !SomeAcquired(s) ==> |Holders(s.bodies)| <= peak
  }

  ghost predicate Attained(tr: seq<State>, n: nat, peak: nat) {
    exists j :: 0 <= j < n && j < |tr| && |Holders(tr[j].bodies)| == peak
  }

  /** The peak of a run is the number of bodies that held a permit at once, at the moment they were most. */
  ghost predicate PeakIsExact(tr: seq<State>, peak: nat) {
    && (forall i :: 0 <= i < |tr| ==> PeakCovers(tr[i], peak))
    && (peak > 0 ==> Attained(tr, |tr|, peak))
  }

  lemma HoldersAfterEnd(bodies: map<TaskId, Body>, id: TaskId, f: Finish)
    requires id in bodies && !bodies[id].Ended?
    ensures |Holders(bodies[id := Ended(f)])| <= |Holders(bodies)|
  {
    assert Holders(bodies[id := Ended(f)]) == Holders(bodies) - {id};
  }

  lemma HoldersAfterSpawn(bodies: map<TaskId, Body>, id: TaskId)
    requires id in bodies && !bodies[id].Ended?
    ensures Holders(bodies[id := Executing]) == Holders(bodies)
  {
  }

  lemma HoldersAfterJoin(bodies: map<TaskId, Body>, id: TaskId)
    requires id in bodies && bodies[id].Ended?
    ensures Holders(bodies - {id}) == Holders(bodies)
  {
  }

  lemma CoversStep(p: Plan, c: Config, s: State, a: Action)
    requires Permits(c, s) && PeakCovers(s, s.peak) && Enabled(p, c, s, a)
    ensures PeakCovers(Next(p, c, s, a), Next(p, c, s, a).peak)
  {
    hide Holders;
    var t := Next(p, c, s, a);
    match a
    case Start(id) => assert id in t.bodies && t.bodies[id].Acquired?;
    case Spawn(id) => HoldersAfterSpawn(s.bodies, id);
    case BodyEnds(id, f) =>
      AcquiredKept(p, c, s, a);
      HoldersAfterEnd(s.bodies, id, f);
    case Join(id, _) =>
      AcquiredKept(p, c, s, a);
      HoldersAfterJoin(s.bodies, id);
    case _ => AcquiredKept(p, c, s, a);
  }

  /** The peak changes only when a body is spawned, and then to the number of permits held just then. */
  lemma PeakStep(p: Plan, c: Config, s: State, a: Action)
    requires Permits(c, s) && Enabled(p, c, s, a)
    ensures Next(p, c, s, a).peak == s.peak || Next(p, c, s, a).peak == |Holders(s.bodies)|
  {
    hide Holders;
  }

  lemma RunStep(p: Plan, c: Config, tr: seq<State>, i: nat) returns (a: Action)
    requires ValidPlan(p) && IsRun(p, c, tr) && i + 1 < |tr|
    ensures Permits(c, tr[i]) && Enabled(p, c, tr[i], a) && tr[i + 1] == Next(p, c, tr[i], a)
  {
    hide ValidPlan, Enabled, Next, LedgerInv, Permits;
    AlwaysInv(p, c, tr, i);
    assert Step(p, c, tr[i], tr[i + 1]);
    a :| Enabled(p, c, tr[i], a) && tr[i + 1] == Next(p, c, tr[i], a);
  }

  /** In every state of every run in which no start is half done, no more bodies hold a permit than the peak so far. */
  lemma {:induction false} AlwaysCovered(p: Plan, c: Config, tr: seq<State>, i: nat)
    requires ValidPlan(p) && IsRun(p, c, tr) && i < |tr|
    ensures PeakCovers(tr[i], tr[i].peak)
  {
    hide ValidPlan, Step, Permits, Enabled, Next;
    if i > 0 {
      AlwaysCovered(p, c, tr, i - 1);
      var a := RunStep(p, c, tr, i - 1);
      CoversStep(p, c, tr[i - 1], a);
    } else {
      assert Holders(tr[0].bodies) == {};
    }
  }

  /** In every state of every run that many permits have been held at once. */
  lemma {:induction false} AlwaysAttained(p: Plan, c: Config, tr: seq<State>, i: nat)
    requires ValidPlan(p) && IsRun(p, c, tr) && i < |tr|
    ensures tr[i].peak > 0 ==> Attained(tr, i, tr[i].peak)
  {
    hide ValidPlan, Step, Permits, Enabled, Next, Holders;
    if i > 0 {
      AlwaysAttained(p, c, tr, i - 1);
      var a := RunStep(p, c, tr, i - 1);
      PeakStep(p, c, tr[i - 1], a);
    }
  }

  /** For whole runs: no moment with no start half done had more bodies holding a permit than the
      final peak, and if that is positive some moment had exactly as many. */
  lemma RunPeakIsExact(p: Plan, c: Config, tr: seq<State>)
    requires ValidPlan(p) && IsRun(p, c, tr)
    ensures PeakIsExact(tr, tr[|tr| - 1].peak)
  {
    hide ValidPlan, Step, Holders, SomeAcquired, LedgerFollows, OnlyStops;
    var n := |tr| - 1;
    forall i | 0 <= i < |tr| ensures PeakCovers(tr[i], tr[n].peak) {
      AlwaysCovered(p, c, tr, i);
      LaterFollows(p, c, tr, i, n);
    }
    AlwaysAttained(p, c, tr, n);
  }

  /** The same of the report of a finished run. */
  lemma ReportedPeakIsExact(p: Plan, c: Config, tr: seq<State>)
    requires ValidPlan(p) && FinishedRun(p, c, tr)
    ensures PeakIsExact(tr, ReportOf(p, Last(tr)).peak)
  {
    hide ValidPlan, IsRun, PeakIsExact;
    RunPeakIsExact(p, c, tr);
  }

  // ---------------------------------------------------------------------
  // The budget flag
  // ---------------------------------------------------------------------

  /** Between these two states the coordinator saw the deadline passed and tripped the run. */
  predicate DeadlineTrips(p: Plan, c: Config, s: State, t: State) {
    s.expired && Enabled(p, c, s, TripOnBudget) && t == Next(p, c, s, TripOnBudget)
  }

  ghost predicate DeadlineTripped(p: Plan, c: Config, tr: seq<State>) {
    exists i :: 0 <= i < |tr| - 1 && DeadlineTrips(p, c, tr[i], tr[i + 1])
  }

  lemma FlagRises(p: Plan, c: Config, s: State, a: Action)
    requires Enabled(p, c, s, a) && !s.budgetExhausted && Next(p, c, s, a).budgetExhausted
    ensures DeadlineTrips(p, c, s, Next(p, c, s, a))
  {
  }

  lemma {:induction false} FlagHasTrip(p: Plan, c: Config, tr: seq<State>, i: nat)
    requires ValidPlan(p) && IsRun(p, c, tr) && i < |tr| && tr[i].budgetExhausted
    ensures DeadlineTripped(p, c, tr)
  {
    hide ValidPlan, Step, Permits, Enabled, Next, DeadlineTrips;
    if i > 0 {
      if tr[i - 1].budgetExhausted {
        FlagHasTrip(p, c, tr, i - 1);
      } else {
        var a := RunStep(p, c, tr, i - 1);
        FlagRises(p, c, tr[i - 1], a);
        assert DeadlineTrips(p, c, tr[i - 1], tr[i - 1 + 1]);
      }
    }
  }

  /** What the budget flag of a report says: the deadline, and not only the caller, stopped the run. */
  ghost predicate FlagIsExact(p: Plan, c: Config, tr: seq<State>, r: Report)
    requires |tr| > 0
  {
    && (r.budgetExhausted <==> DeadlineTripped(p, c, tr))
    && (r.budgetExhausted ==> c.hasBudget && r.status == RunCancelled)
    && (r.status == RunCancelled && !r.budgetExhausted ==> Last(tr).callerCancel)
  }

  /** The budget flag is set exactly if the deadline tripped the run; then the run is reported as
      cancelled, and a cancelled run without the flag was cancelled by its caller. */
  lemma ReportedFlagIsExact(p: Plan, c: Config, tr: seq<State>)
    requires ValidPlan(p) && FinishedRun(p, c, tr)
    ensures FlagIsExact(p, c, tr, ReportOf(p, Last(tr)))
  {
    hide ValidPlan, Step, LedgerInv, Permits, PeakSeen, CancelledRan, Enabled, LedgerFollows, OnlyStops, Next;
    var n: nat := |tr| - 1;
    AlwaysInv(p, c, tr, n);
    if tr[n].budgetExhausted {
      FlagHasTrip(p, c, tr, n);
    }
    if DeadlineTripped(p, c, tr) {
      var i :| 0 <= i < n && DeadlineTrips(p, c, tr[i], tr[i + 1]);
      TripSetsFlag(p, c, tr[i], tr[i + 1]);
      LaterFollows(p, c, tr, i + 1, n);
    }
  }

  lemma TripSetsFlag(p: Plan, c: Config, s: State, t: State)
    requires DeadlineTrips(p, c, s, t)
    ensures t.budgetExhausted
  {
  }
}
