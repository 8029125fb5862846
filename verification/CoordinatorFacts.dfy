/**
 What the coordinator's loops rely on: the steps of a good run, what is known
 about its present state, and how one round of the loop relates to one round
 of the sequential scheduler.
 */
module CoordinatorFacts {
  import opened Failure
  import opened WorkflowSpec
  import opened WorkflowLedger
  import opened LedgerInvariant
  import opened WorkflowMachine
  import opened WorkflowReport
  import opened WorkflowSafety
  import opened ScheduleIndependence
  import opened SequentialReference
  import opened CoordinatorRounds

  /** Everything but the body's end (and an interruption) is up to the surroundings;
      `out` says how each body finishes when it is not interrupted. */
  ghost predicate PossibleScript(c: Config, out: TaskId -> Finish) {
    forall id :: !out(id).Interrupted? && (out(id).TimedOut? ==> c.hasTimeout)
  }

  /** A run in which, as long as no cancel was tripped, every body that ended followed the script. */
  ghost predicate GoodRun(p: Plan, c: Config, out: TaskId -> Finish, tr: seq<State>) {
    IsRun(p, c, tr) && (!Last(tr).runCancel ==> ScriptedRun(p, c, out, tr))
  }

  lemma RunSnoc(p: Plan, c: Config, tr: seq<State>, t: State, a: Action)
    requires IsRun(p, c, tr) && Enabled(p, c, Last(tr), a) && t == Next(p, c, Last(tr), a)
    ensures IsRun(p, c, tr + [t])
  {
    var more := tr + [t];
    assert Step(p, c, Last(tr), t);
    forall i | 0 <= i < |more| - 1 ensures Step(p, c, more[i], more[i + 1]) {
      if i < |tr| - 1 {
        assert Step(p, c, tr[i], tr[i + 1]);
      }
    }
  }

  lemma ObeysKept(p: Plan, c: Config, out: TaskId -> Finish, s: State, a: Action)
    requires Enabled(p, c, s, a)
    requires a.BodyEnds? ==> a.finish == out(a.id) || s.runCancel
    ensures !Next(p, c, s, a).runCancel && Obeys(out, s) ==> Obeys(out, Next(p, c, s, a))
    ensures s.runCancel ==> Next(p, c, s, a).runCancel
  {
  }

  lemma GoodRunSnoc(p: Plan, c: Config, out: TaskId -> Finish, tr: seq<State>, t: State, a: Action)
    requires GoodRun(p, c, out, tr) && Enabled(p, c, Last(tr), a) && t == Next(p, c, Last(tr), a)
    requires a.BodyEnds? ==> a.finish == out(a.id) || Last(tr).runCancel
    ensures GoodRun(p, c, out, tr + [t])
  {
    RunSnoc(p, c, tr, t, a);
    ObeysKept(p, c, out, Last(tr), a);
  }

  /** What may happen to the bodies between two coordinator steps: executing ones may end. */
  ghost predicate BodiesSince(b0: map<TaskId, Body>, b1: map<TaskId, Body>) {
    && b1.Keys == b0.Keys
    && forall id :: id in b0 ==> b1[id] == b0[id] || (b0[id].Executing? && b1[id].Ended?)
  }

  /** Why an iteration of the coordinator's loop ended. */
  datatype RoundEnd = Quiescent | CancelRestart | BudgetRestart | JoinRestart

  datatype Wake = CancelObserved | BudgetSpent | Joined

  datatype Attempt = NotReady | MustRestart | NoPermit | Started

  /** What one attempt does to the log, the open tasks and the permits. */
  ghost predicate Attempted(ev0: seq<WorkflowEvent>, open0: set<TaskId>, n0: nat,
                            ev1: seq<WorkflowEvent>, open1: set<TaskId>, n1: nat,
                            id: TaskId, r: Attempt, permits: nat, calm: bool) {
    && (r == NotReady <==> NameAfter(ev0, id) != NReady)
    && (r == Started ==> ev1 == Enter(ev0, id, NRunning) && open1 == open0 + {id})
    && (r != Started ==> ev1 == ev0 && open1 == open0)
    && (r == NoPermit ==> |open1| >= permits)
    && (calm ==> n1 == if r == Started then n0 - 1 else n0)
  }

  ghost predicate NoneReady(p: Plan, states: map<TaskId, TaskState>, n: nat)
    requires n <= |p.ids|
  {
    forall k :: 0 <= k < n && p.ids[k] in states ==> !states[p.ids[k]].Ready?
  }

  lemma NoneReadyOver(p: Plan, before: map<TaskId, TaskState>, after: map<TaskId, TaskState>, i: nat)
    requires i < |p.ids| && NoneReady(p, before, i)
    requires after == before || after == before[p.ids[i] := Running]
    requires p.ids[i] in after ==> !after[p.ids[i]].Ready?
    ensures NoneReady(p, after, i + 1)
  {
  }

  lemma NoneReadyYet(p: Plan, states: map<TaskId, TaskState>)
    ensures NoneReady(p, states, 0)
  {
  }

  /** The first `i` tasks have been walked over, and those that were ready are started. */
  ghost predicate StartedTo(p: Plan, ev0: seq<WorkflowEvent>, open0: set<TaskId>, n0: nat,
                            ev: seq<WorkflowEvent>, open: set<TaskId>, n: nat, i: nat, calm: bool)
    requires i <= |p.ids|
  {
    var done := ReadyIds(ev0, p.ids[..i]);
    && ev == StartAll(ev0, done) && open == open0 + Elems(done)
    && (calm ==> n + |done| == n0)
  }

  lemma StartedOver(p: Plan, ev0: seq<WorkflowEvent>, open0: set<TaskId>, n0: nat,
                    ev1: seq<WorkflowEvent>, open1: set<TaskId>, n1: nat,
                    ev2: seq<WorkflowEvent>, open2: set<TaskId>, n2: nat, i: nat, r: Attempt, permits: nat, calm: bool)
    requires Distinct(p.ids) && i < |p.ids| && StartedTo(p, ev0, open0, n0, ev1, open1, n1, i, calm)
    requires Attempted(ev1, open1, n1, ev2, open2, n2, p.ids[i], r, permits, calm) && r != MustRestart
    ensures r != NoPermit ==> StartedTo(p, ev0, open0, n0, ev2, open2, n2, i + 1, calm)
    ensures r == NoPermit ==> StartedTo(p, ev0, open0, n0, ev2, open2, n2, i, calm) && |open2| >= permits
  {
    hide Enter, NameAfter;
    var id, done := p.ids[i], ReadyIds(ev0, p.ids[..i]);
    assert p.ids[..i + 1][..i] == p.ids[..i];
    assert id !in p.ids[..i];
    ReadyIdsMeaning(ev0, p.ids[..i], id);
    StartAllNames(ev0, done, id);
    assert ReadyIds(ev0, p.ids[..i + 1]) == done + if NameAfter(ev0, id) == NReady then [id] else [];
    assert (done + [id])[..|done|] == done && done + [] == done;
    assert StartAll(ev0, done + [id]) == Enter(StartAll(ev0, done), id, NRunning);
    assert Elems(done + [id]) == Elems(done) + {id};
  }

  /** What a walk over the ready tasks has achieved when it is over. */
  ghost predicate Scheduled(p: Plan, permits: nat, calm: bool, x: Position, y: Position, k: nat) {
    MayStart(p, permits, x, k) && y == AfterStarts(p, x, k) && (calm ==> k <= permits)
  }

  lemma WalkIsOver(p: Plan, permits: nat, calm: bool, x: Position, n0: nat, y: Position, n: nat, i: nat) returns (k: nat)
    requires i <= |p.ids| && StartedTo(p, Propagated(p, x.log), x.open, n0, y.log, y.open, n, i, calm)
    requires i == |p.ids| || |y.open| >= permits
    requires n0 <= permits
    ensures Scheduled(p, permits, calm, x, y, k)
  {
    hide Propagated, ReadyIds, StartAll;
    var ev0 := Propagated(p, x.log);
    k := |ReadyIds(ev0, p.ids[..i])|;
    ReadyIdsPrefix(ev0, p.ids, i);
    assert ToStart(p, x)[..k] == ReadyIds(ev0, p.ids[..i]);
    if i == |p.ids| {
      assert p.ids[..i] == p.ids;
    }
  }

  /** What one iteration of the coordinator's loop amounts to, unless a cancel was tripped. */
  ghost predicate RoundDone(p: Plan, permits: nat, calm: bool, out: TaskId -> Finish, x: Position, y: Position, r: RoundEnd) {
    && (r == JoinRestart ==> JoinRound(p, permits, calm, out, x, y))
    && (r == Quiescent ==> StopRound(p, x, y.log) && y.open == {})
  }

  lemma JoinedAfter(p: Plan, permits: nat, calm: bool, out: TaskId -> Finish, x: Position, mid: Position, y: Position, k: nat, r: RoundEnd)
    requires Scheduled(p, permits, calm, x, mid, k) && permits > 0
    requires r == Quiescent ==> mid.open == {} && y == mid
    requires r == JoinRestart ==>
      exists id :: id in mid.open && y.open == mid.open - {id} && y.log == Enter(mid.log, id, FinishName(out(id)))
    ensures RoundDone(p, permits, calm, out, x, y, r)
  {
    hide Propagated, ReadyIds, StartAll, Enter, FinishName;
    if r == JoinRestart {
      var id :| id in mid.open && y.open == mid.open - {id} && y.log == Enter(mid.log, id, FinishName(out(id)));
      assert JoinRoundBy(p, permits, out, x, y, k, id);
    }
    if r == Quiescent {
      NothingStarted(p, permits, x, k);
    }
  }

  lemma NothingPromised(p: Plan, permits: nat, calm: bool, out: TaskId -> Finish, x: Position, y: Position)
    ensures RoundDone(p, permits, calm, out, x, y, CancelRestart)
  {
  }

  lemma AtStart(p: Plan, permits: nat, calm: bool, out: TaskId -> Finish)
    ensures Rounds(p, permits, calm, out, [START])
  {
  }

  /** One more round: the course goes on, or it has come to its end. */
  lemma RoundOver(p: Plan, permits: nat, calm: bool, out: TaskId -> Finish, xs: seq<Position>, y: Position, r: RoundEnd)
    returns (more: seq<Position>)
    requires Rounds(p, permits, calm, out, xs) && RoundDone(p, permits, calm, out, xs[|xs| - 1], y, r)
    ensures r == JoinRestart ==> more == xs + [y] && Rounds(p, permits, calm, out, more)
    ensures r == Quiescent ==> RoundLog(p, permits, calm, out, y.log)
  {
    hide Rounds, JoinRound, StopRound;
    more := xs + [y];
    if r == JoinRestart {
      RoundsSnoc(p, permits, calm, out, xs, y);
    }
    if r == Quiescent {
      assert RoundsTo(p, permits, calm, out, xs, y.log);
    }
  }

  lemma PlanIdsDistinct(p: Plan)
    requires ValidPlan(p)
    ensures Distinct(p.ids)
  {
  }

  lemma StartedNone(p: Plan, ev0: seq<WorkflowEvent>, open0: set<TaskId>, n0: nat, calm: bool)
    ensures StartedTo(p, ev0, open0, n0, ev0, open0, n0, 0, calm)
  {
    assert p.ids[..0] == [];
    NoElems([]);
  }

  lemma NoElems(s: seq<TaskId>)
    ensures Elems(s) == {} <==> s == []
  {
    if s != [] {
      assert s[0] in Elems(s);
    }
  }

  lemma NothingStarted(p: Plan, permits: nat, x: Position, k: nat)
    requires MayStart(p, permits, x, k) && permits > 0 && AfterStarts(p, x, k).open == {}
    ensures k == 0 && x.open == {} && ToStart(p, x) == [] && AfterStarts(p, x, k).log == Propagated(p, x.log)
  {
    hide Propagated, ReadyIds;
    var s := ToStart(p, x);
    NoElems(s[..k]);
    assert s[..0] == [];
  }

  lemma HolderIsLive(c: Config, s: State)
    requires Permits(c, s) && c.maxParallel >= 1 && s.available == 0
    ensures s.live > 0 && |s.bodies.Keys| >= c.maxParallel
  {
    SubsetSize(Holders(s.bodies), s.bodies.Keys);
  }

  /** Names and states say the same about a task and its predecessors. */
  ghost predicate TaskFacts(p: Plan, l: Ledger, id: TaskId) {
    && l.seqNo == |l.events| && id in p.nodes && id in l.states
    && (NameAfter(l.events, id) == NPending <==> l.states[id].Pending?)
    && (BadDep(p, l.events, id) <==> FirstBad(p.nodes[id].deps, l.states).Some?)
    && (DoneDeps(p, l.events, id) <==> AllCompletedDeps(p.nodes[id].deps, l.states))
  }

  lemma NamesMatch(p: Plan, l: Ledger, id: TaskId)
    requires l.seqNo == |l.events| && Faithful(p, l) && l.states.Keys == p.nodes.Keys && id in p.nodes
    requires forall d :: d in p.nodes[id].deps ==> d in p.nodes
    ensures TaskFacts(p, l, id)
  {
    forall d | d in p.nodes[id].deps
      ensures BadName(NameAfter(l.events, d)) <==> l.states[d].IsBad()
      ensures NameAfter(l.events, d) == NCompleted <==> l.states[d].Completed?
    {
      assert NameAfter(l.events, d) == l.states[d].Name();
    }
  }

  lemma TaskKnown(p: Plan, c: Config, out: TaskId -> Finish, tr: seq<State>, id: TaskId)
    requires ValidPlan(p) && GoodRun(p, c, out, tr) && id in p.ids
    ensures TaskFacts(p, Last(tr).led, id)
    ensures NameAfter(Last(tr).led.events, id) == Last(tr).led.states[id].Name()
  {
    LogKnown(p, c, out, tr);
    NamesMatch(p, Last(tr).led, id);
  }

  lemma PassLowersTall(p: Plan, c: Config, out: TaskId -> Finish, tr: seq<State>, before: seq<WorkflowEvent>)
    requires ValidPlan(p) && GoodRun(p, c, out, tr)
    requires Last(tr).led.events == Pass(p, before, p.ids) && Last(tr).led.events != before
    ensures Tall(p, Last(tr).led.events, 4) < Tall(p, before, 4)
  {
    hide ValidPlan, Pass, LegalLog, Faithful, Tall;
    LogKnown(p, c, out, tr);
    LongerPassLowersTall(p, before, Last(tr).led.events);
  }

  lemma LongerPassLowersTall(p: Plan, before: seq<WorkflowEvent>, after: seq<WorkflowEvent>)
    requires LegalLog(p, after) && after == Pass(p, before, p.ids) && after != before
    ensures Tall(p, after, 4) < Tall(p, before, 4)
  {
    hide Pass, NameAfter, LegalLog, Tall;
    PassGrows(p, before, p.ids);
    PassMovesSomeone(p, before, p.ids);
    var x :| x in p.ids && NameAfter(before, x) == NPending && NameAfter(after, x) != NPending;
    assert Height(NameAfter(after, x)) < 4 <= Height(NameAfter(before, x));
    TallFalls(p, before, after, 4);
  }

  ghost predicate NoneAcquired(bodies: map<TaskId, Body>) {
    forall id :: id in bodies ==> !bodies[id].Acquired?
  }

  /** Among the first `n` ids, every task is terminal or running. */
  ghost predicate NoneOpen(p: Plan, states: map<TaskId, TaskState>, n: nat)
    requires n <= |p.ids|
  {
    forall k :: 0 <= k < n ==>
      p.ids[k] in states && (states[p.ids[k]].IsTerminal() || states[p.ids[k]].Running?)
  }

  lemma StatesKnown(p: Plan, c: Config, out: TaskId -> Finish, tr: seq<State>)
    requires ValidPlan(p) && GoodRun(p, c, out, tr)
    ensures Last(tr).led.states.Keys == p.nodes.Keys
    ensures forall id :: id in p.ids <==> id in Last(tr).led.states
  {
    AlwaysInv(p, c, tr, |tr| - 1);
  }

  lemma FlagsKnown(p: Plan, c: Config, out: TaskId -> Finish, tr: seq<State>)
    requires ValidPlan(p) && GoodRun(p, c, out, tr)
    ensures Flags(c, Last(tr))
  {
    AlwaysInv(p, c, tr, |tr| - 1);
  }

  lemma PermitsKnown(p: Plan, c: Config, out: TaskId -> Finish, tr: seq<State>)
    requires ValidPlan(p) && GoodRun(p, c, out, tr)
    ensures Permits(c, Last(tr))
  {
    AlwaysInv(p, c, tr, |tr| - 1);
  }

  lemma LogKnown(p: Plan, c: Config, out: TaskId -> Finish, tr: seq<State>)
    requires ValidPlan(p) && GoodRun(p, c, out, tr)
    ensures var l := Last(tr).led;
      l.seqNo == |l.events| && Faithful(p, l) && LegalLog(p, l.events) && l.states.Keys == p.nodes.Keys
  {
    AlwaysInv(p, c, tr, |tr| - 1);
  }

  /** When a pass changes nothing, propagation is at its fixpoint. */
  lemma FixpointKnown(p: Plan, c: Config, out: TaskId -> Finish, tr: seq<State>)
    requires ValidPlan(p) && GoodRun(p, c, out, tr)
    requires Pass(p, Last(tr).led.events, p.ids) == Last(tr).led.events
    ensures Fixpoint(p, Last(tr).led.states)
  {
    LogKnown(p, c, out, tr);
    FixpointFromPass(p, Last(tr).led);
  }

  lemma FixpointFromPass(p: Plan, l: Ledger)
    requires ValidPlan(p) && l.seqNo == |l.events| && Faithful(p, l) && l.states.Keys == p.nodes.Keys
    requires Pass(p, l.events, p.ids) == l.events
    ensures Fixpoint(p, l.states)
  {
    PassGrows(p, l.events, p.ids);
    forall id | id in p.nodes && id in l.states && l.states[id].Pending?
      ensures FirstBad(p.nodes[id].deps, l.states).None? && !AllCompletedDeps(p.nodes[id].deps, l.states)
    {
      assert PropagateOne(p, l.events, id) == l.events;
      NamesMatch(p, l, id);
    }
  }

  lemma AvailableKnown(p: Plan, c: Config, out: TaskId -> Finish, tr: seq<State>)
    requires ValidPlan(p) && GoodRun(p, c, out, tr) && c.maxParallel >= 1
    ensures Last(tr).available <= c.maxParallel
    ensures Last(tr).available == 0 ==> Last(tr).live > 0 && |Last(tr).bodies.Keys| >= c.maxParallel
  {
    PermitsKnown(p, c, out, tr);
    if Last(tr).available == 0 {
      HolderIsLive(c, Last(tr));
    }
  }

  lemma SeqKnown(p: Plan, c: Config, out: TaskId -> Finish, tr: seq<State>)
    requires ValidPlan(p) && GoodRun(p, c, out, tr)
    ensures Last(tr).led.seqNo == |Last(tr).led.events|
  {
    LogKnown(p, c, out, tr);
  }

  lemma StartKeepsFixpoint(p: Plan, states: map<TaskId, TaskState>, id: TaskId)
    requires Fixpoint(p, states) && id in states && states[id].Ready?
    ensures Fixpoint(p, states[id := Running])
  {
    var after := states[id := Running];
    forall x | x in p.nodes && x in after && after[x].Pending?
      ensures FirstBad(p.nodes[x].deps, after).None? && !AllCompletedDeps(p.nodes[x].deps, after)
    {
      var d :| d in p.nodes[x].deps && !(d in states && states[d].Completed?);
      assert !(d in after && after[d].Completed?);
    }
  }

  lemma SinceNoneAcquired(b0: map<TaskId, Body>, b1: map<TaskId, Body>)
    requires NoneAcquired(b0) && BodiesSince(b0, b1)
    ensures NoneAcquired(b1)
  {
  }

  lemma BodiesKnown(p: Plan, c: Config, out: TaskId -> Finish, tr: seq<State>)
    requires ValidPlan(p) && GoodRun(p, c, out, tr)
    ensures Last(tr).live == |Last(tr).bodies|
    ensures Last(tr).bodies == map[] <==> Last(tr).live == 0
    ensures Last(tr).bodies == map[] ==> Last(tr).available == c.maxParallel
  {
    PermitsKnown(p, c, out, tr);
    if Last(tr).bodies == map[] {
      assert Holders(Last(tr).bodies) == {};
    }
  }

  /** What is known about an ended body that is about to be joined. */
  lemma JoinKnown(p: Plan, c: Config, out: TaskId -> Finish, tr: seq<State>, id: TaskId)
    requires ValidPlan(p) && GoodRun(p, c, out, tr) && id in Last(tr).bodies && Last(tr).bodies[id].Ended?
    ensures |tr| > 0 && id in p.nodes && Last(tr).live > 0
    ensures Last(tr).led.seqNo == |Last(tr).led.events|
    ensures !Last(tr).runCancel ==> Last(tr).bodies[id].finish == out(id)
    ensures id in Last(tr).led.states && Last(tr).led.states[id].Running?
  {
    PermitsKnown(p, c, out, tr);
    LogKnown(p, c, out, tr);
    if !Last(tr).runCancel {
      assert Obeys(out, tr[|tr| - 1]);
    }
  }

  /** Logs only grow along a run, so counts only fall. */
  lemma TallOver(p: Plan, c: Config, out: TaskId -> Finish, tr0: seq<State>, tr: seq<State>, h: nat)
    requires ValidPlan(p) && GoodRun(p, c, out, tr) && 0 < |tr0| && tr0 <= tr
    ensures Last(tr0).led.events <= Last(tr).led.events
    ensures FlagsFollow(Last(tr0), Last(tr))
    ensures Tall(p, Last(tr).led.events, h) <= Tall(p, Last(tr0).led.events, h)
  {
    LaterFollows(p, c, tr, |tr0| - 1, |tr| - 1);
    LogKnown(p, c, out, tr);
    TallFalls(p, Last(tr0).led.events, Last(tr).led.events, h);
  }

  lemma JoinLowersTall(p: Plan, c: Config, out: TaskId -> Finish, tr0: seq<State>, tr: seq<State>, id: TaskId)
    requires ValidPlan(p) && GoodRun(p, c, out, tr0) && GoodRun(p, c, out, tr) && 0 < |tr0| && tr0 <= tr
    requires id in Last(tr0).led.states && Last(tr0).led.states[id].Running?
    requires id in Last(tr).led.states && !Last(tr).led.states[id].Running?
    ensures Tall(p, Last(tr).led.events, 2) < Tall(p, Last(tr0).led.events, 2)
  {
    hide GoodRun, LegalLog, Tall;
    TallOver(p, c, out, tr0, tr, 2);
    LogKnown(p, c, out, tr0);
    LogKnown(p, c, out, tr);
    var before, after := Last(tr0).led.events, Last(tr).led.events;
    assert NameAfter(before, id) == NRunning && NameAfter(after, id) != NRunning;
    LeftRunning(p, before, after, id);
    StatesKnown(p, c, out, tr);
    TallFalls(p, before, after, 2);
  }

  lemma LeftRunning(p: Plan, before: seq<WorkflowEvent>, after: seq<WorkflowEvent>, id: TaskId)
    requires LegalLog(p, after) && before <= after
    requires NameAfter(before, id) == NRunning && NameAfter(after, id) != NRunning
    ensures Height(NameAfter(after, id)) < 2 <= Height(NameAfter(before, id))
  {
    assert before == after[..|before|] && after == after[..|after|];
    HeightFalls(p, after, |before|, |after|, id);
  }

  lemma SettleName(c: Config, l: Ledger, id: TaskId, f: Finish, interrupt: EffectCertainty, now: int)
    ensures SettleChange(c, l, id, f, interrupt, now).state.Name() == FinishName(f)
    ensures !SettleChange(c, l, id, f, interrupt, now).state.Running?
  {
  }

  lemma NonEmptyRun(p: Plan, c: Config, out: TaskId -> Finish, tr: seq<State>)
    requires GoodRun(p, c, out, tr)
    ensures |tr| > 0
  {
  }

  lemma QuietKnown(p: Plan, c: Config, out: TaskId -> Finish, tr: seq<State>)
    requires ValidPlan(p) && GoodRun(p, c, out, tr)
    requires Last(tr).live == 0 && Last(tr).runCancel == Last(tr).cancelSeen
    requires Last(tr).cancelSeen ==> NoneOpen(p, Last(tr).led.states, |p.ids|)
    requires !Last(tr).cancelSeen ==> Fixpoint(p, Last(tr).led.states) && NoneReady(p, Last(tr).led.states, |p.ids|)
    ensures Quiet(p, Last(tr))
  {
    hide GoodRun;
    NonEmptyRun(p, c, out, tr);
    StatesKnown(p, c, out, tr);
    PermitsKnown(p, c, out, tr);
    NothingRuns(p, c, Last(tr));
  }
}
