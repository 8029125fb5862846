/**
 The executor's own loops. Every statement that touches shared state is one
 step of the transition system, and everything that may happen in between is
 let in by `Interfere`, so each execution is one of the runs the other
 modules reason about.
 */
module WorkflowExecutor {
  import opened Wrappers
  import opened Failure
  import opened WorkflowSpec
  import opened WorkflowLedger
  import opened WorkflowMachine
  import opened WorkflowReport
  import opened WorkflowFigures
  import opened ScheduleIndependence
  import opened SequentialReference
  import opened CoordinatorRounds
  import opened CoordinatorFacts
  import opened SingleOrder
  import opened GraphOrder
  import opened OneRunning
  import opened WorkflowPlan

  /** Owner of the tables and the log: whoever changes a task's state goes through it. */
  class Recorder {
    var seqNo: nat
    var states: map<TaskId, TaskState>
    var results: map<TaskId, string>
    var failures: map<TaskId, FailureRecord>
    var events: seq<WorkflowEvent>
    var bus: seq<BusEvent>

    function View(): Ledger
      reads this
    {
      Ledger(seqNo, states, results, failures, events, bus)
    }

    constructor (p: Plan)
      ensures View() == InitialLedger(p)
    {
      seqNo := 0;
      states := InitialStates(p);
      results, failures, events, bus := map[], map[], [], [];
    }

    method Transition(id: TaskId, state: TaskState, result: Option<string>) returns (n: nat)
      modifies this
      ensures View() == old(View()).Record(id, state, result)
      ensures n == seqNo
    {
      seqNo := seqNo + 1;
      n := seqNo;
      var event := EventFor(n, id, state, result);
      if result.Some? {
        results := results[id := result.value];
      }
      states := states[id := state];
      events := events + [WorkflowEvent(n, Some(id), state.Name())];
      if event.Some? {
        bus := bus + [event.value];
      }
    }

    method Finish(status: WorkflowStatus)
      modifies this
      ensures View() == old(View()).Close(status)
    {
      seqNo := seqNo + 1;
      events := events + [WorkflowEvent(seqNo, None, NFinished)];
      bus := bus + [WorkflowFinished(seqNo, status)];
    }

    method NoteFailure(id: TaskId, rec: FailureRecord)
      modifies this
      ensures View() == old(View()).Note(id, rec)
    {
      failures := failures[id := rec];
    }

    /** A noted failure, if any, and then the transition it explains. */
    method Move(id: TaskId, ch: Change)
      modifies this
      ensures View() == Apply(old(View()), id, ch)
    {
      if ch.record.Some? {
        NoteFailure(id, ch.record.value);
      }
      var n := Transition(id, ch.state, ch.result);
    }
  }

  class Coordinator {
    const p: Plan
    const c: Config
    const rec: Recorder
    const out: TaskId -> Finish
    const cooperative: bool
    var bodies: map<TaskId, Body>
    var available: nat
    var live: nat
    var peak: nat
    var callerCancel: bool
    var expired: bool
    var runCancel: bool
    var cancelSeen: bool
    var budgetExhausted: bool
    ghost var trace: seq<State>

    function View(): State
      reads this, rec
    {
      State(rec.View(), bodies, available, live, peak, callerCancel, expired, runCancel, cancelSeen, budgetExhausted)
    }

    ghost predicate Setup() {
      ValidPlan(p) && c.maxParallel >= 1 && PossibleScript(c, out)
    }

    /** The trace is a good run that ends in the present state. */
    ghost predicate Good()
      reads this, rec
    {
      GoodRun(p, c, out, trace) && Last(trace) == View()
    }

    constructor (p: Plan, c: Config, out: TaskId -> Finish, cooperative: bool)
      requires ValidPlan(p) && c.maxParallel >= 1 && PossibleScript(c, out)
      ensures this.p == p && this.c == c && this.out == out && this.cooperative == cooperative
      ensures fresh(rec)
      ensures Good() && View() == Init(p, c) && trace == [View()]
    {
      this.p, this.c, this.out, this.cooperative := p, c, out, cooperative;
      rec := new Recorder(p);
      bodies, available, live, peak := map[], c.maxParallel, 0, 0;
      callerCancel, expired, runCancel, cancelSeen, budgetExhausted := false, false, false, false, false;
      trace := [Init(p, c)];
    }

    /** Appends the state just reached to the trace. */
    ghost method Advance(s: State, a: Action)
      requires GoodRun(p, c, out, trace) && Last(trace) == s
      requires Enabled(p, c, s, a) && View() == Next(p, c, s, a)
      requires a.BodyEnds? ==> a.finish == out(a.id) || s.runCancel
      modifies this`trace
      ensures Good() && trace == old(trace) + [View()]
    {
      GoodRunSnoc(p, c, out, trace, View(), a);
      trace := trace + [View()];
    }

    // -------------------------------------------------------------------
    // Surroundings
    // -------------------------------------------------------------------

    /** A body ends, as scripted or interrupted, and returns its permit. */
    method EndBody(id: TaskId, f: Finish)
      requires Good() && Enabled(p, c, View(), BodyEnds(id, f))
      requires f == out(id) || runCancel
      modifies this`bodies, this`available, this`trace
      ensures Good() && old(trace) <= trace
      ensures bodies == old(bodies)[id := Ended(f)] && available == old(available) + 1
    {
      hide GoodRun, ValidPlan, PossibleScript;
      ghost var s := View();
      bodies := bodies[id := Ended(f)];
      available := available + 1;
      Advance(s, BodyEnds(id, f));
    }

    method CallerCancel()
      requires Good()
      modifies this`callerCancel, this`trace
      ensures Good() && old(trace) <= trace && callerCancel
    {
      hide GoodRun, ValidPlan, PossibleScript;
      ghost var s := View();
      callerCancel := true;
      Advance(s, CallerCancels);
    }

    method PassDeadline()
      requires Good() && c.hasBudget
      modifies this`expired, this`trace
      ensures Good() && old(trace) <= trace && expired
    {
      hide GoodRun, ValidPlan, PossibleScript;
      ghost var s := View();
      expired := true;
      Advance(s, DeadlinePasses);
    }

    /** Any number of things the surroundings may do before the coordinator's next step. */
    method Interfere(bodiesMayEnd: bool)
      requires Good()
      modifies this`bodies, this`available, this`callerCancel, this`expired, this`trace
      ensures Good() && old(trace) <= trace
      ensures BodiesSince(old(bodies), bodies) && old(available) <= available
      ensures old(callerCancel) ==> callerCancel
      ensures old(expired) ==> expired
      ensures !bodiesMayEnd ==> bodies == old(bodies) && available == old(available)
    {
      hide GoodRun, ValidPlan, PossibleScript;
      var k: nat := *;
      while k > 0
        invariant Good() && old(trace) <= trace
        invariant BodiesSince(old(bodies), bodies) && old(available) <= available
        invariant old(callerCancel) ==> callerCancel
        invariant old(expired) ==> expired
        invariant !bodiesMayEnd ==> bodies == old(bodies) && available == old(available)
      {
        var id: TaskId := *;
        var what: nat := *;
        if what == 0 {
          CallerCancel();
        } else if what == 1 && c.hasBudget {
          PassDeadline();
        } else if bodiesMayEnd {
          var interrupted: bool := *;
          var finish := if interrupted && runCancel then Interrupted else out(id);
          if Enabled(p, c, View(), BodyEnds(id, finish)) {
            EndBody(id, finish);
          }
        }
        k := k - 1;
      }
    }

    // -------------------------------------------------------------------
    // Single coordinator steps
    // -------------------------------------------------------------------

    method TripBudget()
      requires Good() && expired && !budgetExhausted
      modifies this`budgetExhausted, this`runCancel, this`trace
      ensures Good() && old(trace) <= trace && budgetExhausted && runCancel
    {
      hide GoodRun, ValidPlan, PossibleScript;
      ghost var s := View();
      budgetExhausted := true;
      runCancel := true;
      Advance(s, TripOnBudget);
    }

    method TripCancel()
      requires Good() && callerCancel
      modifies this`runCancel, this`trace
      ensures Good() && old(trace) <= trace && runCancel
    {
      hide GoodRun, ValidPlan, PossibleScript;
      ghost var s := View();
      runCancel := true;
      Advance(s, TripOnCancel);
    }

    method NoteCancel()
      requires Good() && runCancel && !cancelSeen
      modifies this`cancelSeen, this`trace
      ensures Good() && old(trace) <= trace && cancelSeen
    {
      hide GoodRun, ValidPlan, PossibleScript;
      ghost var s := View();
      cancelSeen := true;
      Advance(s, SeeCancel);
    }

    /** A step that only writes the ledger. */
    method MoveStep(id: TaskId, ch: Change, ghost a: Action)
      requires Good() && Enabled(p, c, View(), a) && (a.CancelOpen? || a.Skip? || a.MakeReady?)
      requires ChangeOf(p, c, View(), a) == Some((id, ch))
      modifies this`trace, rec
      ensures Good() && old(trace) <= trace
      ensures rec.states == old(rec.states)[id := ch.state]
      ensures rec.events == old(rec.events) + [WorkflowEvent(old(rec.seqNo) + 1, Some(id), ch.state.Name())]
    {
      hide GoodRun, ValidPlan, PossibleScript;
      ghost var s := View();
      rec.Move(id, ch);
      Advance(s, a);
    }

    method StartTask(id: TaskId)
      requires Good() && Enabled(p, c, View(), Start(id))
      modifies this`available, this`live, this`bodies, this`trace, rec
      ensures Good() && old(trace) <= trace
      ensures rec.states == old(rec.states)[id := Running]
      ensures rec.events == old(rec.events) + [WorkflowEvent(old(rec.seqNo) + 1, Some(id), NRunning)]
      ensures bodies == old(bodies)[id := Acquired] && live == old(live) + 1 && available == old(available) - 1
    {
      hide GoodRun, ValidPlan, PossibleScript;
      ghost var s := View();
      rec.Move(id, RUNNING_CHANGE);
      available, live := available - 1, live + 1;
      bodies := bodies[id := Acquired];
      Advance(s, Start(id));
    }

    method SpawnTask(id: TaskId)
      requires Good() && Enabled(p, c, View(), Spawn(id))
      modifies this`peak, this`bodies, this`trace
      ensures Good() && old(trace) <= trace
      ensures bodies == old(bodies)[id := Executing]
    {
      hide GoodRun, ValidPlan, PossibleScript;
      ghost var s := View();
      peak := Max(peak, c.maxParallel - available);
      bodies := bodies[id := Executing];
      Advance(s, Spawn(id));
    }

    method JoinTask(id: TaskId, now: int)
      requires Good() && Enabled(p, c, View(), Join(id, now))
      modifies this`live, this`bodies, this`trace, rec
      ensures Good() && old(trace) <= trace
      ensures bodies == old(bodies) - {id} && live == old(live) - 1
      ensures id in rec.states && !rec.states[id].Running?
      ensures rec.events == old(rec.events) + [WorkflowEvent(old(rec.seqNo) + 1, Some(id), FinishName(old(bodies)[id].finish))]
    {
      hide GoodRun, ValidPlan, PossibleScript, SettleChange;
      ghost var s := View();
      SettleName(c, rec.View(), id, bodies[id].finish, p.nodes[id].interrupt, now);
      live := live - 1;
      var finish := bodies[id].finish;
      bodies := bodies - {id};
      rec.Move(id, SettleChange(c, rec.View(), id, finish, p.nodes[id].interrupt, now));
      Advance(s, Join(id, now));
    }

    // -------------------------------------------------------------------
    // The loops of a run
    // -------------------------------------------------------------------

    /** Moves every task that is neither terminal nor running to Cancelled. */
    method CancelOpenTasks()
      requires Setup() && Good() && cancelSeen
      modifies this`trace, rec
      ensures Good() && old(trace) <= trace
      ensures NoneOpen(p, rec.states, |p.ids|)
    {
      hide GoodRun, ValidPlan, PossibleScript;
      StatesKnown(p, c, out, trace);
      for i := 0 to |p.ids|
        invariant Good() && old(trace) <= trace
        invariant rec.states.Keys == p.nodes.Keys
        invariant NoneOpen(p, rec.states, i)
      {
        CancelOpenTask(p.ids[i]);
      }
    }

    method CancelOpenTask(id: TaskId)
      requires Good() && cancelSeen && id in p.nodes && id in rec.states
      modifies this`trace, rec
      ensures Good() && old(trace) <= trace
      ensures rec.states.Keys == old(rec.states.Keys)
      ensures rec.states[id].IsTerminal() || rec.states[id].Running?
      ensures forall x :: x in rec.states && x != id ==> rec.states[x] == old(rec.states[x])
    {
      hide GoodRun, ValidPlan, PossibleScript;
      var st := rec.states[id];
      if st.Pending? || st.Ready? || st.WaitingForApproval? {
        var now: int := *;
        MoveStep(id, CancelChange(c, rec.View(), id, st.WaitingForApproval?, p.nodes[id].interrupt, now), CancelOpen(id, now));
      }
    }

    /** The deadline is checked first, then the caller's token; either trips the run-local token. */
    method CheckTokens()
      requires Setup() && Good() && NoneAcquired(bodies)
      modifies this`bodies, this`available, this`callerCancel, this`expired, this`budgetExhausted, this`runCancel, this`trace
      ensures Good() && old(trace) <= trace && NoneAcquired(bodies)
      ensures bodies.Keys == old(bodies.Keys)
      ensures old(callerCancel) || old(runCancel) || old(expired) ==> runCancel
      ensures old(expired) ==> budgetExhausted
      ensures !runCancel ==> budgetExhausted == old(budgetExhausted)
      ensures old(budgetExhausted) ==> budgetExhausted
    {
      hide GoodRun, ValidPlan, PossibleScript;
      FlagsKnown(p, c, out, trace);
      Interfere(true);
      if !budgetExhausted && c.hasBudget && expired {
        TripBudget();
      }
      Interfere(true);
      if callerCancel {
        TripCancel();
      }
    }

    /** A cancel seen for the first time cancels everything still open. */
    method SeeCancelIfTripped()
      requires Setup() && Good()
      modifies this`cancelSeen, this`trace, rec
      ensures Good() && old(trace) <= trace
      ensures cancelSeen == runCancel
      ensures cancelSeen && !old(cancelSeen) ==> NoneOpen(p, rec.states, |p.ids|)
      ensures !cancelSeen || old(cancelSeen) ==> rec.View() == old(rec.View())
    {
      hide GoodRun, ValidPlan, PossibleScript;
      FlagsKnown(p, c, out, trace);
      if !cancelSeen && runCancel {
        NoteCancel();
        CancelOpenTasks();
      }
    }

    /** Top of the loop. */
    method Observe()
      requires Setup() && Good() && NoneAcquired(bodies)
      modifies this`bodies, this`available, this`callerCancel, this`expired, this`budgetExhausted, this`runCancel,
               this`cancelSeen, this`trace, rec
      ensures Good() && old(trace) <= trace && NoneAcquired(bodies)
      ensures runCancel == cancelSeen && bodies.Keys == old(bodies.Keys)
      ensures old(callerCancel) || old(runCancel) || old(expired) ==> cancelSeen
      ensures old(expired) ==> budgetExhausted
      ensures cancelSeen && !old(cancelSeen) ==> NoneOpen(p, rec.states, |p.ids|)
      ensures !cancelSeen || old(cancelSeen) ==> rec.View() == old(rec.View())
      ensures !cancelSeen ==> budgetExhausted == old(budgetExhausted)
      ensures old(budgetExhausted) ==> budgetExhausted
    {
      hide GoodRun, ValidPlan, PossibleScript;
      CheckTokens();
      SeeCancelIfTripped();
    }

    /** Skips or readies one task, if it is pending and its predecessors call for it. */
    method PropagateTask(id: TaskId) returns (changed: bool)
      requires Good() && !cancelSeen && TaskFacts(p, rec.View(), id)
      modifies this`trace, rec
      ensures Good() && old(trace) <= trace
      ensures rec.events == PropagateOne(p, old(rec.events), id)
      ensures changed <==> rec.events != old(rec.events)
      ensures !changed ==> trace == old(trace) && rec.View() == old(rec.View())
    {
      hide GoodRun, ValidPlan, PossibleScript;
      var deps := p.nodes[id].deps;
      var bad := FirstBad(deps, rec.states);
      changed := false;
      if rec.states[id].Pending? {
        if bad.Some? {
          var now: int := *;
          MoveStep(id, SkipChange(c, rec.View(), id, bad.value, now), Skip(id, now));
          changed := true;
        } else if AllCompletedDeps(deps, rec.states) {
          MoveStep(id, READY_CHANGE, MakeReady(id));
          changed := true;
        }
      }
    }

    /** One pass of propagation in insertion order. */
    method PropagatePass() returns (changed: bool)
      requires Setup() && Good() && !cancelSeen
      modifies this`trace, rec
      ensures Good() && old(trace) <= trace
      ensures rec.events == Pass(p, old(rec.events), p.ids)
      ensures changed <==> rec.events != old(rec.events)
      ensures !changed ==> trace == old(trace) && rec.View() == old(rec.View())
    {
      hide GoodRun, ValidPlan, PossibleScript;
      changed := false;
      for i := 0 to |p.ids|
        invariant Good() && old(trace) <= trace
        invariant Pass(p, rec.events, p.ids[i..]) == Pass(p, old(rec.events), p.ids)
        invariant |rec.events| >= |old(rec.events)|
        invariant changed <==> |rec.events| > |old(rec.events)|
        invariant !changed ==> trace == old(trace) && rec.View() == old(rec.View())
      {
        assert p.ids[i..][1..] == p.ids[i + 1..];
        assert p.ids[i] in p.ids;
        TaskKnown(p, c, out, trace, p.ids[i]);
        var c1 := PropagateTask(p.ids[i]);
        changed := changed || c1;
      }
    }

    /** A pass either reaches the fixpoint or takes some task out of Pending. */
    method PropagateRound() returns (changed: bool)
      requires Setup() && Good() && !cancelSeen
      modifies this`trace, rec
      ensures Good() && old(trace) <= trace
      ensures rec.events == Pass(p, old(rec.events), p.ids)
      ensures changed ==> Tall(p, rec.events, 4) < Tall(p, old(rec.events), 4)
      ensures !changed ==> Pass(p, rec.events, p.ids) == rec.events && Fixpoint(p, rec.states)
    {
      hide GoodRun, ValidPlan, PossibleScript;
      changed := PropagatePass();
      if changed {
        PassLowersTall(p, c, out, trace, old(rec.events));
      } else {
        FixpointKnown(p, c, out, trace);
      }
    }

    /** Propagates to the fixpoint, in at most n + 1 passes. */
    method Propagate() returns (ghost passes: nat)
      requires Setup() && Good() && !cancelSeen
      modifies this`trace, rec
      ensures Good() && old(trace) <= trace
      ensures Fixpoint(p, rec.states)
      ensures rec.events == Passes(p, old(rec.events), |p.ids| + 1)
      ensures passes <= |p.ids| + 1
    {
      hide GoodRun, ValidPlan, PossibleScript;
      passes := 1;
      TallBound(p, rec.events, 4);
      ghost var left: nat := |p.ids|;
      ghost var goal := Passes(p, rec.events, left + 1);
      ghost var tall := Tall(p, rec.events, 4);
      var changed := PropagateRound();
      while changed
        invariant Good() && old(trace) <= trace
        invariant Passes(p, rec.events, left) == goal
        invariant changed ==> Tall(p, rec.events, 4) < tall <= left
        invariant passes + left == |p.ids| + 1
        invariant !changed ==> Pass(p, rec.events, p.ids) == rec.events && Fixpoint(p, rec.states)
        decreases changed, tall
      {
        tall := Tall(p, rec.events, 4);
        changed := PropagateRound();
        passes, left := passes + 1, left - 1;
      }
      PassesAtFixpoint(p, rec.events, left);
    }

    /** Takes a permit, records the start, and spawns the body. */
    method Launch(id: TaskId)
      requires Setup() && Good() && NoneAcquired(bodies)
      requires Enabled(p, c, View(), Start(id)) && rec.seqNo == |rec.events|
      modifies this`available, this`live, this`bodies, this`peak, this`callerCancel, this`expired, this`trace, rec
      ensures Good() && old(trace) <= trace && NoneAcquired(bodies)
      ensures rec.states == old(rec.states)[id := Running]
      ensures rec.events == Enter(old(rec.events), id, NRunning)
      ensures live == old(live) + 1 && bodies.Keys == old(bodies.Keys) + {id}
      ensures cooperative ==> bodies == old(bodies)[id := Executing] && available == old(available) - 1
    {
      hide GoodRun, ValidPlan, PossibleScript, Next, SettleChange;
      StartTask(id);
      Interfere(!cooperative);
      AvailableKnown(p, c, out, trace);
      SpawnTask(id);
    }

    /** Whatever may happen while the start pass runs on. */
    method Elapse()
      requires Good() && NoneAcquired(bodies)
      modifies this`available, this`bodies, this`callerCancel, this`expired, this`trace
      ensures Good() && old(trace) <= trace && NoneAcquired(bodies)
      ensures bodies.Keys == old(bodies.Keys)
      ensures cooperative ==> bodies == old(bodies) && available == old(available)
      ensures (old(callerCancel) ==> callerCancel) && (old(expired) ==> expired)
    {
      hide GoodRun;
      Interfere(!cooperative);
    }

    /** Tries the semaphore. Without a free permit at least as many bodies are open as there are permits. */
    method HasPermit() returns (free: bool)
      requires Setup() && Good() && NoneAcquired(bodies)
      modifies this`available, this`bodies, this`callerCancel, this`expired, this`trace
      ensures Good() && old(trace) <= trace && NoneAcquired(bodies)
      ensures bodies.Keys == old(bodies.Keys)
      ensures cooperative ==> bodies == old(bodies) && available == old(available)
      ensures free <==> available > 0
      ensures !free ==> live > 0 && |bodies.Keys| >= c.maxParallel
    {
      hide GoodRun, ValidPlan, PossibleScript, NoneAcquired;
      Elapse();
      free := available > 0;
      AvailableKnown(p, c, out, trace);
    }

    /** One attempt at a start. A disturbance noticed at the last moment sends the loop back to its top. */
    method TryStart(id: TaskId) returns (r: Attempt)
      requires Setup() && Good() && NoneAcquired(bodies)
      requires !cancelSeen && !runCancel && id in p.nodes && id in rec.states && rec.states[id].Ready?
      modifies this`available, this`live, this`bodies, this`peak, this`callerCancel, this`expired, this`trace, rec
      ensures Good() && old(trace) <= trace && NoneAcquired(bodies)
      ensures r != NotReady
      ensures r == MustRestart ==> callerCancel || expired
      ensures old(callerCancel || expired) ==> r == MustRestart
      ensures r == NoPermit ==> live > 0 && |bodies.Keys| >= c.maxParallel
      ensures bodies.Keys == if r == Started then old(bodies.Keys) + {id} else old(bodies.Keys)
      ensures r != Started ==> rec.View() == old(rec.View()) && live == old(live)
      ensures r == Started ==> rec.states == old(rec.states)[id := Running] && live == old(live) + 1
                               && rec.events == Enter(old(rec.events), id, NRunning)
      ensures cooperative ==>
        if r == Started then bodies == old(bodies)[id := Executing] && old(available) > 0 && available == old(available) - 1
        else bodies == old(bodies) && available == old(available) && (r == NoPermit ==> available == 0)
    {
      hide GoodRun, ValidPlan, PossibleScript, Next, Enter;
      FlagsKnown(p, c, out, trace);
      Elapse();
      if callerCancel || runCancel || (c.hasBudget && expired) {
        return MustRestart;
      }
      var free := HasPermit();
      if !free {
        return NoPermit;
      }
      SeqKnown(p, c, out, trace);
      Launch(id);
      r := Started;
    }

    /** Walks over the tasks once and starts whatever is ready, until a permit is missing.
        `restart` reports that a disturbance ended the walk early. */
    method StartPass(ghost x: Position) returns (restart: bool, ghost k: nat)
      requires Setup() && Good() && NoneAcquired(bodies)
      requires !cancelSeen && !runCancel && Fixpoint(p, rec.states)
      requires rec.events == Propagated(p, x.log) && bodies.Keys == x.open
      modifies this`available, this`live, this`bodies, this`peak, this`callerCancel, this`expired, this`trace, rec
      ensures Good() && old(trace) <= trace && NoneAcquired(bodies)
      ensures Fixpoint(p, rec.states)
      ensures restart ==> callerCancel || expired
      ensures old(callerCancel || expired) ==> rec.events == old(rec.events)
      ensures !restart && live == 0 ==> NoneReady(p, rec.states, |p.ids|)
      ensures !restart && cooperative ==> available == 0 || NoneReady(p, rec.states, |p.ids|)
      ensures !restart ==> Scheduled(p, c.maxParallel, cooperative, x, Place(), k)
    {
      hide GoodRun, ValidPlan, PossibleScript, StartedTo, Scheduled, Fixpoint, NoneReady, NoneAcquired, Propagated;
      AvailableKnown(p, c, out, trace);
      ghost var n0, i := available, 0;
      k := 0;
      restart, i := StartWalk();
      if !restart {
        k := WalkIsOver(p, c.maxParallel, cooperative, x, n0, Place(), available, i);
      }
    }

    /** The walk itself; `reached` says how far it came. */
    method StartWalk() returns (restart: bool, ghost reached: nat)
      requires Setup() && Good() && NoneAcquired(bodies)
      requires !cancelSeen && !runCancel && Fixpoint(p, rec.states)
      modifies this`available, this`live, this`bodies, this`peak, this`callerCancel, this`expired, this`trace, rec
      ensures Good() && old(trace) <= trace && NoneAcquired(bodies)
      ensures Fixpoint(p, rec.states) && reached <= |p.ids|
      ensures restart ==> callerCancel || expired
      ensures old(callerCancel || expired) ==> rec.events == old(rec.events)
      ensures !restart && live == 0 ==> NoneReady(p, rec.states, |p.ids|)
      ensures !restart && cooperative ==> available == 0 || NoneReady(p, rec.states, |p.ids|)
      ensures !restart ==> reached == |p.ids| || |bodies.Keys| >= c.maxParallel
      ensures !restart ==>
        StartedTo(p, old(rec.events), old(bodies.Keys), old(available), rec.events, bodies.Keys, available, reached, cooperative)
    {
      hide GoodRun, ValidPlan, PossibleScript, Attempted, StartedTo, Fixpoint, NoneAcquired, NoneReady;
      StatesKnown(p, c, out, trace);
      PlanIdsDistinct(p);
      ghost var log0, open0, n0, disturbed := rec.events, bodies.Keys, available, callerCancel || expired;
      StartedNone(p, log0, open0, n0, cooperative);
      NoneReadyYet(p, rec.states);
      reached := 0;
      for i := 0 to |p.ids|
        invariant reached == i
        invariant Good() && old(trace) <= trace && NoneAcquired(bodies)
        invariant rec.states.Keys == p.nodes.Keys
        invariant Fixpoint(p, rec.states)
        invariant NoneReady(p, rec.states, i)
        invariant disturbed ==> (callerCancel || expired) && rec.events == log0
        invariant StartedTo(p, log0, open0, n0, rec.events, bodies.Keys, available, i, cooperative)
      {
        ghost var ev, open, n, states := rec.events, bodies.Keys, available, rec.states;
        var r := TryStartAt(i);
        if r == MustRestart {
          return true, i;
        }
        StartedOver(p, log0, open0, n0, ev, open, n, rec.events, bodies.Keys, available, i, r, c.maxParallel, cooperative);
        if r == NoPermit {
          return false, i;
        }
        NoneReadyOver(p, states, rec.states, i);
        reached := reached + 1;
      }
      restart := false;
    }

    method TryStartAt(i: nat) returns (r: Attempt)
      requires Setup() && Good() && NoneAcquired(bodies)
      requires !cancelSeen && !runCancel && i < |p.ids| && rec.states.Keys == p.nodes.Keys
      modifies this`available, this`live, this`bodies, this`peak, this`callerCancel, this`expired, this`trace, rec
      ensures Good() && old(trace) <= trace && NoneAcquired(bodies)
      ensures r == MustRestart ==> callerCancel || expired
      ensures old(callerCancel || expired) ==> r == MustRestart || r == NotReady
      ensures r == NotReady ==> callerCancel == old(callerCancel) && expired == old(expired)
      ensures r == NoPermit ==> live > 0
      ensures r != Started ==> rec.View() == old(rec.View())
      ensures r == Started ==> p.ids[i] in rec.states && old(rec.states)[p.ids[i]].Ready?
                               && rec.states == old(rec.states)[p.ids[i] := Running]
      ensures r == NotReady ==> p.ids[i] in rec.states && !rec.states[p.ids[i]].Ready?
      ensures r == NoPermit && cooperative ==> available == 0
      ensures old(Fixpoint(p, rec.states)) ==> Fixpoint(p, rec.states)
      ensures Attempted(old(rec.events), old(bodies.Keys), old(available), rec.events, bodies.Keys, available,
                        p.ids[i], r, c.maxParallel, cooperative)
    {
      hide GoodRun, ValidPlan, PossibleScript;
      var id := p.ids[i];
      TaskKnown(p, c, out, trace, id);
      if rec.states[id].Ready? {
        ghost var states := rec.states;
        r := TryStart(id);
        if Fixpoint(p, states) {
          StartKeepsFixpoint(p, states, id);
        }
      } else {
        r := NotReady;
      }
    }

    /** Waits for a body to end; a body that is left alone ends as scripted. */
    method AwaitEnded() returns (id: TaskId)
      requires Setup() && Good() && NoneAcquired(bodies) && bodies != map[]
      modifies this`bodies, this`available, this`trace
      ensures Good() && old(trace) <= trace && NoneAcquired(bodies)
      ensures bodies.Keys == old(bodies.Keys)
      ensures id in bodies && bodies[id].Ended?
    {
      hide GoodRun, ValidPlan;
      if exists x :: x in bodies && bodies[x].Ended? {
        id :| id in bodies && bodies[id].Ended?;
      } else {
        id :| id in bodies;
        EndBody(id, out(id));
      }
    }

    /** Records the end of one body. */
    method Settle(id: TaskId)
      requires Setup() && Good() && NoneAcquired(bodies) && id in bodies && bodies[id].Ended?
      modifies this`live, this`bodies, this`trace, rec
      ensures Good() && old(trace) <= trace && NoneAcquired(bodies)
      ensures bodies == old(bodies) - {id}
      ensures !runCancel ==> rec.events == Enter(old(rec.events), id, FinishName(out(id)))
      ensures Tall(p, rec.events, 2) < Tall(p, old(rec.events), 2)
    {
      hide GoodRun, ValidPlan, PossibleScript;
      JoinKnown(p, c, out, trace, id);
      var now: int := *;
      ghost var tr := trace;
      JoinTask(id, now);
      JoinLowersTall(p, c, out, tr, trace, id);
    }

    /** The coordinator's wait: the caller's cancel first, then the deadline, then an ended body. */
    method Await() returns (w: Wake)
      requires Setup() && Good() && NoneAcquired(bodies) && live > 0
      modifies this`live, this`bodies, this`available, this`callerCancel, this`expired, this`runCancel,
               this`budgetExhausted, this`trace, rec
      ensures Good() && old(trace) <= trace && NoneAcquired(bodies)
      ensures old(callerCancel || runCancel || expired) ==> callerCancel || runCancel || expired
      ensures old(budgetExhausted) ==> budgetExhausted
      ensures old(runCancel) ==> runCancel
      ensures w == CancelObserved ==> !cancelSeen && runCancel
      ensures w == BudgetSpent ==> !old(budgetExhausted) && budgetExhausted && runCancel && (cancelSeen || !callerCancel)
      ensures w == Joined ==> (cancelSeen || !callerCancel) && (budgetExhausted || !(c.hasBudget && expired))
      ensures w == Joined ==> Tall(p, rec.events, 2) < Tall(p, old(rec.events), 2)
      ensures w == Joined && !runCancel ==>
        exists id :: id in old(bodies) && bodies.Keys == old(bodies.Keys) - {id} &&
          rec.events == Enter(old(rec.events), id, FinishName(out(id)))
    {
      hide GoodRun, ValidPlan, PossibleScript, NoneAcquired, Tall, Enter, FinishName;
      BodiesKnown(p, c, out, trace);
      Interfere(true);
      SinceNoneAcquired(old(bodies), bodies);
      if !cancelSeen && callerCancel {
        TripCancel();
        return CancelObserved;
      }
      if !budgetExhausted && c.hasBudget && expired {
        TripBudget();
        return BudgetSpent;
      }
      AwaitJoin();
      w := Joined;
    }

    method AwaitJoin()
      requires Setup() && Good() && NoneAcquired(bodies) && bodies != map[]
      modifies this`live, this`bodies, this`available, this`trace, rec
      ensures Good() && old(trace) <= trace && NoneAcquired(bodies)
      ensures Tall(p, rec.events, 2) < Tall(p, old(rec.events), 2)
      ensures !runCancel ==>
        exists id :: id in old(bodies) && bodies.Keys == old(bodies.Keys) - {id} &&
          rec.events == Enter(old(rec.events), id, FinishName(out(id)))
    {
      hide GoodRun, ValidPlan, PossibleScript, NoneAcquired, Tall;
      ghost var keys := bodies.Keys;
      var id := AwaitEnded();
      Settle(id);
      assert bodies.Keys == keys - {id};
    }

    /** Propagates and starts what is ready. */
    method Schedule() returns (restart: bool, ghost k: nat)
      requires Setup() && Good() && NoneAcquired(bodies) && !cancelSeen && !runCancel
      modifies this`available, this`live, this`bodies, this`peak, this`callerCancel, this`expired, this`trace, rec
      ensures Good() && old(trace) <= trace && NoneAcquired(bodies)
      ensures restart ==> callerCancel || expired
      ensures !restart && live == 0 ==> Fixpoint(p, rec.states) && NoneReady(p, rec.states, |p.ids|)
      ensures !restart ==>
        Scheduled(p, c.maxParallel, cooperative, old(Place()), Place(), k)
    {
      hide GoodRun, ValidPlan, PossibleScript, NoneAcquired, Fixpoint, NoneReady, Scheduled, Passes;
      ghost var x := Place();
      ghost var passes := Propagate();
      restart, k := StartPass(x);
    }

    /** Where the undisturbed coordinator is between two rounds. */
    ghost function Place(): Position
      reads this, rec
    {
      Position(rec.events, bodies.Keys)
    }

    /** Has anything happened that makes the next look at the tokens see a cancel? */
    predicate Disturbed()
      reads this
    {
      callerCancel || runCancel || expired
    }

    /** Stops when nothing is live; otherwise waits once. */
    method StopOrWait() returns (r: RoundEnd)
      requires Setup() && Good() && NoneAcquired(bodies)
      modifies this`live, this`bodies, this`available, this`callerCancel, this`expired, this`runCancel,
               this`budgetExhausted, this`trace, rec
      ensures Good() && old(trace) <= trace && NoneAcquired(bodies)
      ensures old(Disturbed()) ==> Disturbed()
      ensures old(runCancel) ==> runCancel
      ensures old(budgetExhausted) ==> budgetExhausted
      ensures r == Quiescent ==> live == 0 && bodies == old(bodies) == map[] && runCancel == old(runCancel) && rec.View() == old(rec.View())
      ensures r == CancelRestart ==> !cancelSeen && Disturbed()
      ensures r == BudgetRestart ==> !old(budgetExhausted) && budgetExhausted
      ensures r == JoinRestart ==> Tall(p, rec.events, 2) < Tall(p, old(rec.events), 2)
      ensures r == BudgetRestart ==> runCancel
      ensures r == JoinRestart && !runCancel ==>
        exists id :: id in old(bodies) && bodies.Keys == old(bodies.Keys) - {id} &&
          rec.events == Enter(old(rec.events), id, FinishName(out(id)))
    {
      hide GoodRun, ValidPlan, PossibleScript, NoneAcquired, Tall, Enter, FinishName;
      BodiesKnown(p, c, out, trace);
      if live == 0 {
        return Quiescent;
      }
      var w := Await();
      match w {
        case CancelObserved => r := CancelRestart;
        case BudgetSpent => r := BudgetRestart;
        case Joined => r := JoinRestart;
      }
    }

    /** The part of an iteration that runs while no cancel has been seen. */
    method ScheduleAndWait() returns (r: RoundEnd)
      requires Setup() && Good() && NoneAcquired(bodies) && !cancelSeen && !runCancel
      modifies this`live, this`bodies, this`available, this`callerCancel, this`expired, this`runCancel,
               this`budgetExhausted, this`peak, this`trace, rec
      ensures Good() && old(trace) <= trace && NoneAcquired(bodies)
      ensures old(Disturbed()) ==> Disturbed()
      ensures old(budgetExhausted) ==> budgetExhausted
      ensures r == CancelRestart ==> Disturbed()
      ensures r == BudgetRestart ==> !old(budgetExhausted) && budgetExhausted && runCancel
      ensures r == JoinRestart ==> Tall(p, rec.events, 2) < Tall(p, old(rec.events), 2)
      ensures r == Quiescent ==> live == 0 && !runCancel && Fixpoint(p, rec.states) && NoneReady(p, rec.states, |p.ids|)
      ensures !runCancel ==> RoundDone(p, c.maxParallel, cooperative, out, old(Place()), Place(), r)
    {
      hide GoodRun, ValidPlan, PossibleScript, NoneAcquired, Tall, Enter, FinishName, Fixpoint, NoneReady, Scheduled,
           RoundDone;
      ghost var tr, x := trace, Place();
      var restart: bool, k := Schedule();
      NonEmptyRun(p, c, out, tr);
      TallOver(p, c, out, tr, trace, 2);
      if restart {
        NothingPromised(p, c.maxParallel, cooperative, out, x, Place());
        return CancelRestart;
      }
      ghost var mid := Place();
      BodiesKnown(p, c, out, trace);
      r := StopOrWait();
      if !runCancel {
        JoinedAfter(p, c.maxParallel, cooperative, out, x, mid, Place(), k, r);
      }
    }

    /** One iteration of the coordinator's loop. */
    method Round() returns (r: RoundEnd)
      requires Setup() && Good() && NoneAcquired(bodies)
      modifies this, rec
      ensures Good() && old(trace) <= trace && NoneAcquired(bodies)
      ensures old(Disturbed()) ==> Disturbed()
      ensures old(budgetExhausted) ==> budgetExhausted
      ensures old(Disturbed()) ==> runCancel
      ensures r == CancelRestart ==> !old(Disturbed()) && Disturbed()
      ensures r == BudgetRestart ==> !old(budgetExhausted) && budgetExhausted && runCancel
      ensures r == JoinRestart ==> Tall(p, rec.events, 2) < Tall(p, old(rec.events), 2)
      ensures Tall(p, rec.events, 2) <= Tall(p, old(rec.events), 2)
      ensures r == Quiescent ==> live == 0 && runCancel == cancelSeen
      ensures r == Quiescent && !cancelSeen ==> Fixpoint(p, rec.states) && NoneReady(p, rec.states, |p.ids|)
      ensures !runCancel ==> RoundDone(p, c.maxParallel, cooperative, out, old(Place()), Place(), r)
    {
      hide GoodRun, ValidPlan, PossibleScript, NoneAcquired, Tall, Enter, FinishName, Fixpoint, NoneReady, RoundDone;
      ghost var tr := trace;
      Observe();
      NonEmptyRun(p, c, out, tr);
      TallOver(p, c, out, tr, trace, 2);
      if cancelSeen {
        r := StopOrWait();
      } else {
        r := ScheduleAndWait();
      }
      TallOver(p, c, out, tr, trace, 2);
    }

    /** The whole loop, from the initial state: at most n + 3 iterations, which are
        the rounds of an undisturbed coordinator unless a cancel was tripped. */
    method RunToQuiescence() returns (ghost rounds: nat)
      requires Setup() && Good() && View() == Init(p, c)
      modifies this, rec
      ensures Good()
      ensures Quiet(p, View())
      ensures rounds <= |p.ids| + 3
      ensures !runCancel ==> RoundLog(p, c.maxParallel, cooperative, out, rec.events)
    {
      hide GoodRun, ValidPlan, PossibleScript, Tall, Fixpoint, NoneReady, RoundDone, Rounds;
      rounds := 0;
      ghost var cancelUsed := false;
      ghost var xs := [START];
      AtStart(p, c.maxParallel, cooperative, out);
      assert Place() == START;
      TallBound(p, rec.events, 2);
      var r := JoinRestart;
      while r != Quiescent
        invariant Good() && NoneAcquired(bodies)
        invariant cancelUsed ==> Disturbed()
        invariant rounds + Tall(p, rec.events, 2) + (if budgetExhausted then 0 else 1) + (if cancelUsed then 0 else 1)
                  <= |p.ids| + (if r == Quiescent then 3 else 2)
        invariant !runCancel && !cancelUsed && r != Quiescent ==>
          xs != [] && Rounds(p, c.maxParallel, cooperative, out, xs) && xs[|xs| - 1] == Place()
        invariant r == Quiescent ==> live == 0 && runCancel == cancelSeen
        invariant r == Quiescent && !cancelSeen ==> Fixpoint(p, rec.states) && NoneReady(p, rec.states, |p.ids|)
        invariant r == Quiescent && !runCancel ==> RoundLog(p, c.maxParallel, cooperative, out, rec.events)
        decreases r != Quiescent, |p.ids| + 2 - rounds
      {
        ghost var x, calm := Place(), !runCancel && !cancelUsed;
        r := Round();
        rounds := rounds + 1;
        if r == CancelRestart {
          cancelUsed := true;
        }
        if calm && !runCancel {
          xs := RoundOver(p, c.maxParallel, cooperative, out, xs, Place(), r);
        }
      }
      if cancelSeen {
        // A join after the cancel may have left a task waiting; nothing will resume it.
        CancelOpenTasks();
      }
      QuietKnown(p, c, out, trace);
    }

    /** Closes the log and reports. */
    method MakeReport() returns (report: Report)
      modifies rec
      ensures report == ReportOf(p, old(View()))
      ensures rec.View() == old(rec.View()).Close(report.status)
    {
      var unfinished := Unfinished(p.ids, rec.states);
      var anyWaiting := exists id :: id in rec.states && rec.states[id].WaitingForApproval?;
      var allDone := forall id :: id in rec.states ==> rec.states[id].Completed?;
      var status := if cancelSeen then RunCancelled
                    else if anyWaiting then AwaitingApproval
                    else if allDone then AllCompleted
                    else SomeFailed;
      rec.Finish(status);
      report := Report(status, rec.seqNo, rec.states, rec.results, rec.failures, unfinished, rec.events, peak, budgetExhausted);
    }
  }

  class WorkflowExecutor {
    const c: Config

    constructor (c: Config)
      requires c.maxParallel >= 1
      ensures this.c == c
    {
      this.c := c;
    }

    /** A bound of zero is refused. */
    static method Create(c: Config) returns (r: Result<WorkflowExecutor, WorkflowError>)
      ensures r.Ok? <==> c.maxParallel >= 1
      ensures r.Ok? ==> r.value.c == c
      ensures r.Err? ==> r.error == InvalidConfig
    {
      if c.maxParallel == 0 {
        return Err(InvalidConfig);
      }
      var e := new WorkflowExecutor(c);
      r := Ok(e);
    }

    /** Runs the graph to quiescence, whatever the surroundings do. The loop
        executes one of the runs of the transition system, in at most n + 3
        iterations, and reports its last state. */
    method Run(spec: Spec, out: TaskId -> Finish, cooperative: bool)
      returns (report: Report, bus: seq<BusEvent>, ghost tr: seq<State>, ghost rounds: nat)
      requires c.maxParallel >= 1 && PossibleScript(c, out)
      requires WellFormed(spec.tasks) && AllKnown(spec.tasks) && Ordered(spec.tasks)
      ensures ValidPlan(PlanOf(spec)) && FinishedRun(PlanOf(spec), c, tr)
      ensures report == ReportOf(PlanOf(spec), Last(tr))
      ensures rounds <= |spec.tasks| + 3
      ensures !Last(tr).runCancel ==> ScriptedRun(PlanOf(spec), c, out, tr)
      ensures Meaningful(PlanOf(spec), c, report) && BusMeaning(PlanOf(spec), bus, report)
      ensures PeakIsExact(tr, report.peak) && FlagIsExact(PlanOf(spec), c, tr, report)
      ensures report.status != RunCancelled ==> ReportIsEval(PlanOf(spec), c.wording, out, report)
      ensures report.status != RunCancelled ==>
        && report.events != []
        && RoundLog(PlanOf(spec), c.maxParallel, cooperative, out, report.events[..|report.events| - 1])
      ensures c.maxParallel == 1 && report.status != RunCancelled && FixesOrder(PlanOf(spec), out, cooperative) ==>
        && report.events == SequentialLog(PlanOf(spec), out, [], |spec.tasks|)
                            + [WorkflowEvent(report.lastSeq, None, NFinished)]
        && forall i :: 0 <= i < |tr| ==> OneRunningIn(tr[i])
    {
      hide ValidPlan, WellFormed, AllKnown, Ordered, PossibleScript, IsRun, FinishedRun, Quiet, Meaningful, BusMeaning,
           PeakIsExact, FlagIsExact, ReportIsEval, RoundLog, SequentialLog, FixesOrder, OneRunningIn, ScriptedRun, PlanOf;
      BuiltIsValid(spec);
      var p := PlanOf(spec);
      var co := new Coordinator(p, c, out, cooperative);
      rounds := co.RunToQuiescence();
      tr := co.trace;
      RunGuarantees(p, c, out, tr);
      if !Last(tr).runCancel && c.maxParallel == 1 && FixesOrder(p, out, cooperative) {
        FixedOrder(p, c, out, cooperative, tr);
      }
      report := co.MakeReport();
      bus := co.rec.bus;
    }
  }

  /** What a finished run means for its report. */
  lemma RunGuarantees(p: Plan, c: Config, out: TaskId -> Finish, tr: seq<State>)
    requires ValidPlan(p) && GoodRun(p, c, out, tr) && Quiet(p, Last(tr))
    ensures |tr| > 0 && FinishedRun(p, c, tr) && Meaningful(p, c, ReportOf(p, Last(tr)))
    ensures PeakIsExact(tr, ReportOf(p, Last(tr)).peak) && FlagIsExact(p, c, tr, ReportOf(p, Last(tr)))
    ensures BusMeaning(p, Last(tr).led.Close(ReportOf(p, Last(tr)).status).bus, ReportOf(p, Last(tr)))
    ensures ReportOf(p, Last(tr)).status == RunCancelled <==> Last(tr).cancelSeen
    ensures !Last(tr).cancelSeen ==> !Last(tr).runCancel && ReportIsEval(p, c.wording, out, ReportOf(p, Last(tr)))
  {
    hide ValidPlan, Meaningful, ReportIsEval, PeakIsExact, FlagIsExact, BusMeaning;
    ReportIsMeaningful(p, c, tr);
    ReportedPeakIsExact(p, c, tr);
    ReportedFlagIsExact(p, c, tr);
    BusTellsAll(p, c, tr);
    if !Last(tr).cancelSeen {
      ReportedRunIsEval(p, c, out, tr);
    }
  }

  /** Why one permit may fix the order: no body progresses in a start pass, the sequential
      schedule never has two tasks ready, or the graph is a total order. */
  ghost predicate FixesOrder(p: Plan, out: TaskId -> Finish, cooperative: bool) {
    cooperative || NeverTwoReady(p, out, [], |p.ids|) || TotalOrder(p)
  }

  lemma FixedOrder(p: Plan, c: Config, out: TaskId -> Finish, cooperative: bool, tr: seq<State>)
    requires ValidPlan(p) && IsRun(p, c, tr) && FixesOrder(p, out, cooperative)
    requires RoundLog(p, 1, cooperative, out, Last(tr).led.events)
    ensures Last(tr).led.events == SequentialLog(p, out, [], |p.ids|)
    ensures forall i :: 0 <= i < |tr| ==> OneRunningIn(tr[i])
  {
    hide ValidPlan, Step, TotalOrder, RoundLog, NeverTwoReady, SequentialLog, OneRunningIn;
    if !cooperative && !NeverTwoReady(p, out, [], |p.ids|) {
      OrderedNeverTwo(p, out, [], |p.ids|);
    }
    SequentialIfSingle(p, cooperative, out, Last(tr).led.events);
    forall i | 0 <= i < |tr| ensures OneRunningIn(tr[i]) {
      NeverTwoRunning(p, c, out, tr, i);
    }
  }
}
