/**
 The task table and the heartbeat pulse over it. A pulse suspends wherever it
 touches the table or awaits a body; there any number of steps of other pulses
 and of task creations may happen.
 */
module Heartbeat {
  import opened Wrappers
  import opened HeartbeatMachine
  import HeartbeatAccount

  datatype DbError = Conflict | Unavailable

  class Database {
    var rows: map<TaskKey, Row>

    constructor ()
      ensures rows == map[]
    {
      rows := map[];
    }

    method CreateTask(id: TaskKey, taskType: string, payload: string, now: int) returns (r: Result<(), DbError>)
      modifies this
      ensures r.Ok? ==>
        && id !in old(rows) && rows == old(rows)[id := NewRow(taskType, payload, now)]
        && rows[id].taskType == taskType && rows[id].payload == payload && rows[id].createdAt == now
        && rows[id].status == Pending && rows[id].result == None && rows[id].completedAt == None
      ensures r.Err? ==> rows == old(rows)
      ensures r == Err(Conflict) <==> id in old(rows)
    {
      var broken: bool := *;
      if id in rows {
        return Err(Conflict);
      }
      if broken {
        return Err(Unavailable);
      }
      rows := rows[id := NewRow(taskType, payload, now)];
      return Ok(());
    }

    method ListPendingTasks() returns (r: Result<seq<TaskKey>, DbError>)
      ensures r.Ok? ==> IsListing(rows, r.value)
    {
      var broken: bool := *;
      if broken {
        return Err(Unavailable);
      }
      var left := set id | id in rows && rows[id].status.Pending?;
      var ids: seq<TaskKey> := [];
      while left != {}
        invariant forall id :: id in left || id in ids <==> Claimable(rows, id)
        invariant forall id :: id in ids ==> id !in left
        invariant forall i, j :: 0 <= i < j < |ids| ==> ids[i] != ids[j]
        invariant forall i, j :: 0 <= i < j < |ids| ==> CreatedAt(rows, ids[i]) <= CreatedAt(rows, ids[j])
        invariant forall i, id :: 0 <= i < |ids| && id in left ==> CreatedAt(rows, ids[i]) <= CreatedAt(rows, id)
        decreases |left|
      {
        OldestExists(rows, left);
        var id :| id in left && IsOldest(rows, left, id);
        ids := ids + [id];
        left := left - {id};
      }
      return Ok(ids);
    }

    /** Compare and set: true for one caller only, as the row is no longer pending afterwards. */
    method ClaimTask(id: TaskKey) returns (r: Result<bool, DbError>)
      modifies this
      ensures r.Ok? ==> (r.value <==> id in old(rows) && old(rows)[id].status == Pending)
      ensures r == Ok(true) ==> rows == Claimed(old(rows), id) == old(rows)[id := old(rows)[id].(status := Running)]
      ensures r != Ok(true) ==> rows == old(rows)
    {
      var broken: bool := *;
      if broken {
        return Err(Unavailable);
      }
      var changed := 0;
      if id in rows && rows[id].status.Pending? {
        rows := rows[id := rows[id].(status := Running)];
        changed := 1;
      }
      return Ok(changed == 1);
    }

    method CompleteTask(id: TaskKey, text: string, now: int) returns (r: Result<(), DbError>)
      modifies this
      ensures r.Ok? ==> rows == CompletedRow(old(rows), id, text, now) && rows.Keys == old(rows.Keys)
      ensures r.Ok? && id in old(rows) ==>
        && rows[id].status == Completed && rows[id].result == Some(text) && rows[id].completedAt == Some(now)
        && rows[id].taskType == old(rows[id].taskType) && rows[id].payload == old(rows[id].payload)
        && rows[id].createdAt == old(rows[id].createdAt)
      ensures r.Ok? ==> forall x :: x in old(rows) && x != id ==> rows[x] == old(rows[x])
      ensures r.Err? ==> rows == old(rows)
    {
      var broken: bool := *;
      if broken {
        return Err(Unavailable);
      }
      if id in rows {
        rows := rows[id := rows[id].(status := Completed, result := Some(text), completedAt := Some(now))];
      }
      return Ok(());
    }
  }

  /** In plain terms: the pending tasks, each once, in the order in which they were created. */
  lemma ListingMeaning(rows: map<TaskKey, Row>, ids: seq<TaskKey>)
    ensures IsListing(rows, ids) <==>
      && (forall id :: id in ids <==> id in rows && rows[id].status == Pending)
      && forall i, j :: 0 <= i < j < |ids| ==>
           && ids[i] != ids[j] && ids[i] in rows && ids[j] in rows
           && rows[ids[i]].createdAt <= rows[ids[j]].createdAt
  {
    if IsListing(rows, ids) {
      forall i, j | 0 <= i < j < |ids|
        ensures ids[i] in rows && ids[j] in rows && rows[ids[i]].createdAt <= rows[ids[j]].createdAt
      {
        assert Claimable(rows, ids[i]) && Claimable(rows, ids[j]);
        assert CreatedAt(rows, ids[i]) <= CreatedAt(rows, ids[j]);
      }
    }
  }

  predicate IsOldest(rows: map<TaskKey, Row>, left: set<TaskKey>, id: TaskKey) {
    forall other :: other in left ==> CreatedAt(rows, id) <= CreatedAt(rows, other)
  }

  lemma {:induction false} OldestExists(rows: map<TaskKey, Row>, left: set<TaskKey>)
    requires left != {}
    ensures exists id :: id in left && IsOldest(rows, left, id)
    decreases |left|
  {
    var x :| x in left;
    if left == {x} {
      assert IsOldest(rows, left, x);
    } else {
      var rest := left - {x};
      OldestExists(rows, rest);
      var y :| y in rest && IsOldest(rows, rest, y);
      var oldest := if CreatedAt(rows, x) <= CreatedAt(rows, y) then x else y;
      assert IsOldest(rows, left, oldest);
    }
  }

  datatype PulseReceipt = PulseReceipt(tickId: nat, tasksScanned: nat, actionsDispatched: nat)

  class HeartbeatEngine {
    const db: Database
    var tickCounter: nat
    /** Where every pulse of the engine stands, this one and those interleaved with it. */
    var pulses: seq<Pulse>
    /** Every state the table and the pulses went through. */
    ghost var trace: seq<System>

    constructor (database: Database)
      requires database.rows == map[]
      ensures Valid() && db == database && tickCounter == 0
    {
      db := database;
      tickCounter := 0;
      pulses := [];
      trace := [EMPTY];
    }

    ghost predicate Valid()
      reads this, db
    {
      && IsRun(trace)
      && Now().rows == db.rows && Now().pulses == pulses
      && tickCounter == |pulses|
    }

    ghost function Now(): System
      reads this
      requires |trace| > 0
    {
      trace[|trace| - 1]
    }

    ghost method Advance(a: Action)
      requires IsRun(trace) && Enabled(Now(), a)
      modifies this`trace
      ensures IsRun(trace) && trace == old(trace) + [Next(old(Now()), a)]
    {
      assert Step(Now(), Next(Now(), a));
      trace := trace + [Next(Now(), a)];
    }

    /** Any number of steps of the environment, none of them a step of pulse `me`. */
    method Interfere(me: nat)
      requires Valid() && me < |pulses|
      modifies this, db
      ensures Valid() && old(trace) <= trace
      ensures me < |pulses| && pulses[me] == old(pulses)[me]
    {
      var more: bool := *;
      var steps: nat := *;
      while more && steps > 0
        invariant Valid() && old(trace) <= trace
        invariant me < |pulses| && pulses[me] == old(pulses)[me]
      {
        var a: Action := *;
        var s := System(db.rows, pulses, map[], {});
        if Enabled(s, a) && !OfPulse(a, me) {
          BookkeepingIsInert(Now(), s, a);
          OthersKeepOut(s, a, me);
          Advance(a);
          db.rows, pulses := Next(s, a).rows, Next(s, a).pulses;
          tickCounter := |pulses|;
        }
        more, steps := *, steps - 1;
      }
    }

    /** One pulse. Its steps and the interleaved ones form one run of the machine. */
    method PulseOnce() returns (receipt: PulseReceipt)
      requires Valid()
      modifies this, db
      ensures Valid() && old(trace) <= trace
      ensures receipt.tickId == old(tickCounter) + 1 <= tickCounter
      ensures pulses[receipt.tickId - 1] == Done(receipt.tasksScanned, receipt.actionsDispatched)
      ensures receipt.actionsDispatched <= receipt.tasksScanned
      ensures receipt.actionsDispatched == |HeartbeatAccount.TakenBy(trace, receipt.tickId - 1)|
      ensures receipt.tasksScanned == 0
        || exists j :: 0 <= j < |trace| && receipt.tasksScanned == |HeartbeatAccount.PendingIn(trace[j].rows)|
    {
      hide IsRun, IsListing, Enabled, Next;
      var me := DrawTick();
      Interfere(me);
      var pending := ListTasks(me);
      var actions := 0;
      for i := 0 to |pending|
        invariant Valid() && old(trace) <= trace
        invariant me < |pulses| && pulses[me] == Working(pending[i..], |pending|, actions)
        invariant actions <= i
      {
        Interfere(me);
        var claimed := ClaimNext(me);
        if claimed {
          Interfere(me);
          CompleteCurrent(me);
          actions := actions + 1;
        }
      }
      Interfere(me);
      receipt := WriteReceipt(me);
      HeartbeatAccount.FinishedPulseCounts(trace, me);
      HeartbeatAccount.ScannedArePending(trace, me);
    }

    method DrawTick() returns (me: nat)
      requires Valid()
      modifies this
      ensures Valid() && old(trace) <= trace
      ensures me == old(tickCounter) && tickCounter == me + 1 && pulses == old(pulses) + [Ticked]
    {
      me := tickCounter;
      tickCounter := tickCounter + 1;
      pulses := pulses + [Ticked];
      Advance(Tick);
    }

    /** A listing that fails counts as an empty one. */
    method ListTasks(me: nat) returns (pending: seq<TaskKey>)
      requires Valid() && me < |pulses| && pulses[me].Ticked?
      modifies this`pulses, this`trace
      ensures Valid() && old(trace) <= trace
      ensures pulses == old(pulses)[me := Working(pending, |pending|, 0)]
      ensures pending != [] ==> IsListing(db.rows, pending)
    {
      var listed := db.ListPendingTasks();
      pending := if listed.Ok? then listed.value else [];
      Advance(if listed.Ok? then List(me, pending) else ListFails(me));
      pulses := pulses[me := Working(pending, |pending|, 0)];
    }

    /** The head of the loop: claim the next listed task, or skip it. */
    method ClaimNext(me: nat) returns (claimed: bool)
      requires Valid() && me < |pulses| && pulses[me].Working? && pulses[me].todo != []
      modifies this`pulses, this`trace, db
      ensures Valid() && old(trace) <= trace && |pulses| == |old(pulses)|
      ensures var q := old(pulses)[me];
        pulses[me] == if claimed then Executing(q.todo[0], q.todo[1..], q.scanned, q.actions)
                      else Working(q.todo[1..], q.scanned, q.actions)
    {
      var q := pulses[me];
      var r := db.ClaimTask(q.todo[0]);
      claimed := r == Ok(true);
      Advance(if r.Ok? then Claim(me) else ClaimFails(me));
      pulses := pulses[me := if claimed then Executing(q.todo[0], q.todo[1..], q.scanned, q.actions)
                             else Working(q.todo[1..], q.scanned, q.actions)];
    }

    /** The end of a body: whatever it said is written, and a failed write is only logged. */
    method CompleteCurrent(me: nat)
      requires Valid() && me < |pulses| && pulses[me].Executing?
      modifies this`pulses, this`trace, db
      ensures Valid() && old(trace) <= trace && |pulses| == |old(pulses)|
      ensures var q := old(pulses)[me]; pulses[me] == Working(q.todo, q.scanned, q.actions + 1)
    {
      var q := pulses[me];
      var text: string, now: int := *, *;
      var r := db.CompleteTask(q.task, text, now);
      Advance(if r.Ok? then Complete(me, text, now) else CompleteFails(me));
      pulses := pulses[me := Working(q.todo, q.scanned, q.actions + 1)];
    }

    method WriteReceipt(me: nat) returns (receipt: PulseReceipt)
      requires Valid() && me < |pulses| && pulses[me].Working? && pulses[me].todo == []
      modifies this`pulses, this`trace
      ensures Valid() && old(trace) <= trace
      ensures receipt == PulseReceipt(me + 1, old(pulses)[me].scanned, old(pulses)[me].actions)
      ensures pulses == old(pulses)[me := Done(receipt.tasksScanned, receipt.actionsDispatched)]
    {
      var q := pulses[me];
      Advance(Finish(me));
      pulses := pulses[me := Done(q.scanned, q.actions)];
      receipt := PulseReceipt(me + 1, q.scanned, q.actions);
    }
  }

  lemma OthersKeepOut(s: System, a: Action, me: nat)
    requires Enabled(s, a) && me < |s.pulses| && !OfPulse(a, me)
    ensures me < |Next(s, a).pulses| && Next(s, a).pulses[me] == s.pulses[me]
  {
  }

  /** What a step does to the table and the pulses does not depend on the bookkeeping. */
  lemma BookkeepingIsInert(s: System, t: System, a: Action)
    requires s.rows == t.rows && s.pulses == t.pulses && Enabled(t, a)
    ensures Enabled(s, a)
    ensures Next(s, a).rows == Next(t, a).rows && Next(s, a).pulses == Next(t, a).pulses
  {
  }
}
