/**
 Overlapping heartbeat pulses over one task table, as interleaved steps of any
 number of pulses. The only synchronisation is the claim, which moves a row
 from pending to running if it is still pending.
 */
module HeartbeatMachine {
  import opened Wrappers

  type TaskKey = string

  datatype Status = Pending | Running | Completed

  datatype Row = Row(
    taskType: string, payload: string, status: Status, result: Option<string>,
    createdAt: int, completedAt: Option<int>)

  /** Progress of one pulse. `scanned` and `actions` are what its receipt will say. */
  datatype Pulse =
    | Ticked
    | Working(todo: seq<TaskKey>, scanned: nat, actions: nat)
    | Executing(task: TaskKey, todo: seq<TaskKey>, scanned: nat, actions: nat)
    | Done(scanned: nat, actions: nat)

  /** Pulse `i` is the one that drew tick `i + 1`. `runs` counts how often each
      task's body was started; `lost` are tasks whose completion failed to be written. */
  datatype System = System(
    rows: map<TaskKey, Row>,
    pulses: seq<Pulse>,
    runs: map<TaskKey, nat>,
    lost: set<TaskKey>)

  const EMPTY := System(map[], [], map[], {})

  datatype Action =
    | Create(id: TaskKey, taskType: string, payload: string, now: int)
    | Tick
    | List(pulse: nat, ids: seq<TaskKey>)
    | ListFails(pulse: nat)
    | Claim(pulse: nat)
    | ClaimFails(pulse: nat)
    | Complete(pulse: nat, text: string, now: int)
    | CompleteFails(pulse: nat)
    | Finish(pulse: nat)

  function CreatedAt(rows: map<TaskKey, Row>, id: TaskKey): int {
    if id in rows then rows[id].createdAt else 0
  }

  /** What listing returns: every pending task once, oldest first. */
  predicate IsListing(rows: map<TaskKey, Row>, ids: seq<TaskKey>) {
    && (forall id :: id in ids ==> Claimable(rows, id))
    && (forall id :: id in rows && rows[id].status.Pending? ==> id in ids)
    && (forall i, j :: 0 <= i < j < |ids| ==> ids[i] != ids[j])
    && (forall i, j :: 0 <= i < j < |ids| ==> CreatedAt(rows, ids[i]) <= CreatedAt(rows, ids[j]))
  }

  predicate Enabled(s: System, a: Action) {
    match a
    case Create(id, _, _, _) => id !in s.rows
    case Tick => true
    case List(k, ids) => k < |s.pulses| && s.pulses[k].Ticked? && IsListing(s.rows, ids)
    case ListFails(k) => k < |s.pulses| && s.pulses[k].Ticked?
    case Claim(k) => k < |s.pulses| && s.pulses[k].Working? && s.pulses[k].todo != []
    case ClaimFails(k) => k < |s.pulses| && s.pulses[k].Working? && s.pulses[k].todo != []
    case Complete(k, _, _) => k < |s.pulses| && s.pulses[k].Executing?
    case CompleteFails(k) => k < |s.pulses| && s.pulses[k].Executing?
    case Finish(k) => k < |s.pulses| && s.pulses[k].Working? && s.pulses[k].todo == []
  }

  function NewRow(taskType: string, payload: string, now: int): Row {
    Row(taskType, payload, Pending, None, now, None)
  }

  /** The claim succeeds only on a row that is still pending. */
  predicate Claimable(rows: map<TaskKey, Row>, id: TaskKey) {
    id in rows && rows[id].status.Pending?
  }

  function Claimed(rows: map<TaskKey, Row>, id: TaskKey): map<TaskKey, Row>
    requires id in rows
  {
    rows[id := rows[id].(status := Running)]
  }

  /** Completion does not look at the status it overwrites. */
  function CompletedRow(rows: map<TaskKey, Row>, id: TaskKey, text: string, now: int): map<TaskKey, Row> {
    if id in rows then
      rows[id := rows[id].(status := Completed, result := Some(text), completedAt := Some(now))]
    else
      rows
  }

  function RunsOf(runs: map<TaskKey, nat>, id: TaskKey): nat {
    if id in runs then runs[id] else 0
  }

  function Next(s: System, a: Action): System
    requires Enabled(s, a)
  {
    match a
    case Create(id, t, payload, now) => s.(rows := s.rows[id := NewRow(t, payload, now)])
    case Tick => s.(pulses := s.pulses + [Ticked])
    case List(k, ids) => s.(pulses := s.pulses[k := Working(ids, |ids|, 0)])
    case ListFails(k) => s.(pulses := s.pulses[k := Working([], 0, 0)])
    case Claim(k) =>
      var q := s.pulses[k];
      var id := q.todo[0];
      if Claimable(s.rows, id) then
        s.(rows := Claimed(s.rows, id),
           pulses := s.pulses[k := Executing(id, q.todo[1..], q.scanned, q.actions)],
           runs := s.runs[id := RunsOf(s.runs, id) + 1])
      else
        s.(pulses := s.pulses[k := Working(q.todo[1..], q.scanned, q.actions)])
    case ClaimFails(k) =>
      var q := s.pulses[k];
      s.(pulses := s.pulses[k := Working(q.todo[1..], q.scanned, q.actions)])
    case Complete(k, text, now) =>
      var q := s.pulses[k];
      s.(rows := CompletedRow(s.rows, q.task, text, now),
         pulses := s.pulses[k := Working(q.todo, q.scanned, q.actions + 1)])
    case CompleteFails(k) =>
      var q := s.pulses[k];
      s.(lost := s.lost + {q.task}, pulses := s.pulses[k := Working(q.todo, q.scanned, q.actions + 1)])
    case Finish(k) =>
      s.(pulses := s.pulses[k := Done(s.pulses[k].scanned, s.pulses[k].actions)])
  }

  /** The step is one of pulse `k`. */
  predicate OfPulse(a: Action, k: nat) {
    !a.Create? && !a.Tick? && a.pulse == k
  }

  ghost predicate Step(s: System, t: System) {
    exists a :: Enabled(s, a) && t == Next(s, a)
  }

  ghost predicate IsRun(tr: seq<System>) {
    && |tr| > 0 && tr[0] == EMPTY
    && forall i :: 0 <= i < |tr| - 1 ==> Step(tr[i], tr[i + 1])
  }

  // ---------------------------------------------------------------------
  // Invariant
  // ---------------------------------------------------------------------

  ghost predicate IsExecuting(s: System, k: int, id: TaskKey) {
    0 <= k < |s.pulses| && s.pulses[k].Executing? && s.pulses[k].task == id
  }

  /** A body has been started exactly once for every task that left Pending. */
  ghost predicate OnceEach(s: System) {
    && (forall id :: id in s.rows ==> RunsOf(s.runs, id) == if s.rows[id].status.Pending? then 0 else 1)
    && (forall id :: id in s.runs ==> id in s.rows)
  }

  /** Some pulse is running the task's body. */
  ghost predicate HasRunner(s: System, id: TaskKey) {
    exists k :: IsExecuting(s, k, id)
  }

  ghost predicate RowRunning(s: System, id: TaskKey) {
    id in s.rows && s.rows[id].status.Running?
  }

  /** Running rows are being executed by exactly one pulse, or lost their completion. */
  ghost predicate Owned(s: System) {
    && (forall k, id :: IsExecuting(s, k, id) ==> RowRunning(s, id) && id !in s.lost)
    && (forall j, k, id :: IsExecuting(s, j, id) && IsExecuting(s, k, id) ==> j == k)
    && (forall id :: id in s.lost ==> RowRunning(s, id))
    && (forall id :: RowRunning(s, id) && id !in s.lost ==> HasRunner(s, id))
  }

  function Claims(q: Pulse): nat {
    match q
    case Ticked => 0
    case Working(_, _, n) => n
    case Executing(_, _, _, n) => n + 1
    case Done(_, n) => n
  }

  function Left(q: Pulse): nat {
    match q
    case Working(todo, _, _) => |todo|
    case Executing(_, todo, _, _) => |todo|
    case _ => 0
  }

  function Scanned(q: Pulse): nat {
    if q.Ticked? then 0 else q.scanned
  }

  /** A pulse never claims more than it scanned. */
  ghost predicate Bounded(s: System) {
    forall k :: 0 <= k < |s.pulses| ==> Claims(s.pulses[k]) + Left(s.pulses[k]) <= Scanned(s.pulses[k])
  }

  function TotalClaims(pulses: seq<Pulse>): nat {
    if pulses == [] then 0 else TotalClaims(pulses[..|pulses| - 1]) + Claims(pulses[|pulses| - 1])
  }

  ghost function Taken(rows: map<TaskKey, Row>): set<TaskKey> {
    set id | id in rows && !rows[id].status.Pending?
  }

  /** All claims of all pulses together are the tasks that left Pending. */
  ghost predicate Conserved(s: System) {
    TotalClaims(s.pulses) == |Taken(s.rows)|
  }

  ghost predicate Inv(s: System) {
    OnceEach(s) && Owned(s) && Bounded(s) && Conserved(s)
  }

  lemma {:induction false} TotalPoint(pulses: seq<Pulse>, k: nat, q: Pulse)
    requires k < |pulses|
    ensures TotalClaims(pulses[k := q]) + Claims(pulses[k]) == TotalClaims(pulses) + Claims(q)
    decreases |pulses|
  {
    var n := |pulses| - 1;
    if k == n {
      assert pulses[k := q][..n] == pulses[..n];
    } else {
      assert pulses[k := q][..n] == pulses[..n][k := q];
      TotalPoint(pulses[..n], k, q);
    }
  }

  lemma OnceEachKept(s: System, a: Action)
    requires OnceEach(s) && Owned(s) && Enabled(s, a)
    ensures OnceEach(Next(s, a))
  {
    if a.Complete? {
      assert IsExecuting(s, a.pulse, s.pulses[a.pulse].task);
    }
  }

  /** A step of one pulse leaves the other pulses' work alone. */
  lemma ExecutingElsewhere(s: System, t: System, k: nat)
    requires k < |s.pulses| == |t.pulses| && t.pulses == s.pulses[k := t.pulses[k]]
    ensures forall j, id :: j != k ==> (IsExecuting(t, j, id) <==> IsExecuting(s, j, id))
  {
  }

  /** Steps that neither start nor end a body. */
  lemma OwnedIfSameWork(s: System, t: System)
    requires Owned(s) && t.lost == s.lost
    requires forall id :: RowRunning(t, id) <==> RowRunning(s, id)
    requires forall k, id :: IsExecuting(t, k, id) <==> IsExecuting(s, k, id)
    ensures Owned(t)
  {
    forall id | RowRunning(t, id) && id !in t.lost ensures HasRunner(t, id) {
      var k :| IsExecuting(s, k, id);
      assert IsExecuting(t, k, id);
    }
  }

  /** A claim that succeeds: the row starts running together with its runner. */
  lemma OwnedAfterStart(s: System, t: System, k: nat, id: TaskKey)
    requires Owned(s) && t.lost == s.lost && !RowRunning(s, id)
    requires forall other :: RowRunning(t, other) <==> RowRunning(s, other) || other == id
    requires k < |s.pulses| && !s.pulses[k].Executing? && IsExecuting(t, k, id)
    requires forall j, other :: j != k ==> (IsExecuting(t, j, other) <==> IsExecuting(s, j, other))
    ensures Owned(t)
  {
    forall other | RowRunning(t, other) && other !in t.lost ensures HasRunner(t, other) {
      if other != id {
        var j :| IsExecuting(s, j, other);
        assert IsExecuting(t, j, other);
      }
    }
  }

  /** The end of a body: its row is completed, or stays running and is lost. */
  lemma OwnedAfterEnd(s: System, t: System, k: nat, id: TaskKey)
    requires Owned(s) && IsExecuting(s, k, id)
    requires k < |t.pulses| && !t.pulses[k].Executing?
    requires forall j, other :: j != k ==> (IsExecuting(t, j, other) <==> IsExecuting(s, j, other))
    requires forall other :: other != id ==> (RowRunning(t, other) <==> RowRunning(s, other))
    requires (t.lost == s.lost && !RowRunning(t, id)) || (t.lost == s.lost + {id} && RowRunning(t, id))
    ensures Owned(t)
  {
    forall other | RowRunning(t, other) && other !in t.lost ensures HasRunner(t, other) {
      var j :| IsExecuting(s, j, other);
      assert IsExecuting(t, j, other);
    }
  }

  lemma OwnedKept(s: System, a: Action)
    requires Owned(s) && Enabled(s, a)
    ensures Owned(Next(s, a))
  {
    hide Owned;
    var t := Next(s, a);
    match a
    case Create(_, _, _, _) => OwnedIfSameWork(s, t);
    case Tick => OwnedIfSameWork(s, t);
    case Claim(k) =>
      ExecutingElsewhere(s, t, k);
      var id := s.pulses[k].todo[0];
      if Claimable(s.rows, id) {
        OwnedAfterStart(s, t, k, id);
      } else {
        OwnedIfSameWork(s, t);
      }
    case Complete(k, _, _) =>
      ExecutingElsewhere(s, t, k);
      OwnedAfterEnd(s, t, k, s.pulses[k].task);
    case CompleteFails(k) =>
      ExecutingElsewhere(s, t, k);
      ExecutingIsRunning(s, k, s.pulses[k].task);
      OwnedAfterEnd(s, t, k, s.pulses[k].task);
    case _ =>
      ExecutingElsewhere(s, t, a.pulse);
      OwnedIfSameWork(s, t);
  }

  lemma ExecutingIsRunning(s: System, k: nat, id: TaskKey)
    requires Owned(s) && IsExecuting(s, k, id)
    ensures RowRunning(s, id)
  {
  }

  lemma BoundedKept(s: System, a: Action)
    requires Bounded(s) && Enabled(s, a)
    ensures Bounded(Next(s, a))
  {
  }

  /** Counting: one pulse gains as many claims as there are tasks newly taken. */
  lemma ConservedAfter(s: System, t: System, k: nat, gain: set<TaskKey>)
    requires Conserved(s) && k < |s.pulses| == |t.pulses| && t.pulses == s.pulses[k := t.pulses[k]]
    requires Claims(t.pulses[k]) == Claims(s.pulses[k]) + |gain|
    requires gain !! Taken(s.rows) && Taken(t.rows) == Taken(s.rows) + gain
    ensures Conserved(t)
  {
    TotalPoint(s.pulses, k, t.pulses[k]);
  }

  lemma ConservedIfIdle(s: System, t: System, k: nat)
    requires Conserved(s) && k < |s.pulses| == |t.pulses| && t.pulses == s.pulses[k := t.pulses[k]]
    requires Claims(t.pulses[k]) == Claims(s.pulses[k]) && Taken(t.rows) == Taken(s.rows)
    ensures Conserved(t)
  {
    TotalPoint(s.pulses, k, t.pulses[k]);
  }

  lemma ConservedOnArrival(s: System, a: Action)
    requires Conserved(s) && Enabled(s, a) && (a.Create? || a.Tick?)
    ensures Conserved(Next(s, a))
  {
    assert Taken(Next(s, a).rows) == Taken(s.rows);
    TotalAppend(s.pulses, Ticked);
  }

  lemma ConservedKept(s: System, a: Action)
    requires Owned(s) && Conserved(s) && Enabled(s, a)
    ensures Conserved(Next(s, a))
  {
    hide Owned, Conserved, Taken, TotalClaims;
    var t := Next(s, a);
    match a
    case Create(_, _, _, _) => ConservedOnArrival(s, a);
    case Tick => ConservedOnArrival(s, a);
    case Claim(k) =>
      var id := s.pulses[k].todo[0];
      if Claimable(s.rows, id) {
        ClaimTakesOne(s.rows, id);
        ConservedAfter(s, t, k, {id});
      } else {
        ConservedIfIdle(s, t, k);
      }
    case Complete(k, text, now) =>
      ExecutingIsRunning(s, k, s.pulses[k].task);
      CompletionTakesNone(s.rows, s.pulses[k].task, text, now);
      ConservedIfIdle(s, t, k);
    case _ => ConservedIfIdle(s, t, a.pulse);
  }

  lemma TotalAppend(pulses: seq<Pulse>, q: Pulse)
    ensures TotalClaims(pulses + [q]) == TotalClaims(pulses) + Claims(q)
  {
    assert (pulses + [q])[..|pulses|] == pulses;
  }

  lemma ClaimTakesOne(rows: map<TaskKey, Row>, id: TaskKey)
    requires Claimable(rows, id)
    ensures id !in Taken(rows) && Taken(Claimed(rows, id)) == Taken(rows) + {id}
  {
  }

  lemma CompletionTakesNone(rows: map<TaskKey, Row>, id: TaskKey, text: string, now: int)
    requires id in rows && rows[id].status.Running?
    ensures Taken(CompletedRow(rows, id, text, now)) == Taken(rows)
  {
  }

  lemma StepInv(s: System, t: System)
    requires Inv(s) && Step(s, t)
    ensures Inv(t)
  {
    var a :| Enabled(s, a) && t == Next(s, a);
    OnceEachKept(s, a);
    OwnedKept(s, a);
    BoundedKept(s, a);
    ConservedKept(s, a);
  }

  lemma {:induction false} AlwaysInv(tr: seq<System>, i: nat)
    requires IsRun(tr) && i < |tr|
    ensures Inv(tr[i])
  {
    if i > 0 {
      AlwaysInv(tr, i - 1);
      assert Step(tr[i - 1], tr[i - 1 + 1]);
      StepInv(tr[i - 1], tr[i]);
    } else {
      assert Taken(EMPTY.rows) == {};
    }
  }

  // ---------------------------------------------------------------------
  // What every run guarantees
  // ---------------------------------------------------------------------

  /** In every run each task's body is started at most once, exactly once as soon as it left Pending. */
  lemma AtMostOnce(tr: seq<System>, i: nat, id: TaskKey)
    requires IsRun(tr) && i < |tr|
    ensures RunsOf(tr[i].runs, id) <= 1
    ensures id in tr[i].rows ==> (RunsOf(tr[i].runs, id) == 1 <==> !tr[i].rows[id].status.Pending?)
  {
    AlwaysInv(tr, i);
  }

  function Order(st: Status): nat {
    match st case Pending => 0 case Running => 1 case Completed => 2
  }

  /** Rows are never dropped or renamed, and their status only moves forward. */
  ghost predicate Forward(s: System, t: System) {
    forall id :: id in s.rows ==>
      && id in t.rows && t.rows[id].taskType == s.rows[id].taskType && t.rows[id].payload == s.rows[id].payload
      && t.rows[id].createdAt == s.rows[id].createdAt
      && Order(s.rows[id].status) <= Order(t.rows[id].status)
      && (s.rows[id].status.Completed? ==> t.rows[id] == s.rows[id])
  }

  lemma StepForward(s: System, t: System)
    requires Owned(s) && Step(s, t)
    ensures Forward(s, t)
  {
    hide Owned;
    var a :| Enabled(s, a) && t == Next(s, a);
    if a.Complete? {
      ExecutingIsRunning(s, a.pulse, s.pulses[a.pulse].task);
    }
  }

  lemma ForwardRefl(s: System)
    ensures Forward(s, s)
  {
  }

  lemma ForwardTrans(s: System, t: System, u: System)
    requires Forward(s, t) && Forward(t, u)
    ensures Forward(s, u)
  {
    forall id | id in s.rows
      ensures id in u.rows && u.rows[id].taskType == s.rows[id].taskType && u.rows[id].payload == s.rows[id].payload
      ensures u.rows[id].createdAt == s.rows[id].createdAt
      ensures Order(s.rows[id].status) <= Order(u.rows[id].status)
      ensures s.rows[id].status.Completed? ==> u.rows[id] == s.rows[id]
    {
      assert id in t.rows;
    }
  }

  lemma NextForward(tr: seq<System>, i: nat)
    requires IsRun(tr) && i + 1 < |tr|
    ensures Forward(tr[i], tr[i + 1])
  {
    hide Owned, OnceEach, Bounded, Conserved, Forward, Step;
    AlwaysInv(tr, i);
    assert Step(tr[i], tr[i + 1]);
    StepForward(tr[i], tr[i + 1]);
  }

  lemma {:induction false} StatusMovesForward(tr: seq<System>, i: nat, j: nat)
    requires IsRun(tr) && i <= j < |tr|
    ensures Forward(tr[i], tr[j])
    decreases j
  {
    hide IsRun, Forward;
    if i == j {
      ForwardRefl(tr[i]);
    } else {
      StatusMovesForward(tr, i, j - 1);
      NextForward(tr, j - 1);
      ForwardTrans(tr[i], tr[j - 1], tr[j]);
    }
  }

  /** Of every finished pulse the actions are at most the tasks scanned. */
  lemma FinishedPulseIsBounded(tr: seq<System>, i: nat, k: nat)
    requires IsRun(tr) && i < |tr| && k < |tr[i].pulses| && tr[i].pulses[k].Done?
    ensures tr[i].pulses[k].actions <= tr[i].pulses[k].scanned
  {
    AlwaysInv(tr, i);
    hide Owned, OnceEach, Conserved;
    var q := tr[i].pulses[k];
    assert Claims(q) + Left(q) <= Scanned(q);
  }

  /** A row has a result and a completion time exactly if it is completed. */
  predicate RowShape(row: Row) {
    (row.status.Completed? <==> row.result.Some?) && (row.status.Completed? <==> row.completedAt.Some?)
  }

  lemma StepShapes(s: System, t: System)
    requires Step(s, t) && forall id :: id in s.rows ==> RowShape(s.rows[id])
    ensures forall id :: id in t.rows ==> RowShape(t.rows[id])
  {
  }

  lemma {:induction false} AlwaysShaped(tr: seq<System>, i: nat)
    requires IsRun(tr) && i < |tr|
    ensures forall id :: id in tr[i].rows ==> RowShape(tr[i].rows[id])
  {
    if i > 0 {
      AlwaysShaped(tr, i - 1);
      assert Step(tr[i - 1], tr[i - 1 + 1]);
      StepShapes(tr[i - 1], tr[i]);
    }
  }
}
