/**
 Who did which work: the tasks a pulse took along a run, and what the action
 counts of pulses say about them at any moment.
 */
module HeartbeatAccount {
  import opened HeartbeatMachine

  function Now(tr: seq<System>): System
    requires |tr| > 0
  {
    tr[|tr| - 1]
  }

  ghost function AtWork(s: System, k: nat): set<TaskKey> {
    if k < |s.pulses| && s.pulses[k].Executing? then {s.pulses[k].task} else {}
  }

  /** The tasks whose body pulse `k` was running at some moment of `tr`. */
  ghost function TakenBy(tr: seq<System>, k: nat): set<TaskKey> {
    if tr == [] then {} else TakenBy(tr[..|tr| - 1], k) + AtWork(Now(tr), k)
  }

  lemma {:induction false} TakenByMeaning(tr: seq<System>, k: nat, id: TaskKey)
    ensures id in TakenBy(tr, k) <==> exists i :: 0 <= i < |tr| && IsExecuting(tr[i], k, id)
  {
    if tr != [] {
      var n := |tr| - 1;
      TakenByMeaning(tr[..n], k, id);
      if id in TakenBy(tr[..n], k) {
        var i :| 0 <= i < n && IsExecuting(tr[..n][i], k, id);
        assert IsExecuting(tr[i], k, id);
      }
      if id in AtWork(tr[n], k) {
        assert IsExecuting(tr[n], k, id);
      }
      forall i | 0 <= i < |tr| && IsExecuting(tr[i], k, id) ensures id in TakenBy(tr, k) {
        if i < n {
          assert IsExecuting(tr[..n][i], k, id);
        }
      }
    }
  }

  // ---------------------------------------------------------------------
  // Every claim is one task, and no task is taken twice
  // ---------------------------------------------------------------------

  ghost predicate Gone(s: System, id: TaskKey) {
    id in s.rows && !s.rows[id].status.Pending?
  }

  ghost predicate AllGone(tr: seq<System>)
    requires |tr| > 0
  {
    forall k: nat, id :: id in TakenBy(tr, k) ==> Gone(Now(tr), id)
  }

  ghost predicate Counted(tr: seq<System>)
    requires |tr| > 0
  {
    forall k: nat :: |TakenBy(tr, k)| == if k < |Now(tr).pulses| then Claims(Now(tr).pulses[k]) else 0
  }

  ghost predicate NoneShared(tr: seq<System>) {
    forall j: nat, k: nat, id :: id in TakenBy(tr, j) && id in TakenBy(tr, k) ==> j == k
  }

  ghost predicate Accounts(tr: seq<System>)
    requires |tr| > 0
  {
    AllGone(tr) && Counted(tr) && NoneShared(tr)
  }

  lemma {:induction false} AtWorkIsTaken(tr: seq<System>, k: nat)
    requires |tr| > 0
    ensures AtWork(Now(tr), k) <= TakenBy(tr, k)
  {
  }

  /** What a step changes for pulse `k`: nothing, or one task that was still pending. */
  lemma TakenStep(tr: seq<System>, a: Action, k: nat)
    requires |tr| > 0 && Enabled(Now(tr), a)
    ensures var s := Now(tr); var more := tr + [Next(s, a)];
      if a.Claim? && a.pulse == k && Claimable(s.rows, s.pulses[k].todo[0])
      then TakenBy(more, k) == TakenBy(tr, k) + {s.pulses[k].todo[0]}
      else TakenBy(more, k) == TakenBy(tr, k)
  {
    var more := tr + [Next(Now(tr), a)];
    assert more[..|more| - 1] == tr;
    AtWorkIsTaken(tr, k);
  }

  lemma AllGoneKept(tr: seq<System>, a: Action)
    requires |tr| > 0 && Owned(Now(tr)) && AllGone(tr) && Enabled(Now(tr), a)
    ensures AllGone(tr + [Next(Now(tr), a)])
  {
    hide Owned, TakenBy;
    var s, t := Now(tr), Next(Now(tr), a);
    assert Step(s, t);
    StepForward(s, t);
    hide Enabled;
    forall k: nat, id | id in TakenBy(tr + [t], k) ensures Gone(t, id) {
      TakenStep(tr, a, k);
      if id in TakenBy(tr, k) {
        assert Gone(s, id);
      }
    }
  }

  /** Whatever is claimed now was pending, so nobody took it before. */
  lemma ClaimIsNew(tr: seq<System>, id: TaskKey, k: nat)
    requires |tr| > 0 && AllGone(tr) && Claimable(Now(tr).rows, id)
    ensures id !in TakenBy(tr, k)
  {
    assert id in TakenBy(tr, k) ==> Gone(Now(tr), id);
  }

  lemma CountedKept(tr: seq<System>, a: Action)
    requires |tr| > 0 && AllGone(tr) && Counted(tr) && Enabled(Now(tr), a)
    ensures Counted(tr + [Next(Now(tr), a)])
  {
    hide TakenBy;
    var s, t := Now(tr), Next(Now(tr), a);
    forall k: nat
      ensures |TakenBy(tr + [t], k)| == if k < |t.pulses| then Claims(t.pulses[k]) else 0
    {
      TakenStep(tr, a, k);
      ClaimsStep(s, a, k);
      if a.Claim? && Claimable(s.rows, s.pulses[a.pulse].todo[0]) {
        ClaimIsNew(tr, s.pulses[a.pulse].todo[0], k);
      }
    }
  }

  lemma ClaimsStep(s: System, a: Action, k: nat)
    requires Enabled(s, a)
    ensures var t := Next(s, a);
      (if k < |t.pulses| then Claims(t.pulses[k]) else 0) ==
        (if k < |s.pulses| then Claims(s.pulses[k]) else 0)
        + if a.Claim? && a.pulse == k && Claimable(s.rows, s.pulses[k].todo[0]) then 1 else 0
  {
  }

  lemma NoneSharedKept(tr: seq<System>, a: Action)
    requires |tr| > 0 && AllGone(tr) && NoneShared(tr) && Enabled(Now(tr), a)
    ensures NoneShared(tr + [Next(Now(tr), a)])
  {
    hide TakenBy, Next;
    var s, t := Now(tr), Next(Now(tr), a);
    forall j: nat, k: nat, id | id in TakenBy(tr + [t], j) && id in TakenBy(tr + [t], k) ensures j == k {
      TakenStep(tr, a, j);
      TakenStep(tr, a, k);
      if a.Claim? && Claimable(s.rows, s.pulses[a.pulse].todo[0]) {
        ClaimIsNew(tr, s.pulses[a.pulse].todo[0], j);
        ClaimIsNew(tr, s.pulses[a.pulse].todo[0], k);
      }
    }
  }

  lemma RunPrefix(tr: seq<System>)
    requires IsRun(tr) && |tr| > 1
    ensures IsRun(tr[..|tr| - 1])
  {
    var before := tr[..|tr| - 1];
    forall i | 0 <= i < |before| - 1 ensures Step(before[i], before[i + 1]) {
      assert Step(tr[i], tr[i + 1]);
    }
  }

  lemma {:induction false} AlwaysAccounts(tr: seq<System>)
    requires IsRun(tr)
    ensures Accounts(tr)
  {
    if |tr| > 1 {
      var before := tr[..|tr| - 1];
      RunPrefix(tr);
      AlwaysAccounts(before);
      AlwaysInv(tr, |tr| - 2);
      assert Step(tr[|tr| - 2], tr[|tr| - 2 + 1]);
      var a :| Enabled(Now(before), a) && Now(tr) == Next(Now(before), a);
      assert tr == before + [Now(tr)];
      hide IsRun, Enabled, Next, AllGone, Counted, NoneShared;
      AllGoneKept(before, a);
      CountedKept(before, a);
      NoneSharedKept(before, a);
    } else {
      assert forall k: nat :: TakenBy(tr, k) == TakenBy([], k) + AtWork(EMPTY, k) == {};
    }
  }

  // ---------------------------------------------------------------------
  // The counts
  // ---------------------------------------------------------------------

  /** At any moment of any run: the actions of a finished pulse are the number of tasks it took. */
  lemma FinishedPulseCounts(tr: seq<System>, k: nat)
    requires IsRun(tr) && k < |Now(tr).pulses| && Now(tr).pulses[k].Done?
    ensures Now(tr).pulses[k].actions == |TakenBy(tr, k)|
  {
    AlwaysAccounts(tr);
    assert Claims(Now(tr).pulses[k]) == |TakenBy(tr, k)|;
  }

  /** No two pulses ever take the same task, whatever has become of them. */
  lemma NoTaskTakenTwice(tr: seq<System>, j: nat, k: nat)
    requires IsRun(tr) && j != k
    ensures TakenBy(tr, j) !! TakenBy(tr, k)
  {
    AlwaysAccounts(tr);
  }

  /** The tasks taken by those of the first `n` pulses that have finished. */
  ghost function FinishedWork(tr: seq<System>, n: nat): set<TaskKey>
    requires |tr| > 0 && n <= |Now(tr).pulses|
  {
    if n == 0 then {}
    else FinishedWork(tr, n - 1) + if Now(tr).pulses[n - 1].Done? then TakenBy(tr, n - 1) else {}
  }

  lemma {:induction false} FinishedWorkMeaning(tr: seq<System>, n: nat, id: TaskKey)
    requires |tr| > 0 && n <= |Now(tr).pulses|
    ensures id in FinishedWork(tr, n) <==> exists k: nat :: k < n && Now(tr).pulses[k].Done? && id in TakenBy(tr, k)
  {
    if n > 0 {
      FinishedWorkMeaning(tr, n - 1, id);
    }
  }

  /** The actions of the pulses that have finished, added up. */
  function SumOfActions(pulses: seq<Pulse>): nat {
    if pulses == [] then 0
    else
      var q := pulses[|pulses| - 1];
      SumOfActions(pulses[..|pulses| - 1]) + if q.Done? then q.actions else 0
  }

  lemma {:induction false} FinishedWorkApart(tr: seq<System>, n: nat, k: nat)
    requires IsRun(tr) && n <= |Now(tr).pulses| && n <= k
    ensures FinishedWork(tr, n) !! TakenBy(tr, k)
  {
    if n > 0 {
      FinishedWorkApart(tr, n - 1, k);
      NoTaskTakenTwice(tr, n - 1, k);
    }
  }

  lemma {:induction false} FinishedWorkAddsUp(tr: seq<System>, n: nat)
    requires IsRun(tr) && n <= |Now(tr).pulses|
    ensures |FinishedWork(tr, n)| == SumOfActions(Now(tr).pulses[..n])
  {
    if n > 0 {
      hide IsRun, TakenBy;
      var pulses := Now(tr).pulses;
      FinishedWorkAddsUp(tr, n - 1);
      assert pulses[..n][..n - 1] == pulses[..n - 1];
      if pulses[n - 1].Done? {
        FinishedPulseCounts(tr, n - 1);
        FinishedWorkApart(tr, n - 1, n - 1);
      }
    }
  }

  /** At any moment of any run, with other pulses still at work or not: the actions of the
      finished pulses add up to the number of tasks these pulses took. */
  lemma FinishedPulsesAccount(tr: seq<System>)
    requires IsRun(tr)
    ensures SumOfActions(Now(tr).pulses) == |FinishedWork(tr, |Now(tr).pulses|)|
    ensures forall id :: id in FinishedWork(tr, |Now(tr).pulses|) ==> Gone(Now(tr), id)
  {
    var n := |Now(tr).pulses|;
    FinishedWorkAddsUp(tr, n);
    assert Now(tr).pulses[..n] == Now(tr).pulses;
    AlwaysAccounts(tr);
    forall id | id in FinishedWork(tr, n) ensures Gone(Now(tr), id) {
      FinishedWorkMeaning(tr, n, id);
    }
  }

  ghost predicate AllDone(s: System) {
    forall k :: 0 <= k < |s.pulses| ==> s.pulses[k].Done?
  }

  /** Once all pulses are done nothing is missing: their work is every task that left
      pending, and a task is left running exactly if writing its completion failed. */
  lemma AllDoneAccount(tr: seq<System>)
    requires IsRun(tr) && AllDone(Now(tr))
    ensures SumOfActions(Now(tr).pulses) == |Taken(Now(tr).rows)|
    ensures forall id :: RowRunning(Now(tr), id) <==> id in Now(tr).lost
  {
    AlwaysInv(tr, |tr| - 1);
    ActionsAreClaims(Now(tr).pulses);
    forall id ensures !HasRunner(Now(tr), id) {
      NobodyRuns(Now(tr), id);
    }
  }

  lemma NobodyRuns(s: System, id: TaskKey)
    requires AllDone(s)
    ensures !HasRunner(s, id)
  {
  }

  lemma {:induction false} ActionsAreClaims(pulses: seq<Pulse>)
    requires forall k :: 0 <= k < |pulses| ==> pulses[k].Done?
    ensures SumOfActions(pulses) == TotalClaims(pulses)
  {
    if pulses != [] {
      ActionsAreClaims(pulses[..|pulses| - 1]);
    }
  }

  // ---------------------------------------------------------------------
  // What a pulse works through
  // ---------------------------------------------------------------------

  ghost function PendingIn(rows: map<TaskKey, Row>): set<TaskKey> {
    set id | id in rows && rows[id].status.Pending?
  }

  lemma {:induction false} DistinctSize(ids: seq<TaskKey>, s: set<TaskKey>)
    requires (forall i, j :: 0 <= i < j < |ids| ==> ids[i] != ids[j]) && forall id :: id in ids <==> id in s
    ensures |ids| == |s|
  {
    if ids == [] {
      assert s == {};
    } else {
      var n := |ids| - 1;
      assert forall id :: id in ids[..n] <==> id in s - {ids[n]};
      DistinctSize(ids[..n], s - {ids[n]});
    }
  }

  function TodoOf(q: Pulse): seq<TaskKey> {
    match q
    case Working(todo, _, _) => todo
    case Executing(_, todo, _, _) => todo
    case _ => []
  }

  /** The pulse scanned `ids` and is through with all but the rest of it, the first of them being
      the task whose body it runs, if it runs one. */
  predicate IsWithin(q: Pulse, ids: seq<TaskKey>) {
    && !q.Ticked? && q.scanned == |ids| && |TodoOf(q)| <= |ids|
    && TodoOf(q) == ids[|ids| - |TodoOf(q)|..]
    && (q.Executing? ==> |TodoOf(q)| < |ids| && q.task == ids[|ids| - |TodoOf(q)| - 1])
    && (q.Done? ==> TodoOf(q) == [])
  }

  /** This is what pulse `k` found when it listed the tasks: all that were pending, or nothing if listing failed. */
  ghost predicate ListedAt(s: System, k: nat, ids: seq<TaskKey>) {
    k < |s.pulses| && s.pulses[k].Ticked? && (IsListing(s.rows, ids) || ids == [])
  }

  ghost predicate WorksThrough(tr: seq<System>, i: nat, k: nat, q: Pulse) {
    exists j, ids :: 0 <= j < i && j < |tr| && ListedAt(tr[j], k, ids) && IsWithin(q, ids)
  }

  lemma WithinKept(s: System, a: Action, k: nat, ids: seq<TaskKey>)
    requires Enabled(s, a) && k < |s.pulses| && IsWithin(s.pulses[k], ids)
    ensures IsWithin(Next(s, a).pulses[k], ids)
  {
  }

  lemma FirstWithin(s: System, a: Action, k: nat) returns (ids: seq<TaskKey>)
    requires Enabled(s, a) && k < |Next(s, a).pulses| && !Next(s, a).pulses[k].Ticked?
    requires k < |s.pulses| ==> s.pulses[k].Ticked?
    ensures ListedAt(s, k, ids) && IsWithin(Next(s, a).pulses[k], ids)
  {
    ids := if a.List? then a.ids else [];
  }

  lemma WorksThroughStep(tr: seq<System>, i: nat, k: nat, a: Action)
    requires i + 1 < |tr| && Enabled(tr[i], a) && tr[i + 1] == Next(tr[i], a)
    requires k < |tr[i + 1].pulses| && !tr[i + 1].pulses[k].Ticked?
    requires k < |tr[i].pulses| && !tr[i].pulses[k].Ticked? ==> WorksThrough(tr, i, k, tr[i].pulses[k])
    ensures WorksThrough(tr, i + 1, k, tr[i + 1].pulses[k])
  {
    hide Enabled, Next, IsWithin, ListedAt;
    if k < |tr[i].pulses| && !tr[i].pulses[k].Ticked? {
      var j, ids :| 0 <= j < i && ListedAt(tr[j], k, ids) && IsWithin(tr[i].pulses[k], ids);
      WithinKept(tr[i], a, k, ids);
    } else {
      var ids := FirstWithin(tr[i], a, k);
    }
  }

  /** In every run a pulse works through what it listed, in that order, and its receipt counts all of it. */
  lemma {:induction false} AlwaysWorksThrough(tr: seq<System>, i: nat, k: nat)
    requires IsRun(tr) && i < |tr| && k < |tr[i].pulses| && !tr[i].pulses[k].Ticked?
    ensures WorksThrough(tr, i, k, tr[i].pulses[k])
  {
    if i > 0 {
      hide WorksThrough, Enabled, Next;
      if k < |tr[i - 1].pulses| && !tr[i - 1].pulses[k].Ticked? {
        AlwaysWorksThrough(tr, i - 1, k);
      }
      assert Step(tr[i - 1], tr[i - 1 + 1]);
      var a :| Enabled(tr[i - 1], a) && tr[i] == Next(tr[i - 1], a);
      WorksThroughStep(tr, i - 1, k, a);
    }
  }

  /** What a pulse reports as scanned is the number of tasks that were pending when it listed them. */
  lemma ScannedArePending(tr: seq<System>, k: nat)
    requires IsRun(tr) && k < |Now(tr).pulses| && !Now(tr).pulses[k].Ticked?
    ensures Now(tr).pulses[k].scanned == 0
      || exists j :: 0 <= j < |tr| && Now(tr).pulses[k].scanned == |PendingIn(tr[j].rows)|
  {
    hide Step;
    var n: nat := |tr| - 1;
    AlwaysWorksThrough(tr, n, k);
    var j, ids :| 0 <= j < n && ListedAt(tr[j], k, ids) && IsWithin(tr[n].pulses[k], ids);
    if ids != [] {
      DistinctSize(ids, PendingIn(tr[j].rows));
    }
  }
}
