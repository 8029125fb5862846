/**
 The wake-up protocol behind a cancellation token: any number of waiters and
 cancellers, in any interleaving. A waiter first creates its notification
 future, then reads the flag, and only then sleeps; a canceller first sets the
 flag and then notifies. A future is ready as soon as any notification was
 issued after its creation, which the count of notifications records.
 */
module CancelMachine {

  /** `seen` is the number of notifications issued before the future was created. */
  datatype Waiter =
    | Top
    | Subscribed(seen: nat)
    | Asleep(seen: nat)
    | Returned

  datatype Canceller = Before | Stored | Notified

  datatype System = System(flag: bool, notified: nat, waiters: seq<Waiter>, cancellers: seq<Canceller>)

  const FRESH := System(false, 0, [], [])

  datatype Action =
    | NewWaiter
    | NewCanceller
    | Subscribe(w: nat)
    | ReadFlag(w: nat)
    | Wake(w: nat)
    | SetFlag(c: nat)
    | Notify(c: nat)

  predicate Enabled(s: System, a: Action) {
    match a
    case NewWaiter => true
    case NewCanceller => true
    case Subscribe(w) => w < |s.waiters| && s.waiters[w].Top?
    case ReadFlag(w) => w < |s.waiters| && s.waiters[w].Subscribed?
    case Wake(w) => w < |s.waiters| && s.waiters[w].Asleep? && s.waiters[w].seen < s.notified
    case SetFlag(c) => c < |s.cancellers| && s.cancellers[c].Before?
    case Notify(c) => c < |s.cancellers| && s.cancellers[c].Stored?
  }

  function Next(s: System, a: Action): System
    requires Enabled(s, a)
  {
    match a
    case NewWaiter => s.(waiters := s.waiters + [Top])
    case NewCanceller => s.(cancellers := s.cancellers + [Before])
    case Subscribe(w) => s.(waiters := s.waiters[w := Subscribed(s.notified)])
    case ReadFlag(w) => s.(waiters := s.waiters[w := if s.flag then Returned else Asleep(s.waiters[w].seen)])
    case Wake(w) => s.(waiters := s.waiters[w := Top])
    case SetFlag(c) => s.(flag := true, cancellers := s.cancellers[c := Stored])
    case Notify(c) => s.(notified := s.notified + 1, cancellers := s.cancellers[c := Notified])
  }

  /** The step is one of waiter `w`. */
  predicate OfWaiter(a: Action, w: nat) {
    (a.Subscribe? || a.ReadFlag? || a.Wake?) && a.w == w
  }

  /** The step is one of canceller `c`. */
  predicate OfCanceller(a: Action, c: nat) {
    (a.SetFlag? || a.Notify?) && a.c == c
  }

  /** A run: `tr` are the states, `acts` the steps between them. */
  ghost predicate IsRun(tr: seq<System>, acts: seq<Action>) {
    && |tr| == |acts| + 1 && tr[0] == FRESH
    && forall i :: 0 <= i < |acts| ==> Enabled(tr[i], acts[i]) && tr[i + 1] == Next(tr[i], acts[i])
  }

  // ---------------------------------------------------------------------
  // Invariant
  // ---------------------------------------------------------------------

  /** Whoever sleeps read the flag as unset, so no notification had been issued when it subscribed. */
  ghost predicate SleepersAreOld(s: System) {
    forall w :: 0 <= w < |s.waiters| && s.waiters[w].Asleep? ==> s.waiters[w].seen == 0
  }

  ghost predicate FlagFirst(s: System) {
    && (s.notified > 0 ==> s.flag)
    && (forall w :: 0 <= w < |s.waiters| && s.waiters[w].Returned? ==> s.flag)
    && (forall w :: 0 <= w < |s.waiters| && s.waiters[w].Subscribed? ==> s.waiters[w].seen <= s.notified)
    && (forall c :: 0 <= c < |s.cancellers| && !s.cancellers[c].Before? ==> s.flag)
    && (forall c :: 0 <= c < |s.cancellers| && s.cancellers[c].Notified? ==> s.notified > 0)
  }

  /** The flag is set only by a canceller that began, and notified only by one that finished. */
  ghost predicate Caused(s: System) {
    && (s.flag ==> exists c :: 0 <= c < |s.cancellers| && !s.cancellers[c].Before?)
    && (s.notified > 0 ==> exists c :: 0 <= c < |s.cancellers| && s.cancellers[c].Notified?)
  }

  ghost predicate Inv(s: System) {
    SleepersAreOld(s) && FlagFirst(s) && Caused(s)
  }

  lemma CausedKept(s: System, a: Action)
    requires FlagFirst(s) && Caused(s) && Enabled(s, a)
    ensures Caused(Next(s, a))
  {
    var t := Next(s, a);
    if s.flag {
      var c :| 0 <= c < |s.cancellers| && !s.cancellers[c].Before?;
      assert !t.cancellers[c].Before?;
    }
    if s.notified > 0 {
      var c :| 0 <= c < |s.cancellers| && s.cancellers[c].Notified?;
      assert t.cancellers[c].Notified?;
    }
    if a.SetFlag? || a.Notify? {
      assert !t.cancellers[a.c].Before?;
    }
  }

  lemma InvKept(s: System, a: Action)
    requires Inv(s) && Enabled(s, a)
    ensures Inv(Next(s, a))
  {
    CausedKept(s, a);
    hide Caused;
    assert SleepersAreOld(Next(s, a));
    assert FlagFirst(Next(s, a));
  }

  lemma {:induction false} AlwaysInv(tr: seq<System>, acts: seq<Action>, i: nat)
    requires IsRun(tr, acts) && i < |tr|
    ensures Inv(tr[i])
  {
    if i > 0 {
      AlwaysInv(tr, acts, i - 1);
      InvKept(tr[i - 1], acts[i - 1]);
      assert tr[i - 1 + 1] == Next(tr[i - 1], acts[i - 1]);
    }
  }

  // ---------------------------------------------------------------------
  // What every run guarantees
  // ---------------------------------------------------------------------

  ghost predicate CancelCompleted(s: System) {
    exists c :: 0 <= c < |s.cancellers| && s.cancellers[c].Notified?
  }

  ghost predicate CancelBegan(s: System) {
    exists c :: 0 <= c < |s.cancellers| && !s.cancellers[c].Before?
  }

  /** Waiting returns only after some canceller set the flag. */
  lemma ReturnsOnlyIfCancelled(tr: seq<System>, acts: seq<Action>, i: nat, w: nat)
    requires IsRun(tr, acts) && i < |tr| && w < |tr[i].waiters|
    ensures tr[i].waiters[w].Returned? ==> tr[i].flag
    ensures tr[i].flag <==> CancelBegan(tr[i])
  {
    AlwaysInv(tr, acts, i);
  }

  /** One completed cancellation is enough: no waiter, early or late, sleeps without having
      been notified, and each that has not returned has a step to take. While the flag is
      set and a waiter does sleep un-notified, a canceller is still about to notify. */
  lemma NoLostWakeUp(tr: seq<System>, acts: seq<Action>, i: nat, w: nat)
    requires IsRun(tr, acts) && i < |tr| && w < |tr[i].waiters|
    ensures CancelCompleted(tr[i]) && tr[i].waiters[w].Asleep? ==> Enabled(tr[i], Wake(w))
    ensures CancelCompleted(tr[i]) && !tr[i].waiters[w].Returned? ==> exists a :: OfWaiter(a, w) && Enabled(tr[i], a)
    ensures tr[i].flag && tr[i].waiters[w].Asleep? && !Enabled(tr[i], Wake(w)) ==>
              exists c :: 0 <= c < |tr[i].cancellers| && Enabled(tr[i], Notify(c))
  {
    AlwaysInv(tr, acts, i);
    var s := tr[i];
    if s.flag {
      var c :| 0 <= c < |s.cancellers| && !s.cancellers[c].Before?;
      if !CancelCompleted(s) {
        assert Enabled(s, Notify(c));
      }
    }
    if CancelCompleted(s) && !s.waiters[w].Returned? {
      var a := match s.waiters[w]
        case Top => Subscribe(w)
        case Subscribed(_) => ReadFlag(w)
        case _ => Wake(w);
      assert OfWaiter(a, w) && Enabled(s, a);
    }
  }

  /** Nobody can move: then without a canceller nobody returned, and with one everybody did. */
  ghost predicate Stuck(s: System) {
    forall a :: Enabled(s, a) ==> a.NewWaiter? || a.NewCanceller?
  }

  lemma StuckMeansAllOrNothing(tr: seq<System>, acts: seq<Action>, i: nat, w: nat)
    requires IsRun(tr, acts) && i < |tr| && w < |tr[i].waiters| && Stuck(tr[i])
    ensures tr[i].waiters[w].Returned? <==> |tr[i].cancellers| > 0
  {
    AlwaysInv(tr, acts, i);
    var s := tr[i];
    if |s.cancellers| > 0 {
      assert !Enabled(s, SetFlag(0)) && !Enabled(s, Notify(0));
      assert CancelCompleted(s);
      NoLostWakeUp(tr, acts, i, w);
    }
  }

  // ---------------------------------------------------------------------
  // Progress
  // ---------------------------------------------------------------------

  /** Own steps a waiter still needs once a cancellation completed. */
  function StepsLeft(q: Waiter): nat {
    match q
    case Asleep(_) => 3
    case Top => 2
    case Subscribed(_) => 1
    case Returned => 0
  }

  function OwnSteps(acts: seq<Action>, w: nat): nat {
    if acts == [] then 0
    else OwnSteps(acts[..|acts| - 1], w) + if OfWaiter(acts[|acts| - 1], w) then 1 else 0
  }

  lemma StepPays(s: System, a: Action, w: nat)
    requires s.flag && Enabled(s, a) && w < |s.waiters|
    ensures var t := Next(s, a);
      && t.flag && w < |t.waiters|
      && StepsLeft(s.waiters[w]) == StepsLeft(t.waiters[w]) + if OfWaiter(a, w) then 1 else 0
  {
  }

  /** From the moment the flag is set a waiter takes at most three more own steps, and
      has returned exactly when it has taken the steps it had left. */
  lemma {:induction false} ReturnsWithinThreeSteps(tr: seq<System>, acts: seq<Action>, i: nat, j: nat, w: nat)
    requires IsRun(tr, acts) && i <= j < |tr| && tr[i].flag && w < |tr[i].waiters|
    ensures tr[j].flag && w < |tr[j].waiters|
    ensures OwnSteps(acts[i..j], w) + StepsLeft(tr[j].waiters[w]) == StepsLeft(tr[i].waiters[w]) <= 3
    ensures tr[j].waiters[w].Returned? <==> OwnSteps(acts[i..j], w) == StepsLeft(tr[i].waiters[w])
    decreases j
  {
    if i < j {
      ReturnsWithinThreeSteps(tr, acts, i, j - 1, w);
      StepPays(tr[j - 1], acts[j - 1], w);
      assert tr[j - 1 + 1] == Next(tr[j - 1], acts[j - 1]);
      assert acts[i..j][..j - i - 1] == acts[i..j - 1];
    }
  }
}
