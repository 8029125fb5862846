/**
 The token itself. Between any two accesses to the flag or to the notifier other
 waiters and cancellers may take any number of steps.
 */
module CancelToken {
  import opened CancelMachine

  class CancelToken {
    var flag: bool
    var notified: nat
    /** Where every waiter and canceller stands, the caller and those interleaved with it. */
    var waiters: seq<Waiter>
    var cancellers: seq<Canceller>
    ghost var trace: seq<System>
    ghost var acts: seq<Action>

    constructor ()
      ensures Valid() && !flag && waiters == [] && cancellers == []
    {
      flag, notified := false, 0;
      waiters, cancellers := [], [];
      trace, acts := [FRESH], [];
    }

    function Now(): System
      reads this
    {
      System(flag, notified, waiters, cancellers)
    }

    ghost predicate Valid()
      reads this
    {
      |trace| == |acts| + 1 && IsRun(trace, acts) && trace[|acts|] == Now()
    }

    /** One step, of the caller or of the environment. */
    method Take(a: Action)
      requires Valid() && Enabled(Now(), a)
      modifies this
      ensures Valid() && Now() == Next(old(Now()), a)
      ensures trace == old(trace) + [Now()] && acts == old(acts) + [a]
    {
      var t := Next(Now(), a);
      flag, notified, waiters, cancellers := t.flag, t.notified, t.waiters, t.cancellers;
      trace, acts := trace + [t], acts + [a];
    }

    /** Any number of steps of others; `keep` names the waiter or canceller that is not theirs to move. */
    method Interfere(keep: Actor)
      requires Valid() && Exists(Now(), keep)
      modifies this
      ensures Valid() && old(trace) <= trace && old(acts) <= acts
      ensures Undisturbed(old(Now()), Now(), keep)
    {
      var steps: nat := *;
      while steps > 0
        invariant Valid() && old(trace) <= trace && old(acts) <= acts
        invariant Undisturbed(old(Now()), Now(), keep)
      {
        var a: Action := *;
        if Enabled(Now(), a) && !Moves(a, keep) {
          OthersDoNotDisturb(old(Now()), Now(), a, keep);
          Take(a);
        }
        steps := steps - 1;
      }
    }

    /** When it returns the flag is set and every sleeping waiter has been notified. */
    method Cancel()
      requires Valid()
      modifies this
      ensures Valid() && old(trace) <= trace && old(acts) <= acts
      ensures flag
      ensures forall w :: 0 <= w < |waiters| && waiters[w].Asleep? ==> Enabled(Now(), Wake(w))
    {
      hide IsRun;
      var me := |cancellers|;
      Take(NewCanceller);
      Interfere(ACanceller(me));
      Take(SetFlag(me));
      Interfere(ACanceller(me));
      Take(Notify(me));
      assert trace[|acts|].cancellers[me].Notified?;
      AllSleepersNotified(trace, acts, |acts|);
    }

    method IsCancelled() returns (r: bool)
      ensures r == flag
    {
      r := flag;
    }

    /** Polls the waiting future of waiter `me` until it returns or has to sleep. */
    method PollCancelled(me: nat) returns (ready: bool)
      requires Valid() && me < |waiters| && !waiters[me].Returned?
      modifies this
      ensures Valid() && old(trace) <= trace && old(acts) <= acts
      ensures me < |waiters|
      ensures ready ==> flag && waiters[me].Returned?
      ensures !ready ==> waiters[me].Asleep? && !Enabled(Now(), Wake(me)) && !CancelCompleted(Now())
    {
      if waiters[me].Asleep? {
        if waiters[me].seen >= notified {
          SleepersAreNotNotified(trace, acts, |acts|, me);
          return false;
        }
        Take(Wake(me));
      }
      hide IsRun, Inv, Next;
      while true
        invariant Valid() && old(trace) <= trace && old(acts) <= acts
        invariant me < |waiters| && (waiters[me].Top? || waiters[me].Subscribed?)
        decreases !flag
      {
        ready := ReadOnce(me);
        if ready {
          return true;
        }
        Interfere(AWaiter(me));
        SleepersAreNotNotified(trace, acts, |acts|, me);
        if waiters[me].seen >= notified {
          return false;
        }
        Take(Wake(me));
      }
    }

    /** The loop body up to the sleep: subscribe first, then read the flag. */
    method ReadOnce(me: nat) returns (cancelled: bool)
      requires Valid() && me < |waiters| && (waiters[me].Top? || waiters[me].Subscribed?)
      modifies this
      ensures Valid() && old(trace) <= trace && old(acts) <= acts
      ensures me < |waiters| && (old(flag) ==> flag)
      ensures cancelled <==> flag
      ensures if cancelled then waiters[me].Returned? else waiters[me].Asleep?
    {
      hide IsRun;
      if waiters[me].Top? {
        Take(Subscribe(me));
        Interfere(AWaiter(me));
      }
      cancelled := IsCancelled();
      Take(ReadFlag(me));
    }
  }

  datatype Actor = AWaiter(w: nat) | ACanceller(c: nat)

  predicate Exists(s: System, who: Actor) {
    match who
    case AWaiter(w) => w < |s.waiters|
    case ACanceller(c) => c < |s.cancellers|
  }

  predicate Moves(a: Action, who: Actor) {
    match who
    case AWaiter(w) => OfWaiter(a, w)
    case ACanceller(c) => OfCanceller(a, c)
  }

  /** The actor stands where it stood; the flag and the notifications only grow. */
  ghost predicate Undisturbed(s: System, t: System, who: Actor)
    requires Exists(s, who)
  {
    && Exists(t, who) && (s.flag ==> t.flag) && s.notified <= t.notified
    && match who
       case AWaiter(w) => t.waiters[w] == s.waiters[w]
       case ACanceller(c) => t.cancellers[c] == s.cancellers[c]
  }

  lemma OthersDoNotDisturb(first: System, s: System, a: Action, who: Actor)
    requires Exists(first, who) && Undisturbed(first, s, who) && Enabled(s, a) && !Moves(a, who)
    ensures Undisturbed(first, Next(s, a), who)
  {
  }

  lemma SleepersAreNotNotified(tr: seq<System>, acts: seq<Action>, i: nat, w: nat)
    requires IsRun(tr, acts) && i < |tr| && w < |tr[i].waiters| && tr[i].waiters[w].Asleep?
    ensures tr[i].waiters[w].seen >= tr[i].notified ==> !CancelCompleted(tr[i])
    ensures tr[i].waiters[w].seen < tr[i].notified ==> tr[i].flag
  {
    AlwaysInv(tr, acts, i);
  }

  lemma AllSleepersNotified(tr: seq<System>, acts: seq<Action>, i: nat)
    requires IsRun(tr, acts) && i < |tr| && CancelCompleted(tr[i])
    ensures forall w :: 0 <= w < |tr[i].waiters| && tr[i].waiters[w].Asleep? ==> Enabled(tr[i], Wake(w))
  {
    AlwaysInv(tr, acts, i);
  }
}
