/**
 Effect-safe retry and failure provenance: the bounded retry loop, one gated
 attempt under cancellation and deadline, and the walk back along parent
 links to the failure that started it.
 */
module Retry {
  import opened Wrappers
  import opened Failure

  const MAX_ATTEMPTS_CEILING: nat := 5

  datatype RetryEligibility = Retryable(maxAttempts: nat) | NotRetryable

  function Min(a: nat, b: nat): nat { if a < b then a else b }

  /** Only an unreachable backend, with certainly no effect, on an idempotent capability,
      under a policy that allows a second attempt. */
  function Eligibility(class_: FailureClass, certainty: EffectCertainty, idempotent: bool, maxAttempts: nat): (e: RetryEligibility)
    ensures e.Retryable? <==> class_ == Unavailable && certainty == NoEffect && idempotent && maxAttempts > 1
    ensures e.Retryable? ==> e.maxAttempts <= maxAttempts && e.maxAttempts <= 5
    ensures e.Retryable? ==> e.maxAttempts == maxAttempts || e.maxAttempts == 5
  {
    var attempts := Min(maxAttempts, MAX_ATTEMPTS_CEILING);
    if class_.Unavailable? && certainty.NoEffect? && idempotent && attempts > 1 then Retryable(attempts)
    else NotRetryable
  }

  datatype AttemptFailure = AttemptFailure(attempt: nat, fault: ToolFault, createdAt: int, failedAt: int)

  /** How often a call may be dispatched at most. */
  function Limit(idempotent: bool, maxAttempts: nat): (n: nat)
    ensures 1 <= n <= 5
    ensures !idempotent || maxAttempts <= 1 ==> n == 1
    ensures idempotent && 1 <= maxAttempts <= 5 ==> n == maxAttempts
    ensures idempotent && maxAttempts >= 5 ==> n == 5
  {
    if idempotent && maxAttempts > 1 then Min(maxAttempts, MAX_ATTEMPTS_CEILING) else 1
  }

  /** A fault after which the same call may safely be sent again. */
  predicate IsSafeToRepeat(f: ToolFault) {
    f.faultClass.Unavailable? && f.certainty.NoEffect?
  }

  /** The failed attempts and the final answer of a retried call, told without the loop. */
  ghost predicate RetryOutcome(answers: nat -> Result<string, ToolFault>, clock: nat -> (int, int), limit: nat,
                               r: Result<string, ToolFault>, failures: seq<AttemptFailure>) {
    var n := |failures| + if r.Ok? then 1 else 0;
    && 1 <= n <= limit
    && r == answers(n)
    && (forall i :: 0 <= i < |failures| ==>
          && failures[i].attempt == i + 1 && answers(i + 1) == Err(failures[i].fault)
          && (failures[i].createdAt, failures[i].failedAt) == clock(i + 1))
    // every attempt but the last failed in a way that is safe to repeat
    && (forall i :: 0 <= i < n - 1 ==> IsSafeToRepeat(failures[i].fault))
    // and the last one was not given up on early
    && (r.Err? ==> n == limit || !IsSafeToRepeat(r.error))
  }

  predicate Repeatable(a: Result<string, ToolFault>) {
    a.Err? && IsSafeToRepeat(a.error)
  }

  /** `answers` and `clock` say how each attempt ends, and when it begins and ends. */
  method RetryLoop(maxAttempts: nat, idempotent: bool, answers: nat -> Result<string, ToolFault>, clock: nat -> (int, int))
    returns (r: Result<string, ToolFault>, failures: seq<AttemptFailure>)
    ensures RetryOutcome(answers, clock, Limit(idempotent, maxAttempts), r, failures)
    ensures AttemptsInBounds(answers, idempotent, maxAttempts, r, |failures| + if r.Ok? then 1 else 0)
  {
    failures := [];
    var attempt: nat := 1;
    while true
      invariant attempt == |failures| + 1 <= Limit(idempotent, maxAttempts)
      invariant forall i :: 0 <= i < |failures| ==>
        && failures[i].attempt == i + 1 && answers(i + 1) == Err(failures[i].fault)
        && (failures[i].createdAt, failures[i].failedAt) == clock(i + 1)
        && IsSafeToRepeat(failures[i].fault)
      decreases MAX_ATTEMPTS_CEILING - attempt
    {
      r := answers(attempt);
      match r {
        case Ok(_) =>
          AttemptsCounted(answers, clock, idempotent, maxAttempts, r, failures);
          return;
        case Err(fault) =>
          var (createdAt, failedAt) := clock(attempt);
          failures := failures + [AttemptFailure(attempt, fault, createdAt, failedAt)];
          var e := Eligibility(fault.faultClass, fault.certainty, idempotent, maxAttempts);
          if e.NotRetryable? || attempt >= e.maxAttempts {
            AttemptsCounted(answers, clock, idempotent, maxAttempts, r, failures);
            return;
          }
          attempt := attempt + 1;
      }
    }
  }

  /** The number of attempts, told by the answers alone: a second attempt needs an idempotent call
      and a policy that allows it, the policy and five bound their number, everything before the last
      was unavailable without effect, and such an answer ends the call only at the bound. */
  ghost predicate AttemptsInBounds(answers: nat -> Result<string, ToolFault>, idempotent: bool, maxAttempts: nat,
                                   r: Result<string, ToolFault>, n: nat) {
    && 1 <= n <= 5 && r == answers(n)
    && (n > 1 ==> idempotent && n <= maxAttempts)
    && (forall k :: 1 <= k < n ==> Repeatable(answers(k)))
    && (idempotent && Repeatable(r) ==> n == 5 || n >= maxAttempts)
  }

  lemma AttemptsCounted(answers: nat -> Result<string, ToolFault>, clock: nat -> (int, int), idempotent: bool,
                        maxAttempts: nat, r: Result<string, ToolFault>, failures: seq<AttemptFailure>)
    requires RetryOutcome(answers, clock, Limit(idempotent, maxAttempts), r, failures)
    ensures AttemptsInBounds(answers, idempotent, maxAttempts, r, |failures| + if r.Ok? then 1 else 0)
  {
    var n := |failures| + if r.Ok? then 1 else 0;
    forall k | 1 <= k < n ensures Repeatable(answers(k)) {
      EarlierIsSafe(answers, clock, Limit(idempotent, maxAttempts), r, failures, k);
    }
  }

  /** The number of attempts is determined: an idempotent call whose backend stays unreachable is attempted as
      often as the policy says, but at least once and at most five times; any other call just once. */
  lemma AttemptsAgainstDeadBackend(answers: nat -> Result<string, ToolFault>, clock: nat -> (int, int), idempotent: bool,
                                   maxAttempts: nat, r: Result<string, ToolFault>, failures: seq<AttemptFailure>)
    requires RetryOutcome(answers, clock, Limit(idempotent, maxAttempts), r, failures)
    requires forall k: nat :: k >= 1 ==> Repeatable(answers(k))
    ensures r.Err? && Repeatable(r)
    ensures idempotent && 1 <= maxAttempts <= 5 ==> |failures| == maxAttempts
    ensures idempotent && maxAttempts > 5 ==> |failures| == 5
    ensures !idempotent || maxAttempts == 0 ==> |failures| == 1
  {
    hide Limit, RetryOutcome;
    var n := |failures| + if r.Ok? then 1 else 0;
    AttemptsCounted(answers, clock, idempotent, maxAttempts, r, failures);
    assert Repeatable(answers(n));
  }

  lemma EarlierIsSafe(answers: nat -> Result<string, ToolFault>, clock: nat -> (int, int), limit: nat,
                      r: Result<string, ToolFault>, failures: seq<AttemptFailure>, n: nat)
    requires RetryOutcome(answers, clock, limit, r, failures)
    requires 1 <= n < |failures| + if r.Ok? then 1 else 0
    ensures answers(n).Err? && IsSafeToRepeat(answers(n).error)
  {
    assert answers(n - 1 + 1) == Err(failures[n - 1].fault);
  }

  /** The outcome is determined: no two behaviours meet the same description. */
  lemma RetryOutcomeUnique(answers: nat -> Result<string, ToolFault>, clock: nat -> (int, int), limit: nat,
                           r1: Result<string, ToolFault>, f1: seq<AttemptFailure>,
                           r2: Result<string, ToolFault>, f2: seq<AttemptFailure>)
    requires RetryOutcome(answers, clock, limit, r1, f1) && RetryOutcome(answers, clock, limit, r2, f2)
    ensures r1 == r2 && f1 == f2
  {
    var n1 := |f1| + if r1.Ok? then 1 else 0;
    var n2 := |f2| + if r2.Ok? then 1 else 0;
    if n1 < n2 {
      EarlierIsSafe(answers, clock, limit, r2, f2, n1);
    } else if n2 < n1 {
      EarlierIsSafe(answers, clock, limit, r1, f1, n2);
    }
    forall i | 0 <= i < |f1| ensures i < |f2| && f1[i] == f2[i] {
      assert answers(i + 1) == Err(f1[i].fault) && clock(i + 1) == (f1[i].createdAt, f1[i].failedAt);
    }
  }

  // ---------------------------------------------------------------------
  // One attempt
  // ---------------------------------------------------------------------

  /** What happens around one dispatch. `reached` says whether the dispatcher
      was entered before the cancellation won. */
  datatype Ending =
    | Replied(answer: Result<string, ToolFault>)
    | CancelledMidway(reached: bool)
    | DeadlineHit

  datatype Probe = Probe(cancelledBefore: bool, ending: Ending)

  predicate Dispatched(p: Probe)
    ensures Dispatched(p) <==> !p.cancelledBefore && p.ending != CancelledMidway(false)
  {
    !p.cancelledBefore && (p.ending.CancelledMidway? ==> p.ending.reached)
  }

  /** A cancel or deadline on a call that is not idempotent claims no effect
      only if nothing was dispatched; on an idempotent one it always may. */
  function AttemptTool(p: Probe, idempotent: bool): (r: Result<string, ToolFault>)
    ensures p.cancelledBefore ==> r.Err? && r.error.faultClass == Cancelled && r.error.certainty == NoEffect
    ensures !p.cancelledBefore && p.ending.CancelledMidway? ==> r.Err? && r.error.faultClass == Cancelled
    ensures !p.cancelledBefore && p.ending.DeadlineHit? ==> r.Err? && r.error.faultClass == Timeout
    ensures !p.cancelledBefore && !p.ending.Replied? ==>
      r.error.certainty == if idempotent then NoEffect else UncertainEffect
    ensures (p.cancelledBefore || !p.ending.Replied?) && !idempotent && r.error.certainty == NoEffect ==> !Dispatched(p)
    ensures p.cancelledBefore || !p.ending.Replied? ==> !IsSafeToRepeat(r.error)
    ensures !p.cancelledBefore && p.ending.Replied? ==> r == p.ending.answer
  {
    var unknown := if idempotent then NoEffect else UncertainEffect;
    if p.cancelledBefore then Err(ToolFault(Cancelled, NoEffect, "cancelled before dispatch"))
    else match p.ending
      case Replied(answer) => answer
      case CancelledMidway(_) => Err(ToolFault(Cancelled, unknown, "cancelled while running"))
      case DeadlineHit => Err(ToolFault(Timeout, unknown, "deadline exceeded"))
  }

  // ---------------------------------------------------------------------
  // Walking back to the root cause
  // ---------------------------------------------------------------------

  function FindFirst(records: seq<FailureRecord>, id: string, attempt: nat): (r: Option<FailureRecord>)
    ensures r.Some? ==> r.value in records && r.value.toolCallId == id && r.value.attempt == attempt
    ensures r.None? ==> forall x :: x in records ==> !(x.toolCallId == id && x.attempt == attempt)
  {
    if records == [] then None
    else if records[0].toolCallId == id && records[0].attempt == attempt then Some(records[0])
    else FindFirst(records[1..], id, attempt)
  }

  function FindLast(records: seq<FailureRecord>, id: string): (r: Option<FailureRecord>)
    ensures r.Some? ==> r.value in records && r.value.toolCallId == id
    ensures r.None? ==> forall x :: x in records ==> x.toolCallId != id
  {
    if records == [] then None
    else if records[|records| - 1].toolCallId == id then Some(records[|records| - 1])
    else FindLast(records[..|records| - 1], id)
  }

  function ParentOf(records: seq<FailureRecord>, r: FailureRecord): Option<FailureRecord> {
    match r.parentCallId
    case None => None
    case Some(id) => FindLast(records, id)
  }

  /** At most `steps` parent links from `r`. */
  function Follow(records: seq<FailureRecord>, r: FailureRecord, steps: nat): FailureRecord
    decreases steps
  {
    if steps == 0 then r
    else
      var parent := ParentOf(records, r);
      if parent.Some? && parent.value.sequence != r.sequence then Follow(records, parent.value, steps - 1) else r
  }

  /** The bounded walk: one iteration more than there are records. */
  method RootCause(records: seq<FailureRecord>, start: FailureRecord) returns (r: Option<FailureRecord>)
    ensures r == RootCauseOf(records, start)
    ensures r.Some? ==> r.value in records
  {
    r := FindFirst(records, start.toolCallId, start.attempt);
    if r.None? {
      return;
    }
    var current := r.value;
    for i := 0 to |records| + 1
      invariant current in records
      invariant Follow(records, current, |records| + 1 - i) == Follow(records, r.value, |records| + 1)
    {
      var parent := ParentOf(records, current);
      if parent.Some? && parent.value.sequence != current.sequence {
        current := parent.value;
      } else {
        return Some(current);
      }
    }
    r := Some(current);
  }

  function RootCauseOf(records: seq<FailureRecord>, start: FailureRecord): Option<FailureRecord> {
    match FindFirst(records, start.toolCallId, start.attempt)
    case None => None
    case Some(r) => Some(Follow(records, r, |records| + 1))
  }

  /** The bound in numbers: around two records that name each other as parent the walk goes three links. */
  lemma CycleIsLeft(a: FailureRecord, b: FailureRecord)
    requires a.toolCallId != b.toolCallId && a.sequence != b.sequence
    requires a.parentCallId == Some(b.toolCallId) && b.parentCallId == Some(a.toolCallId)
    ensures RootCauseOf([a, b], a) == Some(b) && RootCauseOf([a, b], b) == Some(a)
  {
    var rs := [a, b];
    assert rs[..1] == [a] && rs[1..] == [b];
    assert ParentOf(rs, a) == Some(b) && ParentOf(rs, b) == Some(a);
    assert FindFirst(rs, a.toolCallId, a.attempt) == Some(a) && FindFirst(rs[1..], b.toolCallId, b.attempt) == Some(b);
    assert Follow(rs, a, 3) == Follow(rs, b, 2) == Follow(rs, a, 1) == Follow(rs, b, 0) == b;
    assert Follow(rs, b, 3) == Follow(rs, a, 2) == Follow(rs, b, 1) == Follow(rs, a, 0) == a;
  }
}
