/**
 The failure vocabulary shared by the agent loop and the workflow executor:
 fault classes, effect certainty, failure records, and the bounded text that
 goes into them.
 */
module Failure {
  import opened Wrappers

  const MAX_CAUSE_ENTRIES: nat := 8
  const MAX_CAUSE_MESSAGE_BYTES: nat := 512

  datatype FailureClass =
    | Rejected
    | Unavailable
    | Timeout
    | Cancelled
    | Uncertain
    | Failed
    | Malformed
    | ApprovalPending

  datatype EffectCertainty = NoEffect | UncertainEffect | EffectOccurred

  datatype CauseEntry = CauseEntry(source: string, message: string, payloadDigest: Option<string>)

  datatype ToolFault = ToolFault(faultClass: FailureClass, certainty: EffectCertainty, message: string)

  datatype FailureRecord = FailureRecord(
    sequence: nat,
    runId: string,
    stepIndex: nat,
    toolCallId: string,
    parentCallId: Option<string>,
    toolName: string,
    attempt: nat,
    faultClass: FailureClass,
    certainty: EffectCertainty,
    createdAt: int,
    failedAt: int,
    cause: seq<CauseEntry>,
    causeTruncated: bool)
  {
    /** Appends one cause with a cut message; past the cap only the flag is set. */
    function WithCause(source: string, message: string, digest: Option<string>): (r: FailureRecord)
      ensures |cause| <= 8 ==> |r.cause| <= 8
      ensures r == this.(cause := r.cause, causeTruncated := r.causeTruncated)
      ensures |cause| < 8 ==> r.cause == cause + [CauseEntry(source, Fit(message, 512), digest)]
      ensures |cause| >= 8 ==> r.cause == cause
      ensures r.causeTruncated <==> causeTruncated || |cause| >= 8
    {
      if |cause| >= MAX_CAUSE_ENTRIES then
        this.(causeTruncated := true)
      else
        this.(cause := cause + [CauseEntry(source, Fit(message, MAX_CAUSE_MESSAGE_BYTES), digest)])
    }
  }

  // ---------------------------------------------------------------------
  // Text measured in UTF-8 bytes
  // ---------------------------------------------------------------------

  /** Number of UTF-8 bytes of one character. */
  function Width(c: char): (w: nat)
    ensures 1 <= w <= 4
  {
    if c as int < 0x80 then 1
    else if c as int < 0x800 then 2
    else if c as int < 0x10000 then 3
    else 4
  }

  function Pow2(n: nat): nat {
    if n == 0 then 1 else 2 * Pow2(n - 1)
  }

  /** How many code points UTF-8 can write in `n` bytes, section 3 of RFC 3629. */
  function Capacity(n: nat): nat {
    if n == 1 then Pow2(7) else Pow2(5 * n + 1)
  }

  /** A character takes the least number of bytes that can hold it. */
  lemma WidthIsLeast(c: char)
    ensures (c as int) < Capacity(Width(c))
    ensures Width(c) > 1 ==> Capacity(Width(c) - 1) <= c as int
  {
    assert Pow2(7) == 0x80 && Pow2(11) == 0x800;
    assert Pow2(16) == 0x10000 by { assert Pow2(14) == 8 * Pow2(11); }
    assert Pow2(21) == 32 * Pow2(16) by { assert Pow2(19) == 8 * Pow2(16); }
  }

  function ByteLen(s: string): nat {
    if s == [] then 0 else Width(s[0]) + ByteLen(s[1..])
  }

  /** Byte offset `end` of `s` falls between two characters. */
  predicate IsCharBoundary(s: string, end: nat) {
    end == 0 || (s != [] && Width(s[0]) <= end && IsCharBoundary(s[1..], end - Width(s[0])))
  }

  /** The characters in the first `end` bytes of `s`. */
  function TakeBytes(s: string, end: nat): string
    requires IsCharBoundary(s, end)
  {
    if end == 0 then [] else [s[0]] + TakeBytes(s[1..], end - Width(s[0]))
  }

  /** The characters of `s`, from the front, that fit into `max` bytes. */
  function Fit(s: string, max: nat): (r: string)
    ensures r <= s
  {
    if s == [] || Width(s[0]) > max then []
    else [s[0]] + Fit(s[1..], max - Width(s[0]))
  }

  /** `Fit` is the longest prefix within the limit: it fits, and one more
      character would not. */
  lemma {:induction false} FitIsLongest(s: string, max: nat)
    ensures ByteLen(Fit(s, max)) <= max
    ensures Fit(s, max) == s || ByteLen(s[..|Fit(s, max)| + 1]) > max
    ensures ByteLen(s) <= max ==> Fit(s, max) == s
  {
    if s != [] && Width(s[0]) <= max {
      FitIsLongest(s[1..], max - Width(s[0]));
      var rest := Fit(s[1..], max - Width(s[0]));
      assert Fit(s, max)[1..] == rest;
      if rest == s[1..] {
        assert Fit(s, max) == s;
      } else {
        assert s[..|rest| + 2][1..] == s[1..][..|rest| + 1];
      }
    } else if s != [] {
      assert s[..1][1..] == [];
      assert ByteLen(s[..1]) == Width(s[0]);
    }
  }

  /** Cutting twice at the same limit is cutting once. */
  lemma {:induction false} FitTwice(s: string, max: nat)
    ensures Fit(Fit(s, max), max) == Fit(s, max)
  {
    FitIsLongest(s, max);
    FitIsLongest(Fit(s, max), max);
  }

  /** A cut costs at most the three bytes of a split character. */
  lemma {:induction false} FitLosesAtMostThreeBytes(s: string, max: nat)
    requires ByteLen(s) > max
    ensures max < ByteLen(Fit(s, max)) + 4
  {
    if Width(s[0]) <= max {
      FitLosesAtMostThreeBytes(s[1..], max - Width(s[0]));
      assert Fit(s, max)[1..] == Fit(s[1..], max - Width(s[0]));
    }
  }

  lemma {:induction false} TakeBytesIsFit(s: string, end: nat, max: nat)
    requires IsCharBoundary(s, end) && end <= max
    requires forall e: nat :: end < e <= max ==> !IsCharBoundary(s, e)
    ensures TakeBytes(s, end) == Fit(s, max)
  {
    if s != [] && Width(s[0]) <= max {
      assert IsCharBoundary(s[1..], 0);
      if end == 0 {
        assert IsCharBoundary(s, Width(s[0]));
        assert false;
      } else {
        forall e: nat | end - Width(s[0]) < e <= max - Width(s[0]) ensures !IsCharBoundary(s[1..], e) {
          assert !IsCharBoundary(s, e + Width(s[0]));
        }
        TakeBytesIsFit(s[1..], end - Width(s[0]), max - Width(s[0]));
      }
    } else if end != 0 {
      assert false;
    }
  }

  /** Searches backwards from the limit for a place to cut. */
  method TruncateBytes(s: string, max: nat) returns (r: string)
    ensures r == Fit(s, max)
  {
    if ByteLen(s) <= max {
      FitIsLongest(s, max);
      return s;
    }
    var end: nat := max;
    while end > 0 && !IsCharBoundary(s, end)
      invariant end <= max
      invariant forall e: nat :: end < e <= max ==> !IsCharBoundary(s, e)
    {
      end := end - 1;
    }
    TakeBytesIsFit(s, end, max);
    r := TakeBytes(s, end);
  }
}
