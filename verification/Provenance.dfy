/**
 Failure provenance of an agent run: what the records of a run's tool calls
 look like, and that following parent links from any of them ends where the
 unbroken block of failed calls began.
 */
module Provenance {
  import opened Wrappers
  import opened Failure
  import opened Redaction
  import opened Retry

  datatype ToolExecutionRecord = ToolExecutionRecord(
    callId: string,
    toolName: string,
    arguments: Json,
    output: string,
    success: bool,
    failure: Option<FailureRecord>,
    retryFailures: seq<FailureRecord>)

  /** All failed attempts of one call, oldest first. */
  function Records(call: ToolExecutionRecord): seq<FailureRecord> {
    call.retryFailures + if call.failure.Some? then [call.failure.value] else []
  }

  /** All failed attempts of a run, in the order they happened. */
  function AllRecords(calls: seq<ToolExecutionRecord>): seq<FailureRecord> {
    if calls == [] then [] else AllRecords(calls[..|calls| - 1]) + Records(calls[|calls| - 1])
  }

  /** The immediately preceding call, if it failed for good. */
  function ParentCall(calls: seq<ToolExecutionRecord>, j: nat): Option<string>
    requires j <= |calls|
  {
    if j > 0 && !calls[j - 1].success then Some(calls[j - 1].callId) else None
  }

  ghost predicate LinkedCall(call: ToolExecutionRecord, parent: Option<string>) {
    && (call.success <==> call.failure.None?)
    && forall i :: 0 <= i < |Records(call)| ==>
         && Records(call)[i].toolCallId == call.callId
         && Records(call)[i].parentCallId == parent
         && Records(call)[i].attempt == i + 1
  }

  /** Every record names its call, its parent and its attempt. */
  ghost predicate Linked(calls: seq<ToolExecutionRecord>) {
    forall j :: 0 <= j < |calls| ==> LinkedCall(calls[j], ParentCall(calls, j))
  }

  /** Failure numbers are 1, 2, ... in chronological order. */
  ghost predicate Chronological(calls: seq<ToolExecutionRecord>) {
    forall i :: 0 <= i < |AllRecords(calls)| ==> AllRecords(calls)[i].sequence == i + 1
  }

  ghost predicate DistinctCalls(calls: seq<ToolExecutionRecord>) {
    forall i, j :: 0 <= i < j < |calls| ==> calls[i].callId != calls[j].callId
  }

  /** The first call of the unbroken block of failed calls that ends with call `j`. */
  function BlockStart(calls: seq<ToolExecutionRecord>, j: nat): (b: nat)
    requires j < |calls|
    ensures b <= j
    ensures forall k :: b <= k < j ==> !calls[k].success
    ensures b == 0 || calls[b - 1].success
  {
    if j > 0 && !calls[j - 1].success then BlockStart(calls, j - 1) else j
  }

  // ---------------------------------------------------------------------
  // Searching the records of a run
  // ---------------------------------------------------------------------

  lemma {:induction false} AllRecordsHave(calls: seq<ToolExecutionRecord>, j: nat, i: nat)
    requires j < |calls| && i < |Records(calls[j])|
    ensures Records(calls[j])[i] in AllRecords(calls)
    ensures |AllRecords(calls)| >= |Records(calls[j])|
  {
    if j < |calls| - 1 {
      AllRecordsHave(calls[..|calls| - 1], j, i);
    } else {
      var a := AllRecords(calls[..|calls| - 1]);
      assert (a + Records(calls[j]))[|a| + i] == Records(calls[j])[i];
    }
  }

  /** A call that left records: it failed, or succeeded after retries. */
  predicate Recorded(calls: seq<ToolExecutionRecord>, j: int) {
    0 <= j < |calls| && Records(calls[j]) != []
  }

  /** The record of call `j` that was written last. */
  function LastRecord(calls: seq<ToolExecutionRecord>, j: nat): FailureRecord
    requires Recorded(calls, j)
  {
    Records(calls[j])[|Records(calls[j])| - 1]
  }

  lemma LinkedPrefix(calls: seq<ToolExecutionRecord>, n: nat)
    requires Linked(calls) && n <= |calls|
    ensures Linked(calls[..n])
  {
    forall j | 0 <= j < n ensures LinkedCall(calls[..n][j], ParentCall(calls[..n], j)) {
      assert LinkedCall(calls[j], ParentCall(calls, j));
    }
  }

  lemma {:induction false} FindLastSplit(a: seq<FailureRecord>, b: seq<FailureRecord>, id: string)
    ensures FindLast(a + b, id) == if FindLast(b, id).Some? then FindLast(b, id) else FindLast(a, id)
    decreases |b|
  {
    if b == [] {
      assert a + b == a;
    } else {
      assert (a + b)[..|a + b| - 1] == a + b[..|b| - 1];
      FindLastSplit(a, b[..|b| - 1], id);
    }
  }

  lemma {:induction false} FindFirstSplit(a: seq<FailureRecord>, b: seq<FailureRecord>, id: string, attempt: nat)
    ensures FindFirst(a + b, id, attempt) ==
      if FindFirst(a, id, attempt).Some? then FindFirst(a, id, attempt) else FindFirst(b, id, attempt)
    decreases |a|
  {
    if a == [] {
      assert a + b == b;
    } else {
      assert (a + b)[1..] == a[1..] + b;
      FindFirstSplit(a[1..], b, id, attempt);
    }
  }

  lemma AllRecordsSplit(calls: seq<ToolExecutionRecord>)
    requires calls != []
    ensures AllRecords(calls) == AllRecords(calls[..|calls| - 1]) + Records(calls[|calls| - 1])
  {
  }

  lemma LinkedAt(calls: seq<ToolExecutionRecord>, j: nat)
    requires Linked(calls) && j < |calls|
    ensures LinkedCall(calls[j], ParentCall(calls, j))
  {
  }

  lemma {:induction false} FindLastNone(rs: seq<FailureRecord>, id: string)
    requires forall k :: 0 <= k < |rs| ==> rs[k].toolCallId != id
    ensures FindLast(rs, id).None?
  {
  }

  lemma {:induction false} FindLastInCall(rs: seq<FailureRecord>, id: string)
    requires rs != [] && forall k :: 0 <= k < |rs| ==> rs[k].toolCallId == id
    ensures FindLast(rs, id) == Some(rs[|rs| - 1])
  {
  }

  /** No call after `j` left a record under the id of call `j`. */
  ghost predicate LastOfId(calls: seq<ToolExecutionRecord>, j: nat)
    requires j < |calls|
  {
    forall x :: j < x < |calls| && Recorded(calls, x) ==> calls[x].callId != calls[j].callId
  }

  /** Searching from the end finds the last record of the last call with that id. */
  lemma {:induction false} FindLastIn(calls: seq<ToolExecutionRecord>, j: nat)
    requires Linked(calls) && Recorded(calls, j) && LastOfId(calls, j)
    ensures FindLast(AllRecords(calls), calls[j].callId) == Some(LastRecord(calls, j))
    decreases |calls|
  {
    hide FindLast, AllRecords, Linked;
    var n := |calls| - 1;
    var rs := Records(calls[n]);
    AllRecordsSplit(calls);
    LinkedAt(calls, n);
    if calls[n].callId != calls[j].callId {
      FindLastNone(rs, calls[j].callId);
    }
    FindLastSplit(AllRecords(calls[..n]), rs, calls[j].callId);
    if j == n {
      FindLastInCall(rs, calls[j].callId);
    } else {
      LinkedPrefix(calls, n);
      forall x | j < x < n && Recorded(calls[..n], x) ensures calls[..n][x].callId != calls[j].callId {
        assert Recorded(calls, x);
      }
      FindLastIn(calls[..n], j);
      assert Recorded(calls, n) ==> calls[n].callId != calls[j].callId;
    }
  }

  lemma {:induction false} FindFirstInCall(rs: seq<FailureRecord>, id: string, base: nat, i: nat)
    requires i < |rs| && forall k :: 0 <= k < |rs| ==> rs[k].toolCallId == id && rs[k].attempt == base + k
    ensures FindFirst(rs, id, base + i) == Some(rs[i])
  {
    if i > 0 {
      FindFirstInCall(rs[1..], id, base + 1, i - 1);
    }
  }

  /** No call before `j` has an attempt `i + 1` on record under the same id. */
  ghost predicate FirstWith(calls: seq<ToolExecutionRecord>, j: nat, i: nat)
    requires j < |calls|
  {
    forall x :: 0 <= x < j && calls[x].callId == calls[j].callId ==> |Records(calls[x])| <= i
  }

  lemma {:induction false} FindFirstAbsent(calls: seq<ToolExecutionRecord>, id: string, i: nat)
    requires Linked(calls) && forall x :: 0 <= x < |calls| && calls[x].callId == id ==> |Records(calls[x])| <= i
    ensures FindFirst(AllRecords(calls), id, i + 1).None?
  {
    if calls != [] {
      var n := |calls| - 1;
      LinkedPrefix(calls, n);
      FindFirstAbsent(calls[..n], id, i);
      FindFirstSplit(AllRecords(calls[..n]), Records(calls[n]), id, i + 1);
      assert LinkedCall(calls[n], ParentCall(calls, n));
    }
  }

  /** Searching by call and attempt finds the record of the first call that has one. */
  lemma {:induction false} FindFirstIn(calls: seq<ToolExecutionRecord>, j: nat, i: nat)
    requires Linked(calls) && j < |calls| && i < |Records(calls[j])| && FirstWith(calls, j, i)
    ensures FindFirst(AllRecords(calls), calls[j].callId, i + 1) == Some(Records(calls[j])[i])
    decreases |calls|
  {
    hide FindFirst, AllRecords, Linked;
    var n := |calls| - 1;
    AllRecordsSplit(calls);
    LinkedAt(calls, n);
    FindFirstSplit(AllRecords(calls[..n]), Records(calls[n]), calls[j].callId, i + 1);
    LinkedPrefix(calls, n);
    if j == n {
      FindFirstAbsent(calls[..n], calls[n].callId, i);
      FindFirstInCall(Records(calls[n]), calls[n].callId, 1, i);
    } else {
      FindFirstIn(calls[..n], j, i);
    }
  }

  // ---------------------------------------------------------------------
  // Sequence numbers
  // ---------------------------------------------------------------------

  lemma {:induction false} LaterCallLaterNumber(calls: seq<ToolExecutionRecord>, k: nat, j: nat, a: nat, b: nat)
    requires Chronological(calls) && k < j < |calls|
    requires a < |Records(calls[k])| && b < |Records(calls[j])|
    ensures Records(calls[k])[a].sequence < Records(calls[j])[b].sequence
  {
    var n := |calls| - 1;
    var all, before := AllRecords(calls), AllRecords(calls[..n]);
    if j == n {
      AllRecordsHave(calls[..n], k, a);
      var x :| 0 <= x < |before| && before[x] == Records(calls[k])[a];
      assert all[x] == before[x];
      assert all[|before| + b] == Records(calls[j])[b];
    } else {
      forall i | 0 <= i < |before| ensures before[i].sequence == i + 1 {
        assert all[i] == before[i];
      }
      LaterCallLaterNumber(calls[..n], k, j, a, b);
    }
  }

  // ---------------------------------------------------------------------
  // The walk
  // ---------------------------------------------------------------------

  /** The terminal record of a failed call is its last one. */
  lemma TerminalIsLast(calls: seq<ToolExecutionRecord>, j: nat)
    requires Linked(calls) && j < |calls| && !calls[j].success
    ensures calls[j].failure.Some? && |Records(calls[j])| > 0
    ensures Records(calls[j])[|Records(calls[j])| - 1] == calls[j].failure.value
    ensures calls[j].failure.value.parentCallId == ParentCall(calls, j)
  {
    assert LinkedCall(calls[j], ParentCall(calls, j));
    var rs := Records(calls[j]);
    assert rs[|rs| - 1] == calls[j].failure.value;
  }

  /** One hop: the parent of any record of call `j`, if the preceding id is not used again. */
  lemma {:induction false} ParentIsPrecedingFailure(calls: seq<ToolExecutionRecord>, j: nat, i: nat)
    requires Linked(calls) && j < |calls| && i < |Records(calls[j])|
    requires j > 0 && !calls[j - 1].success ==> LastOfId(calls, j - 1)
    ensures ParentOf(AllRecords(calls), Records(calls[j])[i]) ==
      if j > 0 && !calls[j - 1].success then calls[j - 1].failure else None
  {
    assert LinkedCall(calls[j], ParentCall(calls, j));
    if j > 0 && !calls[j - 1].success {
      TerminalIsLast(calls, j - 1);
      FindLastIn(calls, j - 1);
    }
  }

  /** One hop between terminal records of neighbouring failed calls. */
  lemma Hop(calls: seq<ToolExecutionRecord>, j: nat, steps: nat)
    requires Linked(calls) && Chronological(calls) && j < |calls| && !calls[j].success && steps > 0
    requires j > 0 && !calls[j - 1].success ==> LastOfId(calls, j - 1)
    ensures calls[j].failure.Some? && (j > 0 && !calls[j - 1].success ==> calls[j - 1].failure.Some?)
    ensures Follow(AllRecords(calls), calls[j].failure.value, steps) ==
      if j > 0 && !calls[j - 1].success then Follow(AllRecords(calls), calls[j - 1].failure.value, steps - 1)
      else calls[j].failure.value
  {
    TerminalIsLast(calls, j);
    var rs := Records(calls[j]);
    ParentIsPrecedingFailure(calls, j, |rs| - 1);
    if j > 0 && !calls[j - 1].success {
      TerminalIsLast(calls, j - 1);
      LaterCallLaterNumber(calls, j - 1, j, |Records(calls[j - 1])| - 1, |rs| - 1);
    }
  }

  /** The ids of calls `b` up to `j` are not used again later. */
  ghost predicate NotReused(calls: seq<ToolExecutionRecord>, b: nat, j: nat)
    requires j <= |calls|
  {
    forall x :: b <= x < j ==> LastOfId(calls, x)
  }

  /** With enough steps the walk from a terminal record reaches the start of its block. */
  lemma {:induction false} FollowReachesBlockStart(calls: seq<ToolExecutionRecord>, j: nat, steps: nat)
    requires Linked(calls) && Chronological(calls) && j < |calls| && NotReused(calls, BlockStart(calls, j), j)
    requires !calls[j].success && steps > j - BlockStart(calls, j)
    ensures !calls[BlockStart(calls, j)].success
    ensures calls[BlockStart(calls, j)].failure.Some? && calls[j].failure.Some?
    ensures Follow(AllRecords(calls), calls[j].failure.value, steps) == calls[BlockStart(calls, j)].failure.value
    decreases j
  {
    hide Linked, Chronological, AllRecords, Follow, LastOfId;
    Hop(calls, j, steps);
    if j > 0 && !calls[j - 1].success {
      FollowReachesBlockStart(calls, j - 1, steps - 1);
    }
  }

  /** A block of failed calls has at least as many records as calls. */
  lemma {:induction false} BlockFits(calls: seq<ToolExecutionRecord>, j: nat)
    requires Linked(calls) && j < |calls| && !calls[j].success
    ensures j - BlockStart(calls, j) < |AllRecords(calls[..j + 1])|
  {
    assert LinkedCall(calls[j], ParentCall(calls, j));
    assert calls[..j + 1][..j] == calls[..j];
    if j > 0 && !calls[j - 1].success {
      BlockFits(calls, j - 1);
    }
  }

  lemma {:induction false} AllRecordsGrow(calls: seq<ToolExecutionRecord>, n: nat)
    requires n <= |calls|
    ensures |AllRecords(calls[..n])| <= |AllRecords(calls)|
    decreases |calls| - n
  {
    if n < |calls| {
      assert calls[..n + 1][..n] == calls[..n];
      AllRecordsGrow(calls, n + 1);
    } else {
      assert calls[..n] == calls;
    }
  }

  /** What the walk from record `i` of call `j` should answer: the terminal
      record of the call that began the block of failures just before call
      `j`, or the record itself when the preceding call did not fail. */
  function RootOf(calls: seq<ToolExecutionRecord>, j: nat, i: nat): (r: Option<FailureRecord>)
    requires j < |calls| && i < |Records(calls[j])|
  {
    if j > 0 && !calls[j - 1].success then calls[BlockStart(calls, j - 1)].failure else Some(Records(calls[j])[i])
  }

  lemma TerminalHasNoParent(calls: seq<ToolExecutionRecord>, b: nat)
    requires Linked(calls) && b < |calls| && !calls[b].success && (b == 0 || calls[b - 1].success)
    ensures calls[b].failure.Some? && calls[b].failure.value.parentCallId == None
  {
    TerminalIsLast(calls, b);
  }

  /** The walk from a record that is found under its own name, through ids that are not
      used again, ends at the start of its block, which has no parent. */
  lemma {:induction false} WalkEndsAtBlockStart(calls: seq<ToolExecutionRecord>, j: nat, i: nat)
    requires Linked(calls) && Chronological(calls) && j < |calls| && i < |Records(calls[j])|
    requires FirstWith(calls, j, i)
    requires j > 0 && !calls[j - 1].success ==> NotReused(calls, BlockStart(calls, j - 1), j)
    ensures RootOf(calls, j, i).Some? && RootOf(calls, j, i).value.parentCallId == None
    ensures RootCauseOf(AllRecords(calls), Records(calls[j])[i]) == RootOf(calls, j, i)
  {
    hide Chronological, AllRecords, FindFirst, FindLast, FirstWith, LastOfId;
    var all, r := AllRecords(calls), Records(calls[j])[i];
    assert LinkedCall(calls[j], ParentCall(calls, j));
    FindFirstIn(calls, j, i);
    ParentIsPrecedingFailure(calls, j, i);
    if j > 0 && !calls[j - 1].success {
      TerminalIsLast(calls, j - 1);
      LaterCallLaterNumber(calls, j - 1, j, |Records(calls[j - 1])| - 1, i);
      BlockFits(calls, j - 1);
      AllRecordsGrow(calls, j);
      FollowReachesBlockStart(calls, j - 1, |all|);
      TerminalHasNoParent(calls, BlockStart(calls, j - 1));
    }
  }

  /** Round trip: from any record of a run whose call ids are distinct, the
      bounded walk ends, before its bound, at the start of the unbroken block
      of failures that led to it; that record has no parent. */
  lemma {:induction false} RootCauseIsBlockStart(calls: seq<ToolExecutionRecord>, j: nat, i: nat)
    requires Linked(calls) && DistinctCalls(calls) && Chronological(calls)
    requires j < |calls| && i < |Records(calls[j])|
    ensures RootOf(calls, j, i).Some?
    ensures RootCauseOf(AllRecords(calls), Records(calls[j])[i]) == RootOf(calls, j, i)
    ensures RootOf(calls, j, i).value.parentCallId == None
  {
    WalkEndsAtBlockStart(calls, j, i);
  }
}
