/**
 For which runs the walk back finds the original failure of every record: exactly
 those in which call ids are repeated, if at all, in a harmless way.
 */
module RootCauseExact {
  import opened Wrappers
  import opened Failure
  import opened Retry
  import opened Provenance

  /** From every record the walk ends where it should. */
  ghost predicate WalksRight(calls: seq<ToolExecutionRecord>) {
    forall j: nat, i: nat :: j < |calls| && i < |Records(calls[j])| ==> WalkIsRight(calls, j, i)
  }

  ghost predicate WalkIsRight(calls: seq<ToolExecutionRecord>, j: nat, i: nat)
    requires j < |calls| && i < |Records(calls[j])|
  {
    RootCauseOf(AllRecords(calls), Records(calls[j])[i]) == RootOf(calls, j, i)
  }

  /** Two calls left records under one id. */
  ghost predicate Repeat(calls: seq<ToolExecutionRecord>, k: int, j: int) {
    0 <= k < j < |calls| && Recorded(calls, k) && Recorded(calls, j) && calls[k].callId == calls[j].callId
  }

  /** No earlier call left a record under this id. */
  ghost predicate FirstOfId(calls: seq<ToolExecutionRecord>, k: nat)
    requires k < |calls|
  {
    forall x :: 0 <= x < k && Recorded(calls, x) ==> calls[x].callId != calls[k].callId
  }

  /** A repeat is harmless if everything from the one call up to the other failed under
      the same id; if no failure under that id is followed by records of another id; and if
      the first call under it has at least as many failed attempts on record, and only one
      unless a failure came before it. */
  ghost predicate HarmlessRepeat(calls: seq<ToolExecutionRecord>, k: nat, j: nat)
    requires Repeat(calls, k, j)
  {
    && (forall x :: k <= x < j ==> !calls[x].success && calls[x].callId == calls[k].callId)
    && (!calls[j].success && Recorded(calls, j + 1) ==> calls[j + 1].callId == calls[k].callId)
    && (FirstOfId(calls, k) ==>
          && |Records(calls[j])| <= |Records(calls[k])|
          && (ParentCall(calls, k).None? ==> |Records(calls[k])| == 1))
  }

  ghost predicate Harmless(calls: seq<ToolExecutionRecord>) {
    forall k: nat, j: nat :: Repeat(calls, k, j) ==> HarmlessRepeat(calls, k, j)
  }

  // ---------------------------------------------------------------------
  // First and last calls under an id
  // ---------------------------------------------------------------------

  lemma {:induction false} LastUnder(calls: seq<ToolExecutionRecord>, j: nat) returns (l: nat)
    requires Recorded(calls, j)
    ensures j <= l && Recorded(calls, l) && calls[l].callId == calls[j].callId && LastOfId(calls, l)
    decreases |calls| - j
  {
    if x :| j < x < |calls| && Recorded(calls, x) && calls[x].callId == calls[j].callId {
      l := LastUnder(calls, x);
    } else {
      l := j;
    }
  }

  lemma {:induction false} FirstUnder(calls: seq<ToolExecutionRecord>, j: nat, i: nat) returns (f: nat)
    requires j < |calls| && i < |Records(calls[j])|
    ensures f <= j && i < |Records(calls[f])| && calls[f].callId == calls[j].callId && FirstWith(calls, f, i)
    decreases j
  {
    if x :| 0 <= x < j && calls[x].callId == calls[j].callId && |Records(calls[x])| > i {
      f := FirstUnder(calls, x, i);
    } else {
      f := j;
    }
  }

  lemma FailedIsRecorded(calls: seq<ToolExecutionRecord>, j: nat)
    requires Linked(calls) && j < |calls| && !calls[j].success
    ensures Recorded(calls, j) && calls[j].failure == Some(LastRecord(calls, j))
  {
    TerminalIsLast(calls, j);
  }

  /** Records of different calls are different. */
  lemma OneCallPerRecord(calls: seq<ToolExecutionRecord>, k: nat, j: nat, a: nat, b: nat)
    requires Chronological(calls) && k < |calls| && j < |calls|
    requires a < |Records(calls[k])| && b < |Records(calls[j])| && Records(calls[k])[a] == Records(calls[j])[b]
    ensures k == j
  {
    if k < j {
      LaterCallLaterNumber(calls, k, j, a, b);
    } else if j < k {
      LaterCallLaterNumber(calls, j, k, b, a);
    }
  }

  // ---------------------------------------------------------------------
  // Harmless repeats do no harm
  // ---------------------------------------------------------------------

  /** The id of a failed call that leads on to a record of another id is not used again. */
  lemma {:induction false} LeadingIdNotReused(calls: seq<ToolExecutionRecord>, x: nat, f: nat)
    requires Linked(calls) && Harmless(calls) && x < f && Recorded(calls, f) && FirstOfId(calls, f)
    requires forall y :: x <= y < f ==> !calls[y].success
    ensures LastOfId(calls, x)
    decreases f - x
  {
    FailedIsRecorded(calls, x);
    forall y | x < y < |calls| && Recorded(calls, y) ensures calls[y].callId != calls[x].callId {
      if calls[y].callId == calls[x].callId {
        ReuseReaches(calls, x, y, f);
      }
    }
  }

  lemma ReuseReaches(calls: seq<ToolExecutionRecord>, x: nat, y: nat, f: nat)
    requires Linked(calls) && Harmless(calls) && Repeat(calls, x, y) && x < f && Recorded(calls, f)
    requires forall z :: x <= z < f ==> !calls[z].success
    ensures calls[f].callId == calls[x].callId
  {
    assert HarmlessRepeat(calls, x, y);
    if y < f {
      SameUpTo(calls, x, y, f);
    }
  }

  lemma NextIsRecorded(calls: seq<ToolExecutionRecord>, y: nat, f: nat)
    requires Linked(calls) && y < f && Recorded(calls, f) && forall z :: y <= z < f ==> !calls[z].success
    ensures Recorded(calls, y + 1)
  {
    if y + 1 < f {
      FailedIsRecorded(calls, y + 1);
    }
  }

  /** A repeat inside a block carries its id on through the block. */
  lemma {:induction false} SameUpTo(calls: seq<ToolExecutionRecord>, x: nat, y: nat, f: nat)
    requires Linked(calls) && Harmless(calls) && Repeat(calls, x, y) && y < f && Recorded(calls, f)
    requires forall z :: x <= z < f ==> !calls[z].success
    ensures calls[f].callId == calls[x].callId
    decreases f - y
  {
    assert HarmlessRepeat(calls, x, y);
    NextIsRecorded(calls, y, f);
    if y + 1 < f {
      SameUpTo(calls, x, y + 1, f);
    }
  }

  lemma FirstWalksRight(calls: seq<ToolExecutionRecord>, f: nat, i: nat)
    requires Linked(calls) && Chronological(calls) && Harmless(calls)
    requires f < |calls| && i < |Records(calls[f])| && FirstOfId(calls, f)
    ensures WalkIsRight(calls, f, i)
  {
    if f > 0 && !calls[f - 1].success {
      var b := BlockStart(calls, f - 1);
      forall x | b <= x < f ensures LastOfId(calls, x) {
        LeadingIdNotReused(calls, x, f);
      }
    }
    WalkEndsAtBlockStart(calls, f, i);
  }

  /** The call under whose name the walk from call `j` starts. */
  lemma FirstOfRepeats(calls: seq<ToolExecutionRecord>, j: nat) returns (f: nat)
    requires Recorded(calls, j)
    ensures f <= j && Recorded(calls, f) && calls[f].callId == calls[j].callId && FirstOfId(calls, f)
  {
    f := FirstUnder(calls, j, 0);
  }

  lemma SameStart(calls: seq<ToolExecutionRecord>, k: nat, j: nat, i: nat)
    requires Linked(calls) && k < |calls| && j < |calls| && calls[k].callId == calls[j].callId
    requires i < |Records(calls[k])| && i < |Records(calls[j])|
    ensures RootCauseOf(AllRecords(calls), Records(calls[k])[i]) == RootCauseOf(AllRecords(calls), Records(calls[j])[i])
  {
    LinkedAt(calls, k);
    LinkedAt(calls, j);
  }

  lemma {:induction false} BlockStartsTogether(calls: seq<ToolExecutionRecord>, k: nat, j: nat)
    requires k <= j < |calls| && forall x :: k <= x < j ==> !calls[x].success
    ensures BlockStart(calls, j) == BlockStart(calls, k)
  {
    if k < j {
      BlockStartsTogether(calls, k, j - 1);
    }
  }

  /** The answers for two harmless repeats are the same record. */
  lemma SameRoot(calls: seq<ToolExecutionRecord>, k: nat, j: nat, i: nat)
    requires Linked(calls) && Repeat(calls, k, j) && HarmlessRepeat(calls, k, j) && FirstOfId(calls, k)
    requires i < |Records(calls[j])|
    ensures i < |Records(calls[k])| && RootOf(calls, j, i) == RootOf(calls, k, i)
  {
    assert !calls[j - 1].success;
    BlockStartsTogether(calls, k, j - 1);
    if ParentCall(calls, k).None? {
      FailedIsRecorded(calls, k);
    } else {
      BlockStartsTogether(calls, k - 1, k);
    }
  }

  lemma HarmlessWalksRight(calls: seq<ToolExecutionRecord>, j: nat, i: nat)
    requires Linked(calls) && Chronological(calls) && Harmless(calls)
    requires j < |calls| && i < |Records(calls[j])|
    ensures WalkIsRight(calls, j, i)
  {
    var f := FirstOfRepeats(calls, j);
    if f < j {
      assert Repeat(calls, f, j);
      SameRoot(calls, f, j, i);
      SameStart(calls, f, j, i);
    }
    FirstWalksRight(calls, f, i);
  }

  // ---------------------------------------------------------------------
  // Any other repeat does
  // ---------------------------------------------------------------------

  /** Some record of a call from `g` on. */
  ghost predicate From(calls: seq<ToolExecutionRecord>, g: nat, r: FailureRecord) {
    exists d, a :: g <= d < |calls| && 0 <= a < |Records(calls[d])| && Records(calls[d])[a] == r
  }

  /** The id of call `g - 1` is used again by call `y`. */
  ghost predicate Barrier(calls: seq<ToolExecutionRecord>, g: nat, y: nat) {
    0 < g <= y && Recorded(calls, y) && calls[g - 1].callId == calls[y].callId
  }

  lemma ParentStays(calls: seq<ToolExecutionRecord>, g: nat, y: nat, r: FailureRecord)
    requires Linked(calls) && Barrier(calls, g, y) && From(calls, g, r)
    ensures ParentOf(AllRecords(calls), r).Some? ==> From(calls, g, ParentOf(AllRecords(calls), r).value)
  {
    var c, a :| g <= c < |calls| && 0 <= a < |Records(calls[c])| && Records(calls[c])[a] == r;
    LinkedAt(calls, c);
    if !calls[c - 1].success {
      FailedIsRecorded(calls, c - 1);
      var l := LastUnder(calls, if c == g then y else c - 1);
      FindLastIn(calls, l);
      assert Records(calls[l])[|Records(calls[l])| - 1] == LastRecord(calls, l);
    }
  }

  lemma FollowStep(all: seq<FailureRecord>, r: FailureRecord, steps: nat)
    ensures Follow(all, r, 0) == r
    ensures steps > 0 ==>
      var parent := ParentOf(all, r);
      Follow(all, r, steps) ==
        if parent.Some? && parent.value.sequence != r.sequence then Follow(all, parent.value, steps - 1) else r
  {
    hide ParentOf;
  }

  /** Past such a point the walk never comes back. */
  lemma {:induction false} WalkStays(calls: seq<ToolExecutionRecord>, g: nat, y: nat, r: FailureRecord, steps: nat)
    requires Linked(calls) && Barrier(calls, g, y) && From(calls, g, r)
    ensures From(calls, g, Follow(AllRecords(calls), r, steps))
    decreases steps
  {
    hide Linked, Barrier, From, AllRecords, ParentOf, Follow;
    var all := AllRecords(calls);
    FollowStep(all, r, steps);
    if steps > 0 {
      ParentStays(calls, g, y, r);
      var parent := ParentOf(all, r);
      if parent.Some? && parent.value.sequence != r.sequence {
        WalkStays(calls, g, y, parent.value, steps - 1);
      }
    }
  }

  lemma WalkFrom(calls: seq<ToolExecutionRecord>, g: nat, y: nat, c: nat, i: nat, f: nat)
    requires Linked(calls) && Barrier(calls, g, y) && c < |calls| && i < |Records(calls[c])|
    requires g <= f < |calls| && i < |Records(calls[f])| && calls[f].callId == calls[c].callId && FirstWith(calls, f, i)
    ensures var r := RootCauseOf(AllRecords(calls), Records(calls[c])[i]); r.Some? && From(calls, g, r.value)
  {
    hide Follow, FindFirst, AllRecords, Barrier, FirstWith;
    LinkedAt(calls, c);
    FindFirstIn(calls, f, i);
    assert From(calls, g, Records(calls[f])[i]);
    WalkStays(calls, g, y, Records(calls[f])[i], |AllRecords(calls)| + 1);
  }

  lemma NotFrom(calls: seq<ToolExecutionRecord>, g: nat, b: nat, a: nat)
    requires Chronological(calls) && b < g && b < |calls| && a < |Records(calls[b])|
    ensures !From(calls, g, Records(calls[b])[a])
  {
    hide Chronological;
    if From(calls, g, Records(calls[b])[a]) {
      var d, m :| g <= d < |calls| && 0 <= m < |Records(calls[d])| && Records(calls[d])[m] == Records(calls[b])[a];
      OneCallPerRecord(calls, b, d, a, m);
    }
  }

  lemma OneWrongWalk(calls: seq<ToolExecutionRecord>, j: nat, i: nat)
    requires j < |calls| && i < |Records(calls[j])| && !WalkIsRight(calls, j, i)
    ensures !WalksRight(calls)
  {
  }

  /** A walk that starts past a barrier cannot find an original failure before it. */
  lemma WrongPastBarrier(calls: seq<ToolExecutionRecord>, g: nat, y: nat, c: nat, i: nat, f: nat)
    requires Linked(calls) && Chronological(calls) && Barrier(calls, g, y)
    requires c < |calls| && i < |Records(calls[c])| && c > 0 && !calls[c - 1].success && BlockStart(calls, c - 1) < g
    requires g <= f < |calls| && i < |Records(calls[f])| && calls[f].callId == calls[c].callId && FirstWith(calls, f, i)
    ensures !WalkIsRight(calls, c, i) && !WalksRight(calls)
  {
    hide Linked, Chronological, Barrier, From, RootCauseOf, AllRecords, FirstWith, WalksRight;
    WalkFrom(calls, g, y, c, i, f);
    var b := BlockStart(calls, c - 1);
    FailedIsRecorded(calls, b);
    NotFrom(calls, g, b, |Records(calls[b])| - 1);
    OneWrongWalk(calls, c, i);
  }

  /** Between two right repeats everything failed. */
  lemma RightRepeatsShareBlock(calls: seq<ToolExecutionRecord>, k: nat, j: nat)
    requires Linked(calls) && Chronological(calls) && WalksRight(calls) && Repeat(calls, k, j)
    ensures forall x :: k <= x < j ==> !calls[x].success
    ensures ParentCall(calls, k).None? ==> |Records(calls[k])| == 1
  {
    hide RootCauseOf, AllRecords, Linked, Chronological;
    SameStart(calls, k, j, 0);
    assert WalkIsRight(calls, k, 0) && WalkIsRight(calls, j, 0);
    assert RootOf(calls, k, 0) == RootOf(calls, j, 0);
    var r := RootOf(calls, k, 0);
    var ck, ak := RootCall(calls, k, 0);
    var cj, aj := RootCall(calls, j, 0);
    OneCallPerRecord(calls, ck, cj, ak, aj);
    if ParentCall(calls, k).None? {
      LinkedAt(calls, k);
      assert Records(calls[k])[0].attempt == Records(calls[k])[aj].attempt;
    }
  }

  /** The call to which the right answer belongs, and the place of the answer in it. */
  lemma RootCall(calls: seq<ToolExecutionRecord>, j: nat, i: nat) returns (c: nat, a: nat)
    requires Linked(calls) && j < |calls| && i < |Records(calls[j])|
    ensures c <= j && a < |Records(calls[c])| && RootOf(calls, j, i) == Some(Records(calls[c])[a])
    ensures ParentCall(calls, j).None? ==> c == j && a == i
    ensures ParentCall(calls, j).Some? ==>
      j > 0 && c == BlockStart(calls, j - 1) < j && !calls[j - 1].success && a == |Records(calls[c])| - 1
  {
    if j > 0 && !calls[j - 1].success {
      c := BlockStart(calls, j - 1);
      FailedIsRecorded(calls, c);
      a := |Records(calls[c])| - 1;
    } else {
      c, a := j, i;
    }
  }

  lemma {:induction false} FirstGap(calls: seq<ToolExecutionRecord>, k: nat, x: nat) returns (g: nat)
    requires k < x < |calls| && calls[x].callId != calls[k].callId
    ensures k < g <= x && calls[g].callId != calls[k].callId
    ensures forall y :: k <= y < g ==> calls[y].callId == calls[k].callId
    decreases x
  {
    if y :| k < y < x && calls[y].callId != calls[k].callId {
      g := FirstGap(calls, k, y);
    } else {
      g := x;
    }
  }

  /** A repeat with another id in between sends some walk astray. */
  lemma {:induction false} GapIsWrong(calls: seq<ToolExecutionRecord>, k: nat, j: nat, x: nat)
    requires Linked(calls) && Chronological(calls) && Repeat(calls, k, j)
    requires k < x < j && calls[x].callId != calls[k].callId
    ensures !WalksRight(calls)
    decreases k
  {
    if WalksRight(calls) {
      hide WalkIsRight, WalksRight, Linked, Chronological;
      RightRepeatsShareBlock(calls, k, j);
      var g := FirstGap(calls, k, x);
      FailedIsRecorded(calls, g);
      var f := FirstUnder(calls, g, 0);
      if f < g {
        assert f < k && Repeat(calls, f, g);
        GapIsWrong(calls, f, g, k);
      } else {
        BlockStartsTogether(calls, k, g - 1);
        WrongPastBarrier(calls, g, j, g, 0, f);
      }
    }
  }

  /** A repeat that fails and is followed by records of another id does too. */
  lemma FollowedIsWrong(calls: seq<ToolExecutionRecord>, k: nat, j: nat)
    requires Linked(calls) && Chronological(calls) && Repeat(calls, k, j)
    requires !calls[j].success && Recorded(calls, j + 1) && calls[j + 1].callId != calls[k].callId
    ensures !WalksRight(calls)
  {
    if WalksRight(calls) {
      hide WalkIsRight, WalksRight, Linked, Chronological;
      RightRepeatsShareBlock(calls, k, j);
      var f := FirstUnder(calls, j + 1, 0);
      if calls[j - 1].callId != calls[k].callId {
        GapIsWrong(calls, k, j, j - 1);
      } else if f <= j {
        if f < k {
          assert Repeat(calls, f, j + 1);
          GapIsWrong(calls, f, j + 1, k);
        } else {
          GapIsWrong(calls, k, j, f);
        }
      } else {
        BlockStartsTogether(calls, k, j);
        WrongPastBarrier(calls, j, j, j + 1, 0, f);
      }
    }
  }

  /** So does a repeat with more failed attempts than the first call under its id. */
  lemma LongerIsWrong(calls: seq<ToolExecutionRecord>, k: nat, j: nat)
    requires Linked(calls) && Chronological(calls) && Repeat(calls, k, j) && FirstOfId(calls, k)
    requires |Records(calls[j])| > |Records(calls[k])|
    ensures !WalksRight(calls)
  {
    if WalksRight(calls) {
      hide WalkIsRight, WalksRight, Linked, Chronological;
      RightRepeatsShareBlock(calls, k, j);
      var i := |Records(calls[k])|;
      var f := FirstUnder(calls, j, i);
      assert Recorded(calls, f);
      BlockStartsTogether(calls, k, j - 1);
      WrongPastBarrier(calls, k + 1, j, j, i, f);
    }
  }

  lemma RightRepeatIsHarmless(calls: seq<ToolExecutionRecord>, k: nat, j: nat)
    requires Linked(calls) && Chronological(calls) && WalksRight(calls) && Repeat(calls, k, j)
    ensures HarmlessRepeat(calls, k, j)
  {
    hide WalksRight, Linked, Chronological;
    RightRepeatsShareBlock(calls, k, j);
    forall x | k <= x < j ensures calls[x].callId == calls[k].callId {
      if calls[x].callId != calls[k].callId {
        GapIsWrong(calls, k, j, x);
      }
    }
    if !calls[j].success && Recorded(calls, j + 1) && calls[j + 1].callId != calls[k].callId {
      FollowedIsWrong(calls, k, j);
    }
    if FirstOfId(calls, k) && |Records(calls[j])| > |Records(calls[k])| {
      LongerIsWrong(calls, k, j);
    }
  }

  /** The walk finds the original failure from every record of a run if and only if
      all repeats of call ids in it are harmless. */
  lemma RootCauseExactly(calls: seq<ToolExecutionRecord>)
    requires Linked(calls) && Chronological(calls)
    ensures WalksRight(calls) <==> Harmless(calls)
  {
    hide WalkIsRight, HarmlessRepeat, Linked, Chronological;
    if WalksRight(calls) {
      forall k: nat, j: nat | Repeat(calls, k, j) ensures HarmlessRepeat(calls, k, j) {
        RightRepeatIsHarmless(calls, k, j);
      }
    }
    if Harmless(calls) {
      forall j: nat, i: nat | j < |calls| && i < |Records(calls[j])| ensures WalkIsRight(calls, j, i) {
        HarmlessWalksRight(calls, j, i);
      }
    }
  }
}
