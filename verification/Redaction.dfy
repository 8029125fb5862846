/**
 Redaction of argument values echoed in error texts: every string argument of
 at least four bytes is replaced, longest first, by a placeholder. When does
 no argument survive?
 */
module Redaction {
  import opened Failure

  const PLACEHOLDER: string := "[redacted]"

  datatype Json =
    | JNull
    | JBool(b: bool)
    | JNumber(text: string)
    | JString(s: string)
    | JArray(items: seq<Json>)
    | JObject(names: seq<string>, values: seq<Json>)

  // ---------------------------------------------------------------------
  // The code
  // ---------------------------------------------------------------------

  /** String values of four bytes or more, at any depth; member names do not count. */
  function CollectStrings(v: Json): seq<string> {
    match v
    case JString(s) => if ByteLen(s) >= 4 then [s] else []
    case JArray(items) => CollectItems(items)
    case JObject(_, values) => CollectItems(values)
    case _ => []
  }

  function CollectItems(items: seq<Json>): seq<string> {
    if items == [] then [] else CollectStrings(items[0]) + CollectItems(items[1..])
  }

  /** Stable insertion by falling byte length. */
  function InsertLongest(v: string, vs: seq<string>): seq<string> {
    if vs == [] || ByteLen(v) >= ByteLen(vs[0]) then [v] + vs
    else [vs[0]] + InsertLongest(v, vs[1..])
  }

  function LongestFirst(vs: seq<string>): seq<string> {
    if vs == [] then [] else InsertLongest(vs[0], LongestFirst(vs[1..]))
  }

  ghost predicate Contains(s: string, v: string) {
    exists k :: OccursAt(s, v, k)
  }

  /** The test the code makes before replacing. */
  predicate Occurs(s: string, v: string)
    ensures Occurs(s, v) <==> Contains(s, v)
  {
    exists k :: 0 <= k <= |s| && OccursAt(s, v, k)
  }

  predicate OccursAt(s: string, v: string, k: int) {
    0 <= k && k + |v| <= |s| && s[k..k + |v|] == v
  }

  /** Replaces the non-overlapping occurrences of `v`, left to right. */
  function ReplaceAll(s: string, v: string, with_: string): string
    requires v != []
  {
    if |s| < |v| then s
    else if s[..|v|] == v then with_ + ReplaceAll(s[|v|..], v, with_)
    else [s[0]] + ReplaceAll(s[1..], v, with_)
  }

  function RedactValues(out: string, values: seq<string>): string
    requires forall i :: 0 <= i < |values| ==> values[i] != []
    decreases values
  {
    if values == [] then out
    else RedactValues(ReplaceAll(out, values[0], PLACEHOLDER), values[1..])
  }

  function Values(args: Json): (vs: seq<string>)
    ensures forall i :: 0 <= i < |vs| ==> ByteLen(vs[i]) >= 4 && vs[i] != []
  {
    CollectedAreLong(args);
    LongestFirstKeeps(CollectStrings(args));
    LongestFirst(CollectStrings(args))
  }

  function Redact(message: string, args: Json): string {
    RedactValues(message, Values(args))
  }

  // ---------------------------------------------------------------------
  // Collecting and sorting lose nothing
  // ---------------------------------------------------------------------

  lemma {:induction false} CollectedAreLong(v: Json)
    ensures forall s :: s in CollectStrings(v) ==> ByteLen(s) >= 4 && s != []
  {
    match v
    case JArray(items) => ItemsAreLong(items);
    case JObject(_, values) => ItemsAreLong(values);
    case _ =>
  }

  lemma {:induction false} ItemsAreLong(items: seq<Json>)
    ensures forall s :: s in CollectItems(items) ==> ByteLen(s) >= 4 && s != []
  {
    if items != [] {
      CollectedAreLong(items[0]);
      ItemsAreLong(items[1..]);
    }
  }

  /** A string sits somewhere inside an argument value. */
  ghost predicate HasString(v: Json, s: string) {
    match v
    case JString(t) => s == t
    case JArray(items) => exists i :: 0 <= i < |items| && HasString(items[i], s)
    case JObject(_, values) => exists i :: 0 <= i < |values| && HasString(values[i], s)
    case _ => false
  }

  /** Collected are exactly the strings of at least four bytes, at any nesting. */
  lemma {:induction false} CollectedExactly(v: Json, s: string)
    ensures s in CollectStrings(v) <==> HasString(v, s) && ByteLen(s) >= 4
  {
    match v
    case JArray(items) => ItemsExactly(items, s);
    case JObject(_, values) => ItemsExactly(values, s);
    case _ =>
  }

  lemma {:induction false} ItemsExactly(items: seq<Json>, s: string)
    ensures s in CollectItems(items) <==> (exists i :: 0 <= i < |items| && HasString(items[i], s)) && ByteLen(s) >= 4
  {
    if items != [] {
      CollectedExactly(items[0], s);
      ItemsExactly(items[1..], s);
      if exists i :: 0 <= i < |items| && HasString(items[i], s) {
        var i :| 0 <= i < |items| && HasString(items[i], s);
        assert i > 0 ==> items[1..][i - 1] == items[i];
      }
      if exists i :: 0 <= i < |items[1..]| && HasString(items[1..][i], s) {
        var i :| 0 <= i < |items[1..]| && HasString(items[1..][i], s);
        assert HasString(items[i + 1], s);
      }
    }
  }

  ghost predicate FallingLength(vs: seq<string>) {
    forall i, j :: 0 <= i < j < |vs| ==> ByteLen(vs[i]) >= ByteLen(vs[j])
  }

  lemma {:induction false} InsertKeepsAll(v: string, vs: seq<string>)
    ensures multiset(InsertLongest(v, vs)) == multiset(vs) + multiset{v}
  {
    if vs != [] && ByteLen(v) < ByteLen(vs[0]) {
      InsertKeepsAll(v, vs[1..]);
      assert vs == [vs[0]] + vs[1..];
    }
  }

  lemma {:induction false} InsertFalls(v: string, vs: seq<string>, top: nat)
    requires FallingLength(vs) && ByteLen(v) <= top && (vs != [] ==> ByteLen(vs[0]) <= top)
    ensures FallingLength(InsertLongest(v, vs))
    ensures forall j :: 0 <= j < |InsertLongest(v, vs)| ==> ByteLen(InsertLongest(v, vs)[j]) <= top
  {
    if vs != [] && ByteLen(v) < ByteLen(vs[0]) {
      InsertFalls(v, vs[1..], ByteLen(vs[0]));
    }
  }

  lemma {:induction false} SortFalls(vs: seq<string>)
    ensures FallingLength(LongestFirst(vs))
  {
    if vs != [] {
      SortFalls(vs[1..]);
      var rest := LongestFirst(vs[1..]);
      InsertFalls(vs[0], rest, ByteLen(vs[0]) + if rest == [] then 0 else ByteLen(rest[0]));
    }
  }

  lemma {:induction false} SortKeepsAll(vs: seq<string>)
    ensures multiset(LongestFirst(vs)) == multiset(vs)
  {
    if vs != [] {
      SortKeepsAll(vs[1..]);
      InsertKeepsAll(vs[0], LongestFirst(vs[1..]));
      assert vs == [vs[0]] + vs[1..];
    }
  }

  /** Sorting keeps every value and puts longer ones first. */
  lemma LongestFirstKeeps(vs: seq<string>)
    ensures FallingLength(LongestFirst(vs))
    ensures multiset(LongestFirst(vs)) == multiset(vs)
    ensures forall v :: v in LongestFirst(vs) <==> v in vs
  {
    SortFalls(vs);
    SortKeepsAll(vs);
    forall v ensures v in LongestFirst(vs) <==> v in vs {
      assert v in LongestFirst(vs) <==> v in multiset(LongestFirst(vs));
      assert v in vs <==> v in multiset(vs);
    }
  }

  // ---------------------------------------------------------------------
  // No value survives unless it overlaps the placeholder
  // ---------------------------------------------------------------------

  /** `w` disagrees with the placeholder at every offset at which the two overlap. */
  ghost predicate Apart(w: string) {
    forall o :: -|w| < o < |PLACEHOLDER| ==> Disagree(w, o)
  }

  ghost predicate Disagree(w: string, o: int) {
    exists i :: 0 <= i < |w| && 0 <= i + o < |PLACEHOLDER| && w[i] != PLACEHOLDER[i + o]
  }

  lemma TouchingDisagrees(w: string, x: string, y: string, k: nat)
    requires Apart(w) && |x| < k + |w| && k < |x| + |PLACEHOLDER|
    ensures !OccursAt(x + PLACEHOLDER + y, w, k)
  {
    var s := x + PLACEHOLDER + y;
    assert Disagree(w, k - |x|);
    var i :| 0 <= i < |w| && 0 <= i + (k - |x|) < |PLACEHOLDER| && w[i] != PLACEHOLDER[i + (k - |x|)];
    assert s[k + i] == PLACEHOLDER[i + (k - |x|)];
    assert k + |w| <= |s| ==> s[k..k + |w|][i] == s[k + i];
  }

  lemma OccursInGlue(w: string, x: string, y: string, k: nat)
    requires w != [] && Apart(w) && OccursAt(x + PLACEHOLDER + y, w, k)
    ensures Contains(x, w) || Contains(y, w)
  {
    var s := x + PLACEHOLDER + y;
    if k + |w| <= |x| {
      assert x[k..k + |w|] == s[k..k + |w|];
      assert OccursAt(x, w, k);
    } else if k >= |x| + |PLACEHOLDER| {
      var m := k - |x| - |PLACEHOLDER|;
      assert y[m..m + |w|] == s[k..k + |w|];
      assert OccursAt(y, w, m);
    } else {
      TouchingDisagrees(w, x, y, k);
    }
  }

  /** A value apart from the placeholder cannot appear across an inserted one. */
  lemma ApartGlue(w: string, x: string, y: string)
    requires w != [] && Apart(w) && !Contains(x, w) && !Contains(y, w)
    ensures !Contains(x + PLACEHOLDER + y, w)
  {
    if Contains(x + PLACEHOLDER + y, w) {
      var k :| OccursAt(x + PLACEHOLDER + y, w, k);
      OccursInGlue(w, x, y, k);
    }
  }

  lemma PrefixContains(x: string, s: string, w: string)
    requires Contains(x, w)
    ensures Contains(x + s, w)
  {
    var k :| OccursAt(x, w, k);
    assert (x + s)[k..k + |w|] == x[k..k + |w|];
    assert OccursAt(x + s, w, k);
  }

  lemma SuffixContains(x: string, s: string, w: string)
    requires Contains(s, w)
    ensures Contains(x + s, w)
  {
    var k :| OccursAt(s, w, k);
    assert (x + s)[|x| + k..|x| + k + |w|] == s[k..k + |w|];
    assert OccursAt(x + s, w, |x| + k);
  }

  /** Replacing some value never brings back a value that does not occur.
      `x` is the text already emitted since the last replacement. */
  lemma {:induction false} ReplaceKeepsAbsent(w: string, x: string, s: string, v: string)
    requires v != [] && w != [] && Apart(w) && !Contains(x + s, w)
    ensures !Contains(x + ReplaceAll(s, v, PLACEHOLDER), w)
    decreases |s|
  {
    if |s| >= |v| {
      if s[..|v|] == v {
        var t := s[|v|..];
        assert x + s == (x + v) + t;
        if Contains(t, w) { SuffixContains(x + v, t, w); }
        if Contains(x, w) { PrefixContains(x, s, w); }
        assert [] + t == t && [] + ReplaceAll(t, v, PLACEHOLDER) == ReplaceAll(t, v, PLACEHOLDER);
        ReplaceKeepsAbsent(w, [], t, v);
        ApartGlue(w, x, ReplaceAll(t, v, PLACEHOLDER));
        assert x + ReplaceAll(s, v, PLACEHOLDER) == x + PLACEHOLDER + ReplaceAll(t, v, PLACEHOLDER);
      } else {
        assert x + s == (x + [s[0]]) + s[1..];
        ReplaceKeepsAbsent(w, x + [s[0]], s[1..], v);
        assert x + ReplaceAll(s, v, PLACEHOLDER) == (x + [s[0]]) + ReplaceAll(s[1..], v, PLACEHOLDER);
      }
    }
  }

  /** No occurrence of `v` in `x + s` starts inside `x`. */
  ghost predicate NoneStartsIn(x: string, s: string, v: string) {
    forall k :: 0 <= k < |x| ==> !OccursAt(x + s, v, k)
  }

  /** Replacing a value removes it. */
  lemma {:induction false} ReplaceRemoves(x: string, s: string, v: string)
    requires v != [] && Apart(v) && NoneStartsIn(x, s, v)
    ensures !Contains(x + ReplaceAll(s, v, PLACEHOLDER), v)
    decreases |s|
  {
    if |s| < |v| {
      forall k ensures !OccursAt(x + s, v, k) {
        assert k >= |x| ==> k + |v| > |x + s|;
      }
    } else if s[..|v|] == v {
      var t := s[|v|..];
      ReplaceRemoves([], t, v);
      assert [] + ReplaceAll(t, v, PLACEHOLDER) == ReplaceAll(t, v, PLACEHOLDER);
      if Contains(x, v) {
        var k :| OccursAt(x, v, k);
        assert (x + s)[k..k + |v|] == x[k..k + |v|];
        assert OccursAt(x + s, v, k);
      }
      ApartGlue(v, x, ReplaceAll(t, v, PLACEHOLDER));
      assert x + ReplaceAll(s, v, PLACEHOLDER) == x + PLACEHOLDER + ReplaceAll(t, v, PLACEHOLDER);
    } else {
      assert x + s == (x + [s[0]]) + s[1..];
      forall k | 0 <= k < |x + [s[0]]| ensures !OccursAt((x + [s[0]]) + s[1..], v, k) {
        assert (x + s)[|x|..|x| + |v|] == s[..|v|];
      }
      ReplaceRemoves(x + [s[0]], s[1..], v);
      assert x + ReplaceAll(s, v, PLACEHOLDER) == (x + [s[0]]) + ReplaceAll(s[1..], v, PLACEHOLDER);
    }
  }

  lemma {:induction false} ValuesKeepAbsent(out: string, values: seq<string>, w: string)
    requires forall i :: 0 <= i < |values| ==> values[i] != []
    requires w != [] && Apart(w) && !Contains(out, w)
    ensures !Contains(RedactValues(out, values), w)
    decreases values
  {
    if values != [] {
      assert [] + out == out && [] + ReplaceAll(out, values[0], PLACEHOLDER) == ReplaceAll(out, values[0], PLACEHOLDER);
      ReplaceKeepsAbsent(w, [], out, values[0]);
      ValuesKeepAbsent(ReplaceAll(out, values[0], PLACEHOLDER), values[1..], w);
    }
  }

  lemma {:induction false} ValuesAreRemoved(out: string, values: seq<string>, w: string)
    requires forall i :: 0 <= i < |values| ==> values[i] != []
    requires w in values && Apart(w)
    ensures !Contains(RedactValues(out, values), w)
    decreases values
  {
    var next := ReplaceAll(out, values[0], PLACEHOLDER);
    if w == values[0] {
      assert [] + out == out && [] + next == next;
      ReplaceRemoves([], out, w);
      ValuesKeepAbsent(next, values[1..], w);
    } else {
      ValuesAreRemoved(next, values[1..], w);
    }
  }

  /** Completeness: a collected argument string that is apart from the
      placeholder occurs in no redacted message, whatever the other arguments are. */
  lemma RedactionRemoves(message: string, args: Json, w: string)
    requires HasString(args, w) && ByteLen(w) >= 4 && Apart(w)
    ensures !Contains(Redact(message, args), w)
  {
    CollectedExactly(args, w);
    LongestFirstKeeps(CollectStrings(args));
    ValuesAreRemoved(message, Values(args), w);
  }

  // ---------------------------------------------------------------------
  // What replacing does to the text around a value
  // ---------------------------------------------------------------------

  /** Text in which no occurrence starts stays. */
  lemma {:induction false} ReplaceSkips(u: string, y: string, v: string, with_: string)
    requires v != [] && NoneStartsIn(u, y, v)
    ensures ReplaceAll(u + y, v, with_) == u + ReplaceAll(y, v, with_)
    decreases |u|
  {
    var s := u + y;
    if u == [] {
      assert s == y && u + ReplaceAll(y, v, with_) == ReplaceAll(y, v, with_);
    } else {
      assert s[1..] == u[1..] + y && s[0] == u[0];
      NoneStartsLater(u, y, v);
      ReplaceSkips(u[1..], y, v, with_);
      ReplaceStep(s, v, with_);
      assert [u[0]] + (u[1..] + ReplaceAll(y, v, with_)) == u + ReplaceAll(y, v, with_);
    }
  }

  lemma NoneStartsLater(u: string, y: string, v: string)
    requires u != [] && NoneStartsIn(u, y, v)
    ensures !OccursAt(u + y, v, 0) && NoneStartsIn(u[1..], y, v)
  {
    var s := u + y;
    assert s[1..] == u[1..] + y;
    forall k | 0 <= k < |u[1..]| ensures !OccursAt(u[1..] + y, v, k) {
      assert !OccursAt(s, v, k + 1);
      assert k + |v| <= |s[1..]| ==> s[1..][k..k + |v|] == s[k + 1..k + 1 + |v|];
    }
  }

  lemma ReplaceStep(s: string, v: string, with_: string)
    requires v != [] && s != [] && !OccursAt(s, v, 0)
    ensures ReplaceAll(s, v, with_) == [s[0]] + ReplaceAll(s[1..], v, with_)
  {
    assert |s| >= |v| ==> s[0..0 + |v|] == s[..|v|];
  }

  lemma ReplaceNothing(s: string, v: string, with_: string)
    requires v != [] && !Contains(s, v)
    ensures ReplaceAll(s, v, with_) == s
  {
    forall k | 0 <= k < |s| ensures !OccursAt(s + [], v, k) {
      assert s + [] == s;
    }
    ReplaceSkips(s, [], v, with_);
    assert s + [] == s;
  }

  lemma FirstOccurrence(u: string, v: string, rest: string)
    requires NoneStartsIn(u, v, v)
    ensures NoneStartsIn(u, v + rest, v)
  {
    forall k | 0 <= k < |u| ensures !OccursAt(u + (v + rest), v, k) {
      assert !OccursAt(u + v, v, k);
      assert (u + (v + rest))[k..k + |v|] == (u + v)[k..k + |v|];
    }
  }

  lemma ReplaceFirst(u: string, v: string, rest: string, with_: string)
    requires v != [] && NoneStartsIn(u, v, v)
    ensures ReplaceAll(u + v + rest, v, with_) == u + with_ + ReplaceAll(rest, v, with_)
  {
    FirstOccurrence(u, v, rest);
    ReplaceSkips(u, v + rest, v, with_);
    assert (v + rest)[..|v|] == v && (v + rest)[|v|..] == rest;
    assert u + (v + rest) == u + v + rest;
  }

  lemma ReplaceOnce(u: string, v: string, y: string, with_: string)
    requires |y| < |v| && NoneStartsIn(u, v, v)
    ensures ReplaceAll(u + v + y, v, with_) == u + with_ + y
  {
    ReplaceFirst(u, v, y, with_);
  }

  lemma ReplaceFront(v: string, rest: string, with_: string)
    requires |rest| < |v|
    ensures ReplaceAll(v + rest, v, with_) == with_ + rest
  {
    ReplaceOnce([], v, rest, with_);
    assert [] + v + rest == v + rest && [] + with_ + rest == with_ + rest;
  }

  // ---------------------------------------------------------------------
  // When values leak
  // ---------------------------------------------------------------------

  lemma {:induction false} ReplaceLeavesPlaceholder(s: string, v: string)
    requires v != []
    ensures Contains(s, v) || Contains(s, PLACEHOLDER) ==>
      Contains(ReplaceAll(s, v, PLACEHOLDER), PLACEHOLDER)
    ensures !Contains(s, v) ==> ReplaceAll(s, v, PLACEHOLDER) == s
  {
    if Contains(s, v) {
      ReplaceInserts(s, v);
    } else {
      ReplaceNothing(s, v, PLACEHOLDER);
    }
  }

  lemma {:induction false} ReplaceInserts(s: string, v: string)
    requires v != [] && Contains(s, v)
    ensures Contains(ReplaceAll(s, v, PLACEHOLDER), PLACEHOLDER)
    decreases |s|
  {
    var k :| OccursAt(s, v, k);
    assert s[0..0 + |v|] == s[..|v|];
    if s[..|v|] == v {
      var r := ReplaceAll(s, v, PLACEHOLDER);
      assert r[0..0 + |PLACEHOLDER|] == PLACEHOLDER;
      assert OccursAt(r, PLACEHOLDER, 0);
    } else {
      assert s[1..][k - 1..k - 1 + |v|] == s[k..k + |v|];
      assert OccursAt(s[1..], v, k - 1);
      ReplaceInserts(s[1..], v);
      SuffixContains([s[0]], ReplaceAll(s[1..], v, PLACEHOLDER), PLACEHOLDER);
    }
  }

  lemma ContainsTrans(s: string, t: string, u: string)
    requires Contains(s, t) && Contains(t, u)
    ensures Contains(s, u)
  {
    var k :| OccursAt(s, t, k);
    var m :| OccursAt(t, u, m);
    forall i | 0 <= i < |u| ensures s[k + m..k + m + |u|][i] == u[i] {
      assert t[m + i] == t[m..m + |u|][i];
      assert s[k + (m + i)] == s[k..k + |t|][m + i];
    }
    assert OccursAt(s, u, k + m);
  }

  lemma {:induction false} PlaceholderStays(out: string, values: seq<string>, v: string)
    requires forall i :: 0 <= i < |values| ==> values[i] != []
    requires Contains(out, PLACEHOLDER) || (out == v && v in values)
    ensures Contains(RedactValues(out, values), PLACEHOLDER)
    decreases values
  {
    if values != [] {
      assert OccursAt(v, v, 0);
      ReplaceLeavesPlaceholder(out, values[0]);
      PlaceholderStays(ReplaceAll(out, values[0], PLACEHOLDER), values[1..], v);
    }
  }

  /** A collected argument that is part of the placeholder survives: the very
      message that consists of it comes back with it inside. */
  lemma PartOfPlaceholderLeaks(args: Json, v: string)
    requires HasString(args, v) && ByteLen(v) >= 4 && Contains(PLACEHOLDER, v)
    ensures Contains(Redact(v, args), v)
  {
    CollectedExactly(args, v);
    LongestFirstKeeps(CollectStrings(args));
    PlaceholderStays(v, Values(args), v);
    ContainsTrans(Redact(v, args), PLACEHOLDER, v);
  }

  /** The redaction loop: each value that still occurs is replaced everywhere. */
  method RedactPayloadEchoes(message: string, args: Json) returns (out: string)
    ensures out == Redact(message, args)
  {
    var values := Values(args);
    out := message;
    for i := 0 to |values|
      invariant RedactValues(out, values[i..]) == Redact(message, args)
    {
      assert values[i..][1..] == values[i + 1..];
      ReplaceLeavesPlaceholder(out, values[i]);
      if Occurs(out, values[i]) {
        out := ReplaceAll(out, values[i], PLACEHOLDER);
      }
    }
  }

  const INNER: string := "redacted"

  predicate BracketFree(w: string) {
    '[' !in w && ']' !in w
  }

  /** Without brackets, overlapping the placeholder means being part of its inner word. */
  lemma BracketFreeApart(w: string)
    requires w != [] && BracketFree(w) && !Contains(INNER, w)
    ensures Apart(w)
  {
    forall o | -|w| < o < |PLACEHOLDER| ensures Disagree(w, o) {
      if o <= 0 {
        assert w[-o] in w && PLACEHOLDER[-o + o] == '[';
      } else if o + |w| >= |PLACEHOLDER| {
        assert w[|PLACEHOLDER| - 1 - o] in w && PLACEHOLDER[|PLACEHOLDER| - 1 - o + o] == ']';
      } else {
        assert !OccursAt(INNER, w, o - 1);
        assert INNER == PLACEHOLDER[1..|PLACEHOLDER| - 1];
        assert INNER[o - 1..o - 1 + |w|] != w;
        var i :| 0 <= i < |w| && INNER[o - 1..o - 1 + |w|][i] != w[i];
        assert INNER[o - 1 + i] == PLACEHOLDER[i + o];
      }
    }
  }

  ghost predicate Collected(args: Json, w: string) {
    HasString(args, w) && ByteLen(w) >= 4
  }

  /** None of the collected argument strings is left in the redacted message. */
  ghost predicate Clean(message: string, args: Json) {
    forall w :: Collected(args, w) ==> !Contains(Redact(message, args), w)
  }

  /** As long as no argument merely straddles an end of the placeholder, no message leaks
      one of them if and only if each of them is apart from the placeholder. */
  lemma RedactionExactly(args: Json)
    requires forall w :: Collected(args, w) ==> Apart(w) || Contains(PLACEHOLDER, w)
    ensures (forall message: string :: Clean(message, args)) <==> (forall w :: Collected(args, w) ==> Apart(w))
  {
    if forall w :: Collected(args, w) ==> Apart(w) {
      forall message: string, w | Collected(args, w) ensures !Contains(Redact(message, args), w) {
        RedactionRemoves(message, args, w);
      }
    } else {
      var w :| Collected(args, w) && !Apart(w);
      PartOfPlaceholderLeaks(args, w);
      assert !Clean(w, args);
    }
  }

  /** For arguments without brackets: no message leaks one of them if and only
      if none of them is part of the placeholder's inner word. */
  lemma RedactionWithoutBrackets(args: Json)
    requires forall w :: Collected(args, w) ==> BracketFree(w)
    ensures (forall message: string :: Clean(message, args)) <==>
            (forall w :: Collected(args, w) ==> !Contains(INNER, w))
  {
    if forall w :: Collected(args, w) ==> !Contains(INNER, w) {
      forall w | Collected(args, w) ensures Apart(w) {
        BracketFreeApart(w);
      }
      RedactionExactly(args);
    } else {
      var w :| Collected(args, w) && Contains(INNER, w);
      InnerInPlaceholder();
      ContainsTrans(PLACEHOLDER, INNER, w);
      PartOfPlaceholderLeaks(args, w);
      assert !Clean(w, args);
    }
  }

  lemma InnerInPlaceholder()
    ensures Contains(PLACEHOLDER, INNER)
  {
    assert PLACEHOLDER[1..1 + |INNER|] == INNER;
    assert OccursAt(PLACEHOLDER, INNER, 1);
  }

  lemma TailCompletes(p: string, v: string, n: nat)
    requires n <= |p| && n <= |v| && v[..n] == p[|p| - n..]
    ensures Contains(p + v[n..], v)
  {
    var r, k := p + v[n..], |p| - n;
    assert r[k..k + |v|] == p[k..] + v[n..] == v;
    assert OccursAt(r, v, k);
  }

  lemma OneValue(v: string)
    requires ByteLen(v) >= 4
    ensures Values(JString(v)) == [v]
  {
    assert CollectStrings(JString(v)) == [v] && [v][1..] == [];
    assert LongestFirst([v]) == InsertLongest(v, []);
  }

  lemma RedactOne(out: string, v: string)
    requires ByteLen(v) >= 4
    ensures Redact(out, JString(v)) == ReplaceAll(out, v, PLACEHOLDER)
  {
    hide ReplaceAll, Values;
    OneValue(v);
    assert [v][1..] == [];
    assert RedactValues(out, [v]) == RedactValues(ReplaceAll(out, v, PLACEHOLDER), []);
  }

  /** A single argument that begins like some end of the placeholder always leaks: the end
      of an inserted placeholder and the text behind it make it up again. */
  lemma TailOverlapLeaks(v: string, n: nat)
    requires ByteLen(v) >= 4 && 0 < n <= |PLACEHOLDER| && n <= |v|
    requires v[..n] == PLACEHOLDER[|PLACEHOLDER| - n..]
    ensures Contains(Redact(v + v[n..], JString(v)), v)
  {
    hide ReplaceAll, Redact, Contains, OccursAt, ByteLen;
    var rest := v[n..];
    RedactOne(v + rest, v);
    ReplaceFront(v, rest, PLACEHOLDER);
    TailCompletes(PLACEHOLDER, v, n);
  }

  /** A single argument that ends like a beginning of the placeholder leaks as well, unless it
      overlaps itself so that an earlier occurrence is replaced instead. */
  lemma HeadOverlapLeaks(u: string, n: nat)
    requires n <= |PLACEHOLDER| && ByteLen(u + PLACEHOLDER[..n]) >= 4
    requires var v := u + PLACEHOLDER[..n]; forall k :: 0 <= k < |u| ==> !OccursAt(u + v, v, k)
    ensures var v := u + PLACEHOLDER[..n]; Contains(Redact(u + v, JString(v)), v)
  {
    hide ReplaceAll, Redact, OccursAt, Contains;
    var v := u + PLACEHOLDER[..n];
    RedactOne(u + v, v);
    assert u + v + [] == u + v && u + PLACEHOLDER + [] == u + PLACEHOLDER;
    ReplaceOnce(u, v, [], PLACEHOLDER);
    HeadCompletes(PLACEHOLDER, u, n);
  }

  lemma HeadCompletes(p: string, u: string, n: nat)
    requires n <= |p|
    ensures Contains(u + p, u + p[..n])
  {
    assert (u + p)[0..0 + |u + p[..n]|] == u + p[..n];
    assert OccursAt(u + p, u + p[..n], 0);
  }

  /** For instance a value that is no part of the placeholder at all. */
  lemma OverlappingValueLeaks()
    ensures !Contains(PLACEHOLDER, "ab[re") && Contains(Redact("abab[re", JString("ab[re")), "ab[re")
  {
    var v: string, u: string := "ab[re", "ab";
    forall k ensures !OccursAt(PLACEHOLDER, v, k) {
      if 0 <= k && k + |v| <= |PLACEHOLDER| {
        assert PLACEHOLDER[k..k + |v|][0] == PLACEHOLDER[k];
        assert PLACEHOLDER[k..k + |v|][1] == PLACEHOLDER[k + 1];
      }
    }
    assert v == u + PLACEHOLDER[..3] && "abab[re" == u + v;
    assert (u + v)[0..0 + |v|][2] == 'a' && (u + v)[1..1 + |v|][0] == 'b';
    assert !OccursAt(u + v, v, 0) && !OccursAt(u + v, v, 1);
    hide Redact;
    HeadOverlapLeaks(u, 3);
  }
}
