/**
 What redaction leaves in place: everything but the argument values. Told by
 the pieces of text between the occurrences of a value, without the functions
 that replace it.
 */
module RedactionText {
  import opened Failure
  import opened Redaction
  import opened RedactionExact

  // ---------------------------------------------------------------------
  // Pieces
  // ---------------------------------------------------------------------

  /** The pieces in order, with `between` between any two. */
  function Join(pieces: seq<string>, between: string): string
    requires pieces != []
  {
    if |pieces| == 1 then pieces[0] else pieces[0] + between + Join(pieces[1..], between)
  }

  /** `pieces` are what lies between the occurrences of `v` in `s`, found from left to right without overlap. */
  ghost predicate IsSplit(s: string, v: string, pieces: seq<string>) {
    && pieces != [] && s == Join(pieces, v)
    && (forall i :: 0 <= i < |pieces| - 1 ==> NoneStartsIn(pieces[i], v, v))
    && !Contains(pieces[|pieces| - 1], v)
  }

  /** Replacing a value keeps the pieces and changes what is between them. */
  lemma {:induction false} ReplaceJoins(s: string, v: string, pieces: seq<string>, with_: string)
    requires v != [] && IsSplit(s, v, pieces)
    ensures ReplaceAll(s, v, with_) == Join(pieces, with_)
    decreases |pieces|
  {
    if |pieces| == 1 {
      ReplaceNothing(s, v, with_);
    } else {
      hide NoneStartsIn, Contains;
      var rest := Join(pieces[1..], v);
      assert IsSplit(rest, v, pieces[1..]) by {
        forall i | 0 <= i < |pieces[1..]| - 1 ensures NoneStartsIn(pieces[1..][i], v, v) {
          assert NoneStartsIn(pieces[i + 1], v, v);
        }
      }
      ReplaceJoins(rest, v, pieces[1..], with_);
      ReplaceFirst(pieces[0], v, rest, with_);
    }
  }

  lemma NoneBefore(x: string, s: string, v: string)
    requires v <= s && NoneStartsIn(x, s, v)
    ensures NoneStartsIn(x, v, v)
  {
    forall k | 0 <= k < |x| ensures !OccursAt(x + v, v, k) {
      assert !OccursAt(x + s, v, k);
      assert (x + s)[k..k + |v|] == (x + v)[k..k + |v|];
    }
  }

  lemma NoneYet(x: string, s: string, v: string)
    requires |v| <= |s| && s[..|v|] != v && v != [] && NoneStartsIn(x, s, v)
    ensures NoneStartsIn(x + [s[0]], s[1..], v)
  {
    assert x + s == (x + [s[0]]) + s[1..];
    forall k | 0 <= k < |x + [s[0]]| ensures !OccursAt((x + [s[0]]) + s[1..], v, k) {
      assert (x + s)[|x|..|x| + |v|] == s[..|v|];
    }
  }

  lemma NoneAtAll(x: string, s: string, v: string)
    requires |s| < |v| && NoneStartsIn(x, s, v)
    ensures !Contains(x + s, v)
  {
    forall k ensures !OccursAt(x + s, v, k) {
      assert k >= |x| ==> k + |v| > |x + s|;
    }
  }

  /** Every text has such pieces. */
  lemma {:induction false} SplitExists(x: string, s: string, v: string) returns (pieces: seq<string>)
    requires v != [] && NoneStartsIn(x, s, v)
    ensures IsSplit(x + s, v, pieces)
    decreases |s|
  {
    hide Contains;
    if |s| < |v| {
      pieces := [x + s];
      NoneAtAll(x, s, v);
    } else if s[..|v|] == v {
      var t := s[|v|..];
      NoneBefore(x, s, v);
      assert [] + t == t;
      var rest := SplitExists([], t, v);
      hide NoneStartsIn;
      pieces := [x] + rest;
      assert pieces[1..] == rest && x + s == x + v + t;
    } else {
      assert x + s == (x + [s[0]]) + s[1..];
      NoneYet(x, s, v);
      pieces := SplitExists(x + [s[0]], s[1..], v);
    }
  }

  // ---------------------------------------------------------------------
  // One value
  // ---------------------------------------------------------------------

  /** With one collected value, the text between its occurrences is kept and each of them becomes a placeholder. */
  lemma SingleArgumentText(message: string, args: Json, v: string, pieces: seq<string>)
    requires CollectStrings(args) == [v] && IsSplit(message, v, pieces)
    ensures Redact(message, args) == Join(pieces, PLACEHOLDER)
  {
    hide IsSplit, Redact, ReplaceAll, Join;
    OnlyValue(args, v);
    ReplaceJoins(message, v, pieces, PLACEHOLDER);
  }

  // ---------------------------------------------------------------------
  // Any values
  // ---------------------------------------------------------------------

  /** `t` is `s` with a placeholder for each occurrence of `v`, and all else as it was. */
  ghost predicate ReplacedIn(s: string, v: string, t: string) {
    exists pieces :: IsSplit(s, v, pieces) && t == Join(pieces, PLACEHOLDER)
  }

  /** From `message`, one value after the other is replaced. */
  ghost predicate Stages(message: string, values: seq<string>, texts: seq<string>) {
    && |texts| == |values| + 1 && texts[0] == message
    && forall i :: 0 <= i < |values| ==> ReplacedIn(texts[i], values[i], texts[i + 1])
  }

  lemma {:induction false} LastStage(message: string, values: seq<string>, texts: seq<string>)
    requires (forall i :: 0 <= i < |values| ==> values[i] != []) && Stages(message, values, texts)
    ensures texts[|values|] == RedactValues(message, values)
    decreases |values|
  {
    if values != [] {
      var pieces :| IsSplit(message, values[0], pieces) && texts[1] == Join(pieces, PLACEHOLDER);
      hide IsSplit, Join, ReplaceAll;
      ReplaceJoins(message, values[0], pieces, PLACEHOLDER);
      forall i | 0 <= i < |values[1..]| ensures ReplacedIn(texts[1..][i], values[1..][i], texts[1..][i + 1]) {
        assert ReplacedIn(texts[i + 1], values[i + 1], texts[i + 1 + 1]);
      }
      LastStage(texts[1], values[1..], texts[1..]);
    }
  }

  lemma {:induction false} StagesExist(message: string, values: seq<string>) returns (texts: seq<string>)
    requires forall i :: 0 <= i < |values| ==> values[i] != []
    ensures Stages(message, values, texts)
    decreases |values|
  {
    if values == [] {
      texts := [message];
    } else {
      hide IsSplit, Join;
      assert [] + message == message;
      var pieces := SplitExists([], message, values[0]);
      var next := Join(pieces, PLACEHOLDER);
      var rest := StagesExist(next, values[1..]);
      texts := [message] + rest;
      assert ReplacedIn(message, values[0], next);
      forall i | 0 <= i < |values| ensures ReplacedIn(texts[i], values[i], texts[i + 1]) {
        assert i > 0 ==> ReplacedIn(rest[i - 1], values[1..][i - 1], rest[i - 1 + 1]);
      }
    }
  }

  /** For all messages and arguments: redacting is replacing the collected values one after the
      other, in the order of `Values`, each time keeping everything between the occurrences. */
  lemma RedactIsLastStage(message: string, args: Json) returns (texts: seq<string>)
    ensures Stages(message, Values(args), texts)
    ensures forall other :: Stages(message, Values(args), other) ==> other[|Values(args)|] == Redact(message, args)
  {
    hide Stages, Values, RedactValues;
    texts := StagesExist(message, Values(args));
    forall other | Stages(message, Values(args), other)
      ensures |other| == |Values(args)| + 1 && other[|Values(args)|] == Redact(message, args)
    {
      StageCount(message, Values(args), other);
      LastStage(message, Values(args), other);
    }
  }

  lemma StageCount(message: string, values: seq<string>, texts: seq<string>)
    requires Stages(message, values, texts)
    ensures |texts| == |values| + 1
  {
  }

  lemma {:induction false} ValuesAbsent(message: string, values: seq<string>)
    requires forall i :: 0 <= i < |values| ==> values[i] != [] && !Contains(message, values[i])
    ensures RedactValues(message, values) == message
    decreases |values|
  {
    if values != [] {
      ReplaceNothing(message, values[0], PLACEHOLDER);
      ValuesAbsent(message, values[1..]);
    }
  }

  lemma ValuesAreCollected(args: Json)
    ensures forall v :: v in Values(args) <==> Collected(args, v)
  {
    LongestFirstKeeps(CollectStrings(args));
    forall v ensures v in Values(args) <==> Collected(args, v) {
      CollectedExactly(args, v);
    }
  }

  /** A message that mentions no argument value is left as it is; in particular if there is none. */
  lemma UnmentionedIsKept(message: string, args: Json)
    requires forall v :: Collected(args, v) ==> !Contains(message, v)
    ensures Redact(message, args) == message
  {
    hide Contains, Values;
    ValuesAreCollected(args);
    ValuesAbsent(message, Values(args));
  }

  // ---------------------------------------------------------------------
  // Many values, none of which overlaps the placeholder
  // ---------------------------------------------------------------------

  /** The pieces in order, with what was removed between them. */
  function Weave(pieces: seq<string>, removed: seq<string>): string
    requires |pieces| == |removed| + 1
  {
    if removed == [] then pieces[0] else pieces[0] + removed[0] + Weave(pieces[1..], removed[1..])
  }

  /** `out` is `message` with some stretches, each a collected value, replaced by
      placeholders, and with all other text kept in order. */
  ghost predicate KeepsRest(args: Json, message: string, out: string) {
    exists pieces, removed :: KeepsPieces(args, message, out, pieces, removed)
  }

  ghost predicate KeepsPieces(args: Json, message: string, out: string, pieces: seq<string>, removed: seq<string>) {
    && |pieces| == |removed| + 1
    && message == Weave(pieces, removed) && out == Join(pieces, PLACEHOLDER)
    && forall i :: 0 <= i < |removed| ==> Collected(args, removed[i])
  }

  lemma WeaveCons(piece: string, r: string, pieces: seq<string>, removed: seq<string>)
    requires |pieces| == |removed| + 1
    ensures Weave([piece] + pieces, [r] + removed) == piece + r + Weave(pieces, removed)
  {
    assert ([piece] + pieces)[1..] == pieces && ([r] + removed)[1..] == removed;
  }

  lemma JoinCons(piece: string, pieces: seq<string>, p: string)
    requires pieces != []
    ensures Join([piece] + pieces, p) == piece + p + Join(pieces, p)
  {
    assert ([piece] + pieces)[1..] == pieces;
  }

  lemma {:induction false} WeaveConcat(a: seq<string>, ra: seq<string>, r: string, b: seq<string>, rb: seq<string>)
    requires |a| == |ra| + 1 && |b| == |rb| + 1
    ensures Weave(a + b, ra + [r] + rb) == Weave(a, ra) + r + Weave(b, rb)
    decreases |a|
  {
    if |a| == 1 {
      assert a == [a[0]] && ra + [r] + rb == [r] + rb;
      WeaveCons(a[0], r, b, rb);
    } else {
      assert a == [a[0]] + a[1..] && ra == [ra[0]] + ra[1..];
      hide Weave;
      assert a + b == [a[0]] + (a[1..] + b) && ra + [r] + rb == [ra[0]] + (ra[1..] + [r] + rb);
      WeaveConcat(a[1..], ra[1..], r, b, rb);
      WeaveCons(a[0], ra[0], a[1..], ra[1..]);
      WeaveCons(a[0], ra[0], a[1..] + b, ra[1..] + [r] + rb);
      Reassociate(a[0] + ra[0], Weave(a[1..], ra[1..]), r, Weave(b, rb));
    }
  }

  lemma {:induction false} JoinConcat(a: seq<string>, b: seq<string>, p: string)
    requires a != [] && b != []
    ensures Join(a + b, p) == Join(a, p) + p + Join(b, p)
    decreases |a|
  {
    if |a| == 1 {
      assert a == [a[0]];
      JoinCons(a[0], b, p);
    } else {
      assert a == [a[0]] + a[1..];
      hide Join;
      assert a + b == [a[0]] + (a[1..] + b);
      JoinConcat(a[1..], b, p);
      JoinCons(a[0], a[1..], p);
      JoinCons(a[0], a[1..] + b, p);
      Reassociate(a[0] + p, Join(a[1..], p), p, Join(b, p));
    }
  }

  lemma PiecesGlued(args: Json, m1: string, o1: string, p1: seq<string>, r1: seq<string>, r: string,
                    m2: string, o2: string, p2: seq<string>, r2: seq<string>)
    requires KeepsPieces(args, m1, o1, p1, r1) && KeepsPieces(args, m2, o2, p2, r2) && Collected(args, r)
    ensures KeepsPieces(args, m1 + r + m2, o1 + PLACEHOLDER + o2, p1 + p2, r1 + [r] + r2)
  {
    hide Collected, Weave, Join;
    WeaveConcat(p1, r1, r, p2, r2);
    JoinConcat(p1, p2, PLACEHOLDER);
  }

  lemma KeepsGlued(args: Json, m1: string, o1: string, r: string, m2: string, o2: string)
    requires KeepsRest(args, m1, o1) && KeepsRest(args, m2, o2) && Collected(args, r)
    ensures KeepsRest(args, m1 + r + m2, o1 + PLACEHOLDER + o2)
  {
    hide Collected, KeepsPieces;
    var p1, r1 :| KeepsPieces(args, m1, o1, p1, r1);
    var p2, r2 :| KeepsPieces(args, m2, o2, p2, r2);
    PiecesGlued(args, m1, o1, p1, r1, r, m2, o2, p2, r2);
  }

  lemma KeepsWhole(args: Json, m: string)
    ensures KeepsRest(args, m, m)
  {
    assert KeepsPieces(args, m, m, [m], []);
  }

  /** Replacing one value in a text. */
  lemma {:induction false} ReplaceKeepsRest(args: Json, s: string, v: string, pieces: seq<string>)
    requires IsSplit(s, v, pieces) && Collected(args, v)
    ensures KeepsRest(args, s, Join(pieces, PLACEHOLDER))
    decreases |pieces|
  {
    hide NoneStartsIn, Contains, Collected, KeepsRest;
    KeepsWhole(args, pieces[0]);
    if |pieces| > 1 {
      var rest := Join(pieces[1..], v);
      assert IsSplit(rest, v, pieces[1..]) by {
        forall i | 0 <= i < |pieces[1..]| - 1 ensures NoneStartsIn(pieces[1..][i], v, v) {
          assert NoneStartsIn(pieces[i + 1], v, v);
        }
      }
      ReplaceKeepsRest(args, rest, v, pieces[1..]);
      KeepsGlued(args, pieces[0], pieces[0], v, rest, Join(pieces[1..], PLACEHOLDER));
    }
  }

  lemma NoneStartsInPlaceholder(w: string, y: string)
    requires w != [] && Apart(w)
    ensures NoneStartsIn(PLACEHOLDER, y, w)
  {
    forall k | 0 <= k < |PLACEHOLDER| ensures !OccursAt(PLACEHOLDER + y, w, k) {
      TouchingDisagrees(w, [], y, k);
      assert [] + PLACEHOLDER + y == PLACEHOLDER + y;
    }
  }

  /** Around a placeholder, a value apart from it is replaced on both sides on its own. */
  lemma {:induction false} ReplaceAround(x: string, y: string, w: string)
    requires w != [] && Apart(w)
    ensures ReplaceAll(x + PLACEHOLDER + y, w, PLACEHOLDER) ==
            ReplaceAll(x, w, PLACEHOLDER) + PLACEHOLDER + ReplaceAll(y, w, PLACEHOLDER)
    decreases |x|
  {
    hide Apart, ReplaceAll, OccursAt;
    var p, s := PLACEHOLDER, x + PLACEHOLDER + y;
    if x == [] {
      NoneStartsInPlaceholder(w, y);
      ReplaceSkips(p, y, w, p);
      assert s == p + y;
      NothingInside(w);
      ReplaceNothing([], w, p);
    } else if OccursAt(s, w, 0) {
      FrontIsInside(x, y, w);
      ReplaceAtFront(s, w, p);
      ReplaceAtFront(x, w, p);
      ReplaceAround(x[|w|..], y, w);
      Reassociate(p, ReplaceAll(x[|w|..], w, p), p, ReplaceAll(y, w, p));
    } else {
      assert x + (p + y) == s;
      NotInFront(x, p + y, w);
      ReplaceStep(s, w, p);
      ReplaceStep(x, w, p);
      ReplaceAround(x[1..], y, w);
      assert s[1..] == x[1..] + p + y && s[0] == x[0];
      Reassociate([x[0]], ReplaceAll(x[1..], w, p), p, ReplaceAll(y, w, p));
    }
  }

  lemma Reassociate(a: string, b: string, c: string, d: string)
    ensures a + (b + c + d) == (a + b) + c + d
  {
  }

  lemma NothingInside(w: string)
    requires w != []
    ensures !Contains([], w)
  {
  }

  lemma FrontIsInside(x: string, y: string, w: string)
    requires Apart(w) && x != [] && OccursAt(x + PLACEHOLDER + y, w, 0)
    ensures |w| <= |x| && OccursAt(x, w, 0)
    ensures (x + PLACEHOLDER + y)[|w|..] == x[|w|..] + PLACEHOLDER + y
  {
    hide Apart;
    if |w| > |x| {
      TouchingDisagrees(w, x, y, 0);
    }
    assert x[0..0 + |w|] == (x + PLACEHOLDER + y)[0..0 + |w|];
  }

  lemma NotInFront(x: string, y: string, w: string)
    requires !OccursAt(x + y, w, 0)
    ensures !OccursAt(x, w, 0)
  {
    if OccursAt(x, w, 0) {
      PrefixOccurs(x, y, w);
    }
  }

  lemma PrefixOccurs(x: string, y: string, w: string)
    requires OccursAt(x, w, 0)
    ensures OccursAt(x + y, w, 0)
  {
    assert (x + y)[0..0 + |w|] == x[0..0 + |w|];
  }

  lemma ReplaceAtFront(s: string, w: string, with_: string)
    requires w != [] && OccursAt(s, w, 0)
    ensures |w| <= |s| && ReplaceAll(s, w, with_) == with_ + ReplaceAll(s[|w|..], w, with_)
  {
    assert s[0..0 + |w|] == s[..|w|];
  }

  /** One more value is replaced in a text that already has placeholders. */
  lemma {:induction false} NextKeepsRest(args: Json, w: string, pieces: seq<string>, removed: seq<string>)
    requires Collected(args, w) && Apart(w) && w != [] && |pieces| == |removed| + 1
    requires forall i :: 0 <= i < |removed| ==> Collected(args, removed[i])
    ensures KeepsRest(args, Weave(pieces, removed), ReplaceAll(Join(pieces, PLACEHOLDER), w, PLACEHOLDER))
    decreases |pieces|
  {
    hide Collected, KeepsRest, Apart, ReplaceAll;
    assert [] + pieces[0] == pieces[0];
    var parts := SplitExists([], pieces[0], w);
    ReplaceJoins(pieces[0], w, parts, PLACEHOLDER);
    ReplaceKeepsRest(args, pieces[0], w, parts);
    if removed != [] {
      NextKeepsRest(args, w, pieces[1..], removed[1..]);
      ReplaceAround(pieces[0], Join(pieces[1..], PLACEHOLDER), w);
      KeepsGlued(args, pieces[0], ReplaceAll(pieces[0], w, PLACEHOLDER), removed[0], Weave(pieces[1..], removed[1..]),
                 ReplaceAll(Join(pieces[1..], PLACEHOLDER), w, PLACEHOLDER));
    }
  }

  lemma {:induction false} ValuesKeepRest(args: Json, message: string, out: string, values: seq<string>)
    requires forall i :: 0 <= i < |values| ==> values[i] != [] && Collected(args, values[i]) && Apart(values[i])
    requires KeepsRest(args, message, out)
    ensures KeepsRest(args, message, RedactValues(out, values))
    decreases |values|
  {
    hide Collected, Apart, ReplaceAll, Weave, Join;
    if values != [] {
      var pieces, removed :| KeepsPieces(args, message, out, pieces, removed);
      NextKeepsRest(args, values[0], pieces, removed);
      ValuesKeepRest(args, message, ReplaceAll(out, values[0], PLACEHOLDER), values[1..]);
    }
  }

  /** With any number of arguments apart from the placeholder: some stretches of the message, each a
      collected value, become placeholders; everything else is kept in order, and names no such value. */
  lemma RedactionKeepsRest(message: string, args: Json) returns (pieces: seq<string>, removed: seq<string>)
    requires forall w :: Collected(args, w) ==> Apart(w)
    ensures KeepsPieces(args, message, Redact(message, args), pieces, removed)
    ensures forall i, w :: 0 <= i < |pieces| && Collected(args, w) ==> !Contains(pieces[i], w)
  {
    hide Apart, Collected, Contains, Values, RedactValues, KeepsPieces;
    ValuesAreCollected(args);
    KeepsWhole(args, message);
    ValuesKeepRest(args, message, message, Values(args));
    pieces, removed :| KeepsPieces(args, message, Redact(message, args), pieces, removed);
    PiecesAreInside(args, message, Redact(message, args), pieces, removed);
    forall i, w | 0 <= i < |pieces| && Collected(args, w) ensures !Contains(pieces[i], w) {
      RemovedFrom(message, args, w);
      if Contains(pieces[i], w) {
        ContainsTrans(Redact(message, args), pieces[i], w);
      }
    }
  }

  lemma RemovedFrom(message: string, args: Json, w: string)
    requires Collected(args, w) && Apart(w)
    ensures !Contains(Redact(message, args), w)
  {
    RedactionRemoves(message, args, w);
  }

  lemma PiecesAreInside(args: Json, message: string, out: string, pieces: seq<string>, removed: seq<string>)
    requires KeepsPieces(args, message, out, pieces, removed)
    ensures forall i :: 0 <= i < |pieces| ==> Contains(out, pieces[i])
  {
    hide Contains;
    forall i | 0 <= i < |pieces| ensures Contains(out, pieces[i]) {
      PieceInJoin(pieces, i, PLACEHOLDER);
    }
  }

  lemma {:induction false} PieceInJoin(pieces: seq<string>, i: nat, p: string)
    requires i < |pieces|
    ensures Contains(Join(pieces, p), pieces[i])
    decreases |pieces|
  {
    ContainsItself(pieces[i]);
    if i > 0 {
      PieceInJoin(pieces[1..], i - 1, p);
      SuffixContains(pieces[0] + p, Join(pieces[1..], p), pieces[i]);
    } else if |pieces| > 1 {
      PrefixContains(pieces[0], p + Join(pieces[1..], p), pieces[0]);
      assert Join(pieces, p) == pieces[0] + (p + Join(pieces[1..], p));
    }
  }

  // ---------------------------------------------------------------------
  // The order of the values
  // ---------------------------------------------------------------------

  /** Those of `n` bytes, in order. */
  function OfLength(vs: seq<string>, n: nat): seq<string> {
    if vs == [] then [] else (if ByteLen(vs[0]) == n then [vs[0]] else []) + OfLength(vs[1..], n)
  }

  lemma OfLengthCons(v: string, vs: seq<string>, n: nat)
    ensures OfLength([v] + vs, n) == (if ByteLen(v) == n then [v] else []) + OfLength(vs, n)
  {
    hide ByteLen;
    assert ([v] + vs)[1..] == vs;
  }

  lemma {:induction false} InsertIsStable(v: string, vs: seq<string>, n: nat)
    ensures OfLength(InsertLongest(v, vs), n) == (if ByteLen(v) == n then [v] else []) + OfLength(vs, n)
  {
    hide ByteLen, OfLength;
    if vs == [] || ByteLen(v) >= ByteLen(vs[0]) {
      OfLengthCons(v, vs, n);
    } else {
      InsertIsStable(v, vs[1..], n);
      OfLengthCons(vs[0], InsertLongest(v, vs[1..]), n);
      OfLengthCons(vs[0], vs[1..], n);
      assert vs == [vs[0]] + vs[1..];
    }
  }

  /** The sort is stable: values of the same length keep the order in which they were collected. */
  lemma {:induction false} LongestFirstIsStable(vs: seq<string>, n: nat)
    ensures OfLength(LongestFirst(vs), n) == OfLength(vs, n)
  {
    if vs != [] {
      LongestFirstIsStable(vs[1..], n);
      InsertIsStable(vs[0], LongestFirst(vs[1..]), n);
    }
  }

  /** Values are collected in the order in which they stand in the arguments. */
  lemma {:induction false} CollectedInOrder(a: seq<Json>, b: seq<Json>)
    ensures CollectStrings(JArray(a + b)) == CollectStrings(JArray(a)) + CollectStrings(JArray(b))
    ensures |a| == 1 ==> CollectStrings(JArray(a)) == CollectStrings(a[0])
    ensures forall names :: CollectStrings(JObject(names, a)) == CollectStrings(JArray(a))
  {
    if a == [] {
      assert a + b == b;
    } else {
      assert (a + b)[1..] == a[1..] + b;
      CollectedInOrder(a[1..], b);
    }
  }

  lemma {:induction false} BytesAdd(a: string, b: string)
    ensures ByteLen(a + b) == ByteLen(a) + ByteLen(b)
  {
    if a == [] {
      assert a + b == b;
    } else {
      assert (a + b)[1..] == a[1..] + b;
      BytesAdd(a[1..], b);
    }
  }

  lemma {:induction false} NoBytes(s: string)
    ensures ByteLen(s) == 0 <==> s == []
  {
  }

  /** What is inside a text and not shorter is the text. */
  lemma InsideIsShorter(s: string, w: string)
    requires Contains(s, w) && w != s
    ensures ByteLen(w) < ByteLen(s)
  {
    var k :| OccursAt(s, w, k);
    assert s == s[..k] + w + s[k + |w|..];
    BytesAdd(s[..k] + w, s[k + |w|..]);
    BytesAdd(s[..k], w);
    NoBytes(s[..k]);
    NoBytes(s[k + |w|..]);
  }

  /** As long as only longer and equally long values are tried, an argument echoed alone stays whole; then its turn comes. */
  lemma {:induction false} WholeUntilItsTurn(v: string, values: seq<string>)
    requires v in values && FallingLength(values)
    requires forall i :: 0 <= i < |values| ==> values[i] != [] && Apart(values[i])
    ensures RedactValues(v, values) == PLACEHOLDER
    decreases |values|
  {
    hide Apart, ByteLen, ReplaceAll;
    if values[0] == v {
      ReplaceItself(v);
      forall i | 0 <= i < |values[1..]| ensures !Contains(PLACEHOLDER, values[1..][i]) {
        ApartIsOutside(values[i + 1]);
      }
      ValuesAbsent(PLACEHOLDER, values[1..]);
    } else {
      if Contains(v, values[0]) {
        InsideIsShorter(v, values[0]);
      }
      ReplaceNothing(v, values[0], PLACEHOLDER);
      WholeUntilItsTurn(v, values[1..]);
    }
  }

  lemma ReplaceItself(v: string)
    requires v != []
    ensures ReplaceAll(v, v, PLACEHOLDER) == PLACEHOLDER
  {
    assert v + [] == v;
    ReplaceFront(v, [], PLACEHOLDER);
    assert PLACEHOLDER + [] == PLACEHOLDER;
  }

  lemma ApartIsOutside(w: string)
    requires w != [] && Apart(w)
    ensures !Contains(PLACEHOLDER, w)
  {
    NoneStartsInPlaceholder(w, []);
    assert PLACEHOLDER + [] == PLACEHOLDER;
    forall k ensures !OccursAt(PLACEHOLDER, w, k) {
    }
  }

  /** Why longest first: an argument echoed alone is replaced as a whole, even if other arguments are parts of it. */
  lemma EchoIsReplacedWhole(args: Json, v: string)
    requires Collected(args, v) && forall w :: Collected(args, w) ==> Apart(w)
    ensures Redact(v, args) == PLACEHOLDER
  {
    hide Apart, Collected, RedactValues;
    ValuesAreCollected(args);
    LongestFirstKeeps(CollectStrings(args));
    WholeUntilItsTurn(v, Values(args));
  }
}
