/**
 When exactly a single argument can survive redaction, and why a second
 argument changes the answer.
 */
module RedactionExact {
  import opened Failure
  import opened Redaction

  /** `v` agrees with the placeholder wherever the two overlap at offset `o`; and if it
      sticks out in front, the part in front followed by `v` holds no earlier occurrence. */
  ghost predicate LeaksAt(v: string, o: int) {
    && -|v| < o < |PLACEHOLDER| && !Disagree(v, o)
    && (o < 0 ==> NoneStartsIn(v[..-o], v, v))
  }

  ghost predicate Leaky(v: string) {
    exists o :: LeaksAt(v, o)
  }

  // ---------------------------------------------------------------------
  // Nothing else leaks
  // ---------------------------------------------------------------------

  /** An occurrence that touches an inserted placeholder is one of the leaks. */
  lemma TouchingLeaks(v: string, x: string, t: string, y: string, k: nat)
    requires NoneStartsIn(x, v + t, v)
    requires |x| < k + |v| && k < |x| + |PLACEHOLDER| && OccursAt(x + PLACEHOLDER + y, v, k)
    ensures LeaksAt(v, k - |x|)
  {
    var o, r := k - |x|, x + PLACEHOLDER + y;
    forall i | 0 <= i < |v| && 0 <= i + o < |PLACEHOLDER| ensures v[i] == PLACEHOLDER[i + o] {
      assert r[k + i] == PLACEHOLDER[i + o] && r[k..k + |v|][i] == r[k + i];
    }
    if o < 0 {
      var u, s := v[..-o], x + (v + t);
      assert u == x[k..] by {
        assert r[k..k + |v|][..-o] == x[k..];
      }
      forall m | 0 <= m < |u| ensures !OccursAt(u + v, v, m) {
        assert s[k + m..k + m + |v|] == (u + v)[m..m + |v|];
        assert !OccursAt(s, v, k + m);
      }
    }
  }

  lemma OccursSomewhere(v: string, x: string, t: string, y: string, k: nat)
    requires v != [] && NoneStartsIn(x, v + t, v) && OccursAt(x + PLACEHOLDER + y, v, k)
    ensures k + |v| > |x|
    ensures Contains(y, v) || Leaky(v)
  {
    var r := x + PLACEHOLDER + y;
    assert k + |v| <= |x| ==> (x + (v + t))[k..k + |v|] == r[k..k + |v|];
    assert k + |v| <= |x| ==> OccursAt(x + (v + t), v, k);
    if k >= |x| + |PLACEHOLDER| {
      var m := k - |x| - |PLACEHOLDER|;
      assert y[m..m + |v|] == r[k..k + |v|];
      assert OccursAt(y, v, m);
    } else {
      TouchingLeaks(v, x, t, y, k);
    }
  }

  lemma NotLeakyGlue(v: string, x: string, t: string, y: string)
    requires v != [] && !Leaky(v) && NoneStartsIn(x, v + t, v) && !Contains(y, v)
    ensures !Contains(x + PLACEHOLDER + y, v)
  {
    hide Leaky, NoneStartsIn;
    if Contains(x + PLACEHOLDER + y, v) {
      var k :| OccursAt(x + PLACEHOLDER + y, v, k);
      OccursSomewhere(v, x, t, y, k);
    }
  }

  /** `x` is the text emitted since the last replacement. */
  lemma {:induction false} NotLeakyRemoved(x: string, s: string, v: string)
    requires v != [] && !Leaky(v) && NoneStartsIn(x, s, v)
    ensures !Contains(x + ReplaceAll(s, v, PLACEHOLDER), v)
    decreases |s|
  {
    hide Leaky;
    if |s| < |v| {
      forall k ensures !OccursAt(x + s, v, k) {
        assert k >= |x| ==> k + |v| > |x + s|;
      }
    } else if s[..|v|] == v {
      var t := s[|v|..];
      assert s == v + t;
      NotLeakyRemoved([], t, v);
      var y := ReplaceAll(t, v, PLACEHOLDER);
      assert [] + y == y;
      NotLeakyGlue(v, x, t, y);
      assert x + ReplaceAll(s, v, PLACEHOLDER) == x + PLACEHOLDER + y;
    } else {
      assert x + s == (x + [s[0]]) + s[1..];
      forall k | 0 <= k < |x + [s[0]]| ensures !OccursAt((x + [s[0]]) + s[1..], v, k) {
        assert (x + s)[|x|..|x| + |v|] == s[..|v|];
      }
      NotLeakyRemoved(x + [s[0]], s[1..], v);
      assert x + ReplaceAll(s, v, PLACEHOLDER) == (x + [s[0]]) + ReplaceAll(s[1..], v, PLACEHOLDER);
    }
  }

  // ---------------------------------------------------------------------
  // Each of them does leak
  // ---------------------------------------------------------------------

  /** A single argument with a whole placeholder inside leaks from the message that repeats its two ends. */
  lemma AroundOverlapLeaks(u: string, y: string)
    requires var v := u + PLACEHOLDER + y; ByteLen(v) >= 4 && NoneStartsIn(u, v, v)
    ensures var v := u + PLACEHOLDER + y; Contains(Redact(u + v + y, JString(v)), v)
  {
    hide ReplaceAll, Redact, OccursAt, Contains, NoneStartsIn, ByteLen;
    var v := u + PLACEHOLDER + y;
    RedactOne(u + v + y, v);
    ReplaceOnce(u, v, y, PLACEHOLDER);
    ContainsItself(v);
  }

  lemma ContainsItself(v: string)
    ensures Contains(v, v)
  {
    assert v[0..0 + |v|] == v;
    assert OccursAt(v, v, 0);
  }

  lemma AgreesInside(v: string, o: nat)
    requires o + |v| <= |PLACEHOLDER| && !Disagree(v, o)
    ensures Contains(PLACEHOLDER, v)
  {
    forall i | 0 <= i < |v| ensures PLACEHOLDER[o..o + |v|][i] == v[i] {
      assert v[i] == PLACEHOLDER[i + o];
    }
    assert PLACEHOLDER[o..o + |v|] == v;
    assert OccursAt(PLACEHOLDER, v, o);
  }

  lemma AgreesAtTail(v: string, o: nat)
    requires o < |PLACEHOLDER| < o + |v| && !Disagree(v, o)
    ensures v[..|PLACEHOLDER| - o] == PLACEHOLDER[o..]
  {
    forall i | 0 <= i < |PLACEHOLDER| - o ensures v[i] == PLACEHOLDER[o..][i] {
      assert v[i] == PLACEHOLDER[i + o];
    }
  }

  lemma AgreesAtHead(v: string, o: int)
    requires -|v| < o < 0 && !Disagree(v, o)
    ensures |v| + o <= |PLACEHOLDER| ==> v == v[..-o] + PLACEHOLDER[..|v| + o]
    ensures |v| + o > |PLACEHOLDER| ==> v == v[..-o] + PLACEHOLDER + v[-o + |PLACEHOLDER|..]
  {
    forall i | -o <= i < |v| && i + o < |PLACEHOLDER| ensures v[i] == PLACEHOLDER[i + o] {
    }
  }

  lemma LeakingMessage(v: string, o: int) returns (message: string)
    requires ByteLen(v) >= 4 && LeaksAt(v, o)
    ensures Contains(Redact(message, JString(v)), v)
  {
    hide Disagree, Redact, Contains, ByteLen;
    if o >= 0 {
      if o + |v| <= |PLACEHOLDER| {
        AgreesInside(v, o);
        PartOfPlaceholderLeaks(JString(v), v);
        message := v;
      } else {
        var n := |PLACEHOLDER| - o;
        AgreesAtTail(v, o);
        TailOverlapLeaks(v, n);
        message := v + v[n..];
      }
    } else {
      var u := v[..-o];
      AgreesAtHead(v, o);
      if |v| + o <= |PLACEHOLDER| {
        HeadOverlapLeaks(u, |v| + o);
        message := u + v;
      } else {
        var y := v[-o + |PLACEHOLDER|..];
        AroundOverlapLeaks(u, y);
        message := u + v + y;
      }
    }
  }

  // ---------------------------------------------------------------------
  // The exact condition
  // ---------------------------------------------------------------------

  lemma OnlyValue(args: Json, v: string)
    requires CollectStrings(args) == [v]
    ensures v != [] && ByteLen(v) >= 4 && forall m: string :: Redact(m, args) == ReplaceAll(m, v, PLACEHOLDER) == Redact(m, JString(v))
    ensures forall w :: Collected(args, w) <==> w == v
  {
    CollectedAreLong(args);
    assert v in CollectStrings(args);
    OneValue(v);
    assert CollectStrings(JString(v)) == [v];
    forall m: string ensures Redact(m, args) == ReplaceAll(m, v, PLACEHOLDER) == Redact(m, JString(v)) {
      RedactOne(m, v);
    }
    forall w ensures Collected(args, w) <==> w == v {
      CollectedExactly(args, w);
    }
  }

  /** If one string is collected, with whatever characters: no message leaks it if and only if
      it is not leaky. */
  lemma SingleArgumentExactly(args: Json, v: string)
    requires CollectStrings(args) == [v]
    ensures (forall message: string :: Clean(message, args)) <==> !Leaky(v)
  {
    hide ReplaceAll, Redact, Contains, ByteLen, LeaksAt;
    OnlyValue(args, v);
    if Leaky(v) {
      var o :| LeaksAt(v, o);
      var m := LeakingMessage(v, o);
      assert Collected(args, v) && !Clean(m, args);
    } else {
      forall m: string ensures Clean(m, args) {
        NeverLeaks(m, v);
      }
    }
  }

  lemma NeverLeaks(m: string, v: string)
    requires v != [] && !Leaky(v)
    ensures !Contains(ReplaceAll(m, v, PLACEHOLDER), v)
  {
    NotLeakyRemoved([], m, v);
    assert [] + ReplaceAll(m, v, PLACEHOLDER) == ReplaceAll(m, v, PLACEHOLDER);
  }

  // ---------------------------------------------------------------------
  // A second argument changes the answer
  // ---------------------------------------------------------------------

  /** A value that ends with a beginning of the placeholder leaks as soon as a value replaced
      after it can put a placeholder behind the rest, whether or not it leaks alone. */
  lemma CompanyLeaks(args: Json, u: string, n: nat, w: string)
    requires 0 < n <= |PLACEHOLDER| && Values(args) == [u + PLACEHOLDER[..n], w]
    requires !Contains(u + w, u + PLACEHOLDER[..n]) && NoneStartsIn(u, w, w) && w != []
    ensures Contains(Redact(u + w, args), u + PLACEHOLDER[..n])
  {
    hide ReplaceAll, Contains, Values, NoneStartsIn;
    var v, m := u + PLACEHOLDER[..n], u + w;
    ReplaceNothing(m, v, PLACEHOLDER);
    ReplaceOnce(u, w, [], PLACEHOLDER);
    assert u + w + [] == m && u + PLACEHOLDER + [] == u + PLACEHOLDER;
    assert [v, w][1..] == [w] && [w][1..] == [];
    assert RedactValues(m, [v, w]) == RedactValues(ReplaceAll(m, v, PLACEHOLDER), [w]);
    assert RedactValues(m, [w]) == RedactValues(ReplaceAll(m, w, PLACEHOLDER), []);
    HeadCompletes(PLACEHOLDER, u, n);
  }
}
