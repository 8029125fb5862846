/**
 The bounded conversation the agent sends to the model. Only word counts
 matter to the estimate, so a message is what it has to count.
 */
module ContextWindow {
  import opened Wrappers

  /** Words of the text content, if there is one, and of each tool call as it is serialised. */
  datatype Message = Message(content: Option<nat>, toolCalls: seq<nat>)

  /** Four, and four thirds of the words, rounded down. */
  function Cost(words: nat): (c: nat)
    ensures c >= 4 && 4 * words - 3 < 3 * (c - 4) <= 4 * words
  {
    words * 4 / 3 + 4
  }

  function CallTokens(calls: seq<nat>): nat {
    if calls == [] then 0 else CallTokens(calls[..|calls| - 1]) + Cost(calls[|calls| - 1])
  }

  function MessageTokens(m: Message): nat {
    (if m.content.Some? then Cost(m.content.value) else 0) + CallTokens(m.toolCalls)
  }

  function Tokens(messages: seq<Message>): nat {
    if messages == [] then 0 else Tokens(messages[..|messages| - 1]) + MessageTokens(messages[|messages| - 1])
  }

  method EstimateTokens(messages: seq<Message>) returns (count: nat)
    ensures count == Tokens(messages)
  {
    count := 0;
    for i := 0 to |messages|
      invariant count == Tokens(messages[..i])
    {
      var m := messages[i];
      if m.content.Some? {
        count := count + Cost(m.content.value);
      }
      ghost var before := count;
      for j := 0 to |m.toolCalls|
        invariant count == before + CallTokens(m.toolCalls[..j])
      {
        assert m.toolCalls[..j + 1][..j] == m.toolCalls[..j];
        count := count + Cost(m.toolCalls[j]);
      }
      assert m.toolCalls[..|m.toolCalls|] == m.toolCalls;
      assert messages[..i + 1][..i] == messages[..i];
    }
    assert messages[..|messages|] == messages;
  }

  /** The system prompt and the goal stay; the `k` oldest turns after them are gone. */
  function WithoutOldest(messages: seq<Message>, k: nat): seq<Message>
    requires 2 + k <= |messages|
  {
    messages[..2] + messages[2 + k..]
  }

  lemma DropNone(messages: seq<Message>)
    requires |messages| >= 2
    ensures WithoutOldest(messages, 0) == messages
  {
  }

  lemma DropOneMore(messages: seq<Message>, k: nat)
    requires 2 + k < |messages|
    ensures var kept := WithoutOldest(messages, k);
      |kept| == |messages| - k && kept[..2] + kept[3..] == WithoutOldest(messages, k + 1)
    ensures |WithoutOldest(messages, k + 1)| == |messages| - k - 1
  {
  }

  class ContextWindow {
    var messages: seq<Message>

    constructor (initial: seq<Message>)
      ensures messages == initial
    {
      messages := initial;
    }

    /** Drops no more turns than needed: fewer would not fit, and what is left fits
        or is down to the two messages that are always kept. */
    method Prune(tokenBudget: nat) returns (pruned: bool)
      modifies this
      ensures |old(messages)| <= 2 ==> messages == old(messages)
      ensures |old(messages)| > 2 ==>
                var k := |old(messages)| - |messages|;
                && 0 <= k <= |old(messages)| - 2 && messages == WithoutOldest(old(messages), k)
                && messages[..2] == old(messages)[..2] && messages[2..] == old(messages)[2 + k..]
                && (Tokens(messages) <= tokenBudget || |messages| == 2)
                && forall j :: 0 <= j < k ==> Tokens(WithoutOldest(old(messages), j)) > tokenBudget
      ensures pruned <==> messages != old(messages)
    {
      if |messages| <= 2 {
        return false;
      }
      hide Tokens, WithoutOldest;
      pruned := false;
      ghost var k := 0;
      var estimate := EstimateTokens(messages);
      DropNone(messages);
      while |messages| > 2 && estimate > tokenBudget
        invariant 0 <= k <= |old(messages)| - 2 && |messages| == |old(messages)| - k
        invariant messages == WithoutOldest(old(messages), k)
        invariant estimate == Tokens(messages)
        invariant forall j :: 0 <= j < k ==> Tokens(WithoutOldest(old(messages), j)) > tokenBudget
        invariant pruned <==> k > 0
      {
        DropOneMore(old(messages), k);
        messages := messages[..2] + messages[3..];
        pruned := true;
        k := k + 1;
        estimate := EstimateTokens(messages);
      }
    }
  }

  lemma {:induction false} TokensConcat(a: seq<Message>, b: seq<Message>)
    ensures Tokens(a + b) == Tokens(a) + Tokens(b)
    decreases |b|
  {
    if b == [] {
      assert a + b == a;
    } else {
      assert (a + b)[..|a + b| - 1] == a + b[..|b| - 1];
      TokensConcat(a, b[..|b| - 1]);
    }
  }

  /** Dropping more only makes the conversation lighter, so the number of turns dropped is the
      exact threshold: pruning keeps the longest conversation of its kind that fits. */
  lemma FewerTurnsAreLighter(messages: seq<Message>, j: nat, k: nat)
    requires j <= k && 2 + k <= |messages|
    ensures Tokens(WithoutOldest(messages, k)) <= Tokens(WithoutOldest(messages, j))
  {
    TokensConcat(messages[..2], messages[2 + k..]);
    TokensConcat(messages[..2], messages[2 + j..]);
    TokensConcat(messages[2 + j..2 + k], messages[2 + k..]);
    assert messages[2 + j..] == messages[2 + j..2 + k] + messages[2 + k..];
  }

  function Sum(ns: seq<nat>): nat {
    if ns == [] then 0 else Sum(ns[..|ns| - 1]) + ns[|ns| - 1]
  }

  /** Words in all contents and calls, and how many of these there are. */
  function Words(messages: seq<Message>): nat {
    if messages == [] then 0
    else
      var m := messages[|messages| - 1];
      Words(messages[..|messages| - 1]) + Sum(m.toolCalls) + if m.content.Some? then m.content.value else 0
  }

  function Texts(messages: seq<Message>): nat {
    if messages == [] then 0
    else
      var m := messages[|messages| - 1];
      Texts(messages[..|messages| - 1]) + |m.toolCalls| + if m.content.Some? then 1 else 0
  }

  lemma {:induction false} CallsByWords(calls: seq<nat>)
    ensures 4 * Sum(calls) + 10 * |calls| <= 3 * CallTokens(calls) <= 4 * Sum(calls) + 12 * |calls|
  {
    if calls != [] {
      CallsByWords(calls[..|calls| - 1]);
    }
  }

  /** The estimate is four tokens a text and four thirds of a token a word, less what rounding
      each text down takes off. */
  lemma {:induction false} TokensByWords(messages: seq<Message>)
    ensures 4 * Words(messages) + 10 * Texts(messages) <= 3 * Tokens(messages) <= 4 * Words(messages) + 12 * Texts(messages)
  {
    if messages != [] {
      TokensByWords(messages[..|messages| - 1]);
      CallsByWords(messages[|messages| - 1].toolCalls);
    }
  }
}
