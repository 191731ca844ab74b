/** A request served alone: no pages, no batch, no chunks. The reference that continuous
    batching must agree with. */
module Alone {
  import opened Basics
  import opened PagedKV
  import opened Scheduler
  import opened Executor

  function Tokens(r: Request): seq<Token> {
    r.prompt + r.generated
  }

  /** The logits a model gives after reading `tokens` from scratch. */
  function LogitsAfter(m: Model, tokens: seq<Token>): Logits
    requires tokens != []
  {
    m.logits(tokens[|tokens| - 1], Context(m, tokens))
  }

  /** Generation one token at a time, until a stop or the token limit. */
  function AloneFrom(m: Model, prompt: seq<Token>, sampling: Sampling, maxNew: int, generated: seq<Token>): (r: seq<Token>)
    requires prompt != []
    ensures generated <= r
    decreases maxNew - |generated|
  {
    if |generated| >= maxNew then generated
    else
      var tokens := prompt + generated;
      var sample := m.sample(sampling, LogitsAfter(m, tokens), tokens, |generated|);
      var next := generated + [sample.token];
      if sample.stopped || |next| >= maxNew then next else AloneFrom(m, prompt, sampling, maxNew, next)
  }

  function RunAlone(m: Model, r: Request): seq<Token>
    requires r.prompt != []
  {
    AloneFrom(m, r.prompt, r.sampling, r.maxNew, [])
  }

  // ----- contexts -----

  lemma {:induction false} ExtendAppend(m: Model, cache: seq<KV>, a: seq<Token>, b: seq<Token>)
    ensures Extend(m, cache, a + b) == Extend(m, Extend(m, cache, a), b)
    decreases |a|
  {
    if a == [] {
      assert a + b == b;
    } else {
      assert (a + b)[1..] == a[1..] + b;
      ExtendAppend(m, cache + [m.kv(a[0], |cache|, cache)], a[1..], b);
    }
  }

  lemma {:induction false} ExtendKeepsCache(m: Model, cache: seq<KV>, tokens: seq<Token>)
    ensures cache <= Extend(m, cache, tokens)
    decreases |tokens|
  {
    if tokens != [] {
      ExtendKeepsCache(m, cache + [m.kv(tokens[0], |cache|, cache)], tokens[1..]);
    }
  }

  /** Reading on never changes the rows already there: chunks may be cut anywhere. */
  lemma ContextPrefix(m: Model, a: seq<Token>, b: seq<Token>)
    ensures Context(m, a) == Context(m, a + b)[..|a|]
    ensures Context(m, a + b) == Extend(m, Context(m, a), b)
  {
    ExtendAppend(m, [], a, b);
    ExtendKeepsCache(m, Context(m, a), b);
  }

  /** The row of a new last token. */
  lemma ContextLast(m: Model, a: seq<Token>, t: Token)
    ensures Context(m, a + [t]) == Context(m, a) + [m.kv(t, |a|, Context(m, a))]
  {
    ExtendAppend(m, [], a, [t]);
    var c := Context(m, a);
    assert Extend(m, c, [t]) == Extend(m, c + [m.kv(t, |c|, c)], []);
  }

  /** The first `n` rows are the context of the first `n` tokens. */
  lemma ContextTake(m: Model, tokens: seq<Token>, n: nat)
    requires n <= |tokens|
    ensures Context(m, tokens)[..n] == Context(m, tokens[..n])
  {
    ContextPrefix(m, tokens[..n], tokens[n..]);
    assert tokens[..n] + tokens[n..] == tokens;
  }
}
