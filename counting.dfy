/**
 * Count accumulation (`estimate`): every n-gram is split into its context
 * (all tokens but the last) and its next token, and the nested counter
 * context -> next token -> count is incremented once per n-gram.
 */
module Counting {
  import opened NGrams

  /** A context: the first `ngram_size - 1` tokens of an n-gram. */
  type Context = seq<string>
  /** Next token -> count, for one context. */
  type Counts = map<string, nat>
  /** `ngram_counter`: context -> next token -> count. */
  type Counter = map<Context, Counts>

  /** The context of an n-gram: all of its tokens but the last. */
  function ContextOf(w: seq<string>): Context
    requires |w| >= 1
  {
    w[..|w| - 1]
  }

  /** The token an n-gram predicts: its last one. */
  function NextOf(w: seq<string>): string
    requires |w| >= 1
  {
    w[|w| - 1]
  }

  /** The counts recorded for a context; a missing context has none. */
  function Inner(c: Counter, ctx: Context): Counts {
    if ctx in c then c[ctx] else map[]
  }

  /** The count of `t` in one context's counts, 0 when absent. */
  function CountOf(inner: Counts, t: string): nat {
    if t in inner then inner[t] else 0
  }

  /** The count of `t` after `ctx`, 0 when either is absent. */
  function Get(c: Counter, ctx: Context, t: string): nat {
    CountOf(Inner(c, ctx), t)
  }

  /** `ngram_counter[context][next] += 1` on an auto-creating counter; an empty window changes nothing. */
  function Bump(c: Counter, w: seq<string>): Counter {
    if |w| == 0 then c
    else
      var inner := Inner(c, ContextOf(w));
      c[ContextOf(w) := inner[NextOf(w) := Get(c, ContextOf(w), NextOf(w)) + 1]]
  }

  /** The counter after counting the windows `ws` in order, starting from `c`. */
  function Tally(c: Counter, ws: seq<seq<string>>): Counter
    decreases |ws|
  {
    if ws == [] then c else Bump(Tally(c, ws[..|ws| - 1]), ws[|ws| - 1])
  }

  /** All n-grams of a corpus of (already stripped) lines, line after line. */
  function CorpusNGrams(corpus: seq<string>, n: nat, pad: bool): seq<seq<string>>
    decreases |corpus|
  {
    if corpus == [] then []
    else CorpusNGrams(corpus[..|corpus| - 1], n, pad) + NGramsOf(corpus[|corpus| - 1], n, pad)
  }

  /** The vocabulary of one `estimate` call: the set of next tokens of its windows. */
  function Vocabulary(ws: seq<seq<string>>): (v: set<string>)
    ensures forall t :: t in v <==> exists i :: 0 <= i < |ws| && |ws[i]| >= 1 && NextOf(ws[i]) == t
    decreases |ws|
  {
    if ws == [] then {}
    else
      var last := ws[|ws| - 1];
      var v := Vocabulary(ws[..|ws| - 1]);
      assert forall i :: 0 <= i < |ws| - 1 ==> ws[..|ws| - 1][i] == ws[i];
      if |last| >= 1 then v + {NextOf(last)} else v
  }

  /** Every window has at least one token, so it has a next token to count. */
  predicate NonEmptyWindows(ws: seq<seq<string>>) {
    forall i :: 0 <= i < |ws| ==> |ws[i]| >= 1
  }

  /** Every stored count is at least one. */
  predicate Positive(c: Counter) {
    forall ctx, t :: ctx in c && t in c[ctx] ==> c[ctx][t] >= 1
  }

  /** Number of windows of `ws` whose context is `ctx`. */
  function ContextCount(ws: seq<seq<string>>, ctx: Context): nat
    decreases |ws|
  {
    if ws == [] then 0
    else
      var last := ws[|ws| - 1];
      ContextCount(ws[..|ws| - 1], ctx) + (if |last| >= 1 && ContextOf(last) == ctx then 1 else 0)
  }

  /** Some key of a non-empty map; which one does not matter (see TotalRemove). */
  ghost function Pick(m: Counts): (t: string)
    requires |m| > 0
    ensures t in m
  {
    var t :| t in m; t
  }

  /** Sum of the counts of one context (`sum(counts.values())`). */
  ghost function Total(m: Counts): nat
    decreases |m|
  {
    if |m| == 0 then 0 else m[Pick(m)] + Total(m - {Pick(m)})
  }

  /** Removing one key of a map leaves one key fewer. */
  lemma {:induction false} RemoveOneKey(m: Counts, t: string)
    requires t in m
    ensures |m - {t}| == |m| - 1
  {
    assert (m - {t}).Keys == m.Keys - {t};
  }

  /** The sum does not depend on which entry is taken out first. */
  lemma {:induction false} TotalRemove(m: Counts, t: string)
    requires t in m
    ensures Total(m) == m[t] + Total(m - {t})
    decreases |m|
  {
    var s := Pick(m);
    if s != t {
      RemoveOneKey(m, s);
      RemoveOneKey(m, t);
      TotalRemove(m - {s}, t);
      TotalRemove(m - {t}, s);
      assert m - {s} - {t} == m - {t} - {s};
    }
  }

  /** Taking a key out of a map lowers the total by its count, if it was there. */
  lemma {:induction false} TotalWithout(m: Counts, t: string)
    ensures Total(m) == (if t in m then m[t] else 0) + Total(m - {t})
  {
    if t in m {
      TotalRemove(m, t);
    } else {
      assert m - {t} == m;
    }
  }

  /** Setting one entry changes the sum by the difference of the old and new counts. */
  lemma {:induction false} TotalUpdate(m: Counts, t: string, k: nat)
    ensures Total(m[t := k]) == Total(m) - (if t in m then m[t] else 0) + k
  {
    TotalRemove(m[t := k], t);
    UpdateThenRemove(m, t, k);
    TotalWithout(m, t);
  }

  /** Setting a key and then removing it is removing it. */
  lemma {:induction false} UpdateThenRemove<K, V>(m: map<K, V>, t: K, v: V)
    ensures m[t := v] - {t} == m - {t}
  {
  }

  /** No single count exceeds the total of its context. */
  lemma {:induction false} CountAtMostTotal(m: Counts, t: string)
    requires t in m
    ensures m[t] <= Total(m)
  {
    TotalRemove(m, t);
  }

  /** Splitting off the last window of a non-empty window sequence. */
  lemma {:induction false} SplitLast(ws: seq<seq<string>>)
    requires ws != []
    ensures ws == ws[..|ws| - 1] + [ws[|ws| - 1]]
    ensures multiset(ws) == multiset(ws[..|ws| - 1]) + multiset{ws[|ws| - 1]}
  {
    assert ws == ws[..|ws| - 1] + [ws[|ws| - 1]];
  }

  /** One increment: only the pair of the window's context and next token changes, by one. */
  lemma {:induction false} BumpCounts(c: Counter, w: seq<string>, ctx: Context, t: string)
    requires |w| >= 1
    ensures Get(Bump(c, w), ctx, t) == Get(c, ctx, t) + (if w == ctx + [t] then 1 else 0)
    ensures (ctx in Bump(c, w) && t in Bump(c, w)[ctx]) <==> (ctx in c && t in c[ctx]) || w == ctx + [t]
    ensures ctx in Bump(c, w) <==> ctx in c || ContextOf(w) == ctx
  {
    assert w == ContextOf(w) + [NextOf(w)];
    assert (w == ctx + [t]) <==> (ContextOf(w) == ctx && NextOf(w) == t);
  }

  /** Dropping the last window keeps every window non-empty. */
  lemma {:induction false} InitNonEmpty(ws: seq<seq<string>>)
    requires ws != [] && NonEmptyWindows(ws)
    ensures NonEmptyWindows(ws[..|ws| - 1])
  {
    var init := ws[..|ws| - 1];
    forall i | 0 <= i < |init| ensures |init[i]| >= 1 {
      assert init[i] == ws[i];
    }
  }

  /** After counting `ws`, the count of `t` after `ctx` grew by the number of windows equal to `ctx + [t]`. */
  lemma {:induction false} TallyGet(c: Counter, ws: seq<seq<string>>, ctx: Context, t: string)
    requires NonEmptyWindows(ws)
    ensures Get(Tally(c, ws), ctx, t) == Get(c, ctx, t) + multiset(ws)[ctx + [t]]
    decreases |ws|
  {
    if ws != [] {
      var init, w := ws[..|ws| - 1], ws[|ws| - 1];
      SplitLast(ws);
      InitNonEmpty(ws);
      TallyGet(c, init, ctx, t);
      BumpCounts(Tally(c, init), w, ctx, t);
    }
  }

  /** The pair `ctx`, `t` is present after counting exactly when it was before or some window is `ctx + [t]`. */
  lemma {:induction false} TallyHas(c: Counter, ws: seq<seq<string>>, ctx: Context, t: string)
    requires NonEmptyWindows(ws)
    ensures (ctx in Tally(c, ws) && t in Tally(c, ws)[ctx]) <==> (ctx in c && t in c[ctx]) || ctx + [t] in ws
    decreases |ws|
  {
    if ws != [] {
      var init, w := ws[..|ws| - 1], ws[|ws| - 1];
      SplitLast(ws);
      InitNonEmpty(ws);
      TallyHas(c, init, ctx, t);
      BumpCounts(Tally(c, init), w, ctx, t);
      assert ctx + [t] in ws <==> ctx + [t] in init || w == ctx + [t];
    }
  }

  /** A context is present after counting exactly when it was before or some window has it. */
  lemma {:induction false} TallyContext(c: Counter, ws: seq<seq<string>>, ctx: Context)
    requires NonEmptyWindows(ws)
    ensures ctx in Tally(c, ws) <==> ctx in c || exists i :: 0 <= i < |ws| && ContextOf(ws[i]) == ctx
    decreases |ws|
  {
    if ws != [] {
      var init, w := ws[..|ws| - 1], ws[|ws| - 1];
      SplitLast(ws);
      InitNonEmpty(ws);
      TallyContext(c, init, ctx);
      BumpCounts(Tally(c, init), w, ctx, "");
      if ContextOf(w) == ctx {
        assert ContextOf(ws[|ws| - 1]) == ctx;
      }
      if exists i :: 0 <= i < |ws| && ContextOf(ws[i]) == ctx {
        var i :| 0 <= i < |ws| && ContextOf(ws[i]) == ctx;
        if i < |init| {
          assert ContextOf(init[i]) == ctx;
        }
      }
      if exists i :: 0 <= i < |init| && ContextOf(init[i]) == ctx {
        var i :| 0 <= i < |init| && ContextOf(init[i]) == ctx;
        assert ContextOf(ws[i]) == ctx;
      }
    }
  }

  /**
   * Counting is a multiset fact: after counting `ws`, the count of `t` after
   * `ctx` grew by exactly the number of windows equal to `ctx + [t]`; the pair
   * is present exactly when it was before or such a window exists; and a
   * context is present exactly when it was before or some window has it.
   */
  lemma {:induction false} TallyCounts(c: Counter, ws: seq<seq<string>>, ctx: Context, t: string)
    requires NonEmptyWindows(ws)
    ensures Get(Tally(c, ws), ctx, t) == Get(c, ctx, t) + multiset(ws)[ctx + [t]]
    ensures (ctx in Tally(c, ws) && t in Tally(c, ws)[ctx]) <==> (ctx in c && t in c[ctx]) || ctx + [t] in ws
    ensures ctx in Tally(c, ws) <==> ctx in c || exists i :: 0 <= i < |ws| && ContextOf(ws[i]) == ctx
  {
    TallyGet(c, ws, ctx, t);
    TallyHas(c, ws, ctx, t);
    TallyContext(c, ws, ctx);
  }

  /** Every counted window leaves its context in the counter. */
  lemma {:induction false} TallyHasContext(c: Counter, ws: seq<seq<string>>, w: seq<string>)
    requires NonEmptyWindows(ws) && w in ws
    ensures ContextOf(w) in Tally(c, ws)
  {
    var i :| 0 <= i < |ws| && ws[i] == w;
    TallyCounts(c, ws, ContextOf(w), "");
  }

  /** Counting keeps every stored count at least one. */
  lemma {:induction false} TallyKeepsPositive(c: Counter, ws: seq<seq<string>>)
    requires Positive(c)
    ensures Positive(Tally(c, ws))
    decreases |ws|
  {
    if ws != [] {
      TallyKeepsPositive(c, ws[..|ws| - 1]);
    }
  }

  /** One increment adds one to the total of the window's context and leaves the others alone. */
  lemma {:induction false} BumpTotal(c: Counter, w: seq<string>, ctx: Context)
    ensures Total(Inner(Bump(c, w), ctx)) == Total(Inner(c, ctx)) + (if |w| >= 1 && ContextOf(w) == ctx then 1 else 0)
  {
    if |w| >= 1 && ContextOf(w) == ctx {
      BumpOwnTotal(c, w);
    } else if |w| >= 1 {
      assert Inner(Bump(c, w), ctx) == Inner(c, ctx);
    }
  }

  /** Counting a window adds one to the total of its own context. */
  lemma {:induction false} BumpOwnTotal(c: Counter, w: seq<string>)
    requires |w| >= 1
    ensures Total(Inner(Bump(c, w), ContextOf(w))) == Total(Inner(c, ContextOf(w))) + 1
  {
    var ctx, t := ContextOf(w), NextOf(w);
    var inner := Inner(c, ctx);
    var k := Get(c, ctx, t);
    assert Inner(Bump(c, w), ctx) == inner[t := k + 1];
    assert k == (if t in inner then inner[t] else 0);
    TotalUpdate(inner, t, k + 1);
  }

  /** A context's total grows by the number of windows with that context. */
  lemma {:induction false} TallyTotal(c: Counter, ws: seq<seq<string>>, ctx: Context)
    ensures Total(Inner(Tally(c, ws), ctx)) == Total(Inner(c, ctx)) + ContextCount(ws, ctx)
    decreases |ws|
  {
    if ws != [] {
      TallyTotal(c, ws[..|ws| - 1], ctx);
      BumpTotal(Tally(c, ws[..|ws| - 1]), ws[|ws| - 1], ctx);
    }
  }

  /** Counting `a` then `b` is counting `a + b`: a second call accumulates on top of the first. */
  lemma {:induction false} TallyAppend(c: Counter, a: seq<seq<string>>, b: seq<seq<string>>)
    ensures Tally(Tally(c, a), b) == Tally(c, a + b)
    decreases |b|
  {
    if b == [] {
      assert a + b == a;
    } else {
      TallyAppend(c, a, b[..|b| - 1]);
      assert (a + b)[..|a + b| - 1] == a + b[..|b| - 1];
    }
  }

  /** The order in which windows are counted does not matter. */
  lemma {:induction false} TallyPermutation(c: Counter, a: seq<seq<string>>, b: seq<seq<string>>)
    requires NonEmptyWindows(a) && NonEmptyWindows(b)
    requires multiset(a) == multiset(b)
    ensures Tally(c, a) == Tally(c, b)
  {
    var ta, tb := Tally(c, a), Tally(c, b);
    forall ctx | ctx in ta
      ensures ctx in tb
    {
      TallyCounts(c, a, ctx, "");
      TallyCounts(c, b, ctx, "");
      if ctx !in c {
        var i :| 0 <= i < |a| && ContextOf(a[i]) == ctx;
        assert a[i] in multiset(b);
        var j :| 0 <= j < |b| && b[j] == a[i];
        assert ContextOf(b[j]) == ctx;
      }
    }
    forall ctx | ctx in tb
      ensures ctx in ta
    {
      TallyCounts(c, a, ctx, "");
      TallyCounts(c, b, ctx, "");
      if ctx !in c {
        var j :| 0 <= j < |b| && ContextOf(b[j]) == ctx;
        assert b[j] in multiset(a);
        var i :| 0 <= i < |a| && a[i] == b[j];
        assert ContextOf(a[i]) == ctx;
      }
    }
    forall ctx | ctx in ta
      ensures ta[ctx] == tb[ctx]
    {
      forall t
        ensures t in ta[ctx] <==> t in tb[ctx]
        ensures t in ta[ctx] ==> ta[ctx][t] == tb[ctx][t]
      {
        TallyCounts(c, a, ctx, t);
        TallyCounts(c, b, ctx, t);
        assert ctx + [t] in a <==> ctx + [t] in multiset(b);
      }
    }
  }
}
