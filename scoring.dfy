/**
 * Scoring with a trained model: the add-delta (Lidstone) smoothed
 * conditional probability of one n-gram (`ngram_probability`) and the
 * length-normalised log-probability of an utterance (`assign_logprob`).
 */
module Scoring {
  import opened Wrappers
  import opened NGrams
  import opened Counting

  /** Everything a model holds: its hyperparameters and what training estimated. */
  datatype ModelState = ModelState(
    language: Option<string>,
    padUtterances: bool,
    ngramSize: nat,
    smooth: real,
    counter: Counter,
    denominatorSmoother: Option<real>)

  /** Errors Python raises while scoring: arithmetic on `None`, and division by zero. */
  datatype Fault = TypeError | ZeroDivisionError

  /** `assign_logprob`'s answer: `False` when there is nothing to score, else the normalised log-probability. */
  datatype Score = CannotScore | LogProb(value: real)

  /** `a / b` for a divisor that may be `None`. */
  function Divide(a: real, b: Option<real>): Result<real, Fault> {
    match b
    case None => Failure(TypeError)
    case Some(d) => if d == 0.0 then Failure(ZeroDivisionError) else Success(a / d)
  }

  /** A quotient of positives whose numerator is at most its denominator lies in (0, 1]. */
  lemma {:induction false} QuotientInUnitInterval(a: real, b: real)
    requires 0.0 < a <= b
    ensures 0.0 < a / b <= 1.0
  {
  }

  /** Fractions over a common non-zero denominator add up numerator-wise. */
  lemma {:induction false} AddFractions(a: real, b: real, d: real)
    requires d != 0.0
    ensures a / d + b / d == (a + b) / d
  {
  }

  /** Adding one term in [lo, hi] to a sum of k such terms gives a sum of k + 1 of them. */
  lemma {:induction false} AddWithinBounds(x: real, s: real, k: nat, lo: real, hi: real)
    requires lo <= x <= hi && k as real * lo <= s <= k as real * hi
    ensures (k + 1) as real * lo <= x + s <= (k + 1) as real * hi
  {
  }

  /** Dividing bounds `k * lo <= s <= k * hi` by a positive `k`. */
  lemma {:induction false} MeanWithinBounds(s: real, k: real, lo: real, hi: real)
    requires k > 0.0 && k * lo <= s <= k * hi
    ensures lo <= s / k <= hi
  {
  }

  /**
   * A non-empty vocabulary with a positive `smooth` gives a positive
   * divisor `total + |V| * smooth`.
   */
  lemma {:induction false} PositiveDivisor(total: nat, vs: seq<string>, s: real, d: real)
    requires |vs| >= 1 && s > 0.0 && d == |vs| as real * s
    ensures total as real + d > 0.0
  {
    assert |vs| as real * s >= s;
  }

  /** `k` equal shares `s / (k * s)` make up one. */
  lemma {:induction false} UniformShares(k: real, s: real)
    requires k >= 1.0 && s > 0.0
    ensures k * s > 0.0 && k * (s / (k * s)) == 1.0
  {
    assert k * s >= s;
  }

  /**
   * `not self.ngram_counter.get(context, False)`: the context is absent, or
   * maps to an empty dictionary, which Python also treats as false.
   */
  predicate Unseen(c: Counter, ctx: Context) {
    ctx !in c || c[ctx] == map[]
  }

  /**
   * `ngram_probability`: for an unseen context `smooth / denominator_smoother`;
   * otherwise `(count(next) + smooth) / (total(context) + denominator_smoother)`.
   */
  ghost function NgramProbability(m: ModelState, ngram: seq<string>): Result<real, Fault>
    requires |ngram| >= 1
  {
    var ctx := ContextOf(ngram);
    if Unseen(m.counter, ctx) then Divide(m.smooth, m.denominatorSmoother)
    else
      match m.denominatorSmoother
      case None => Failure(TypeError)
      case Some(d) =>
        var denominator := Total(m.counter[ctx]) as real + d;
        if denominator == 0.0 then Failure(ZeroDivisionError)
        else Success((Get(m.counter, ctx, NextOf(ngram)) as real + m.smooth) / denominator)
  }

  /** The n-gram made of a context and a next token splits back into them. */
  lemma {:induction false} ContextAndNext(ctx: Context, t: string)
    ensures ContextOf(ctx + [t]) == ctx && NextOf(ctx + [t]) == t
  {
  }

  /**
   * For an unseen context the probability does not depend on the next token,
   * and it is `smooth / denominator_smoother` when that divisor is non-zero.
   */
  lemma {:induction false} UnseenContextIgnoresNextToken(m: ModelState, ctx: Context, t1: string, t2: string)
    requires Unseen(m.counter, ctx)
    ensures NgramProbability(m, ctx + [t1]) == NgramProbability(m, ctx + [t2])
    ensures m.denominatorSmoother.Some? && m.denominatorSmoother.value != 0.0 ==>
      NgramProbability(m, ctx + [t1]) == Success(m.smooth / m.denominatorSmoother.value)
  {
    ContextAndNext(ctx, t1);
    ContextAndNext(ctx, t2);
  }

  /**
   * For a seen context the probability is the Lidstone estimate
   * `(count + smooth) / (total + denominator_smoother)`, with count 0 for a
   * next token never seen after the context.
   */
  lemma {:induction false} SeenContextLidstone(m: ModelState, ctx: Context, t: string)
    requires !Unseen(m.counter, ctx)
    requires m.denominatorSmoother.Some?
    requires Total(m.counter[ctx]) as real + m.denominatorSmoother.value != 0.0
    ensures var denominator := Total(m.counter[ctx]) as real + m.denominatorSmoother.value;
      && (t in m.counter[ctx] ==> NgramProbability(m, ctx + [t]) == Success((m.counter[ctx][t] as real + m.smooth) / denominator))
      && (t !in m.counter[ctx] ==> NgramProbability(m, ctx + [t]) == Success(m.smooth / denominator))
  {
    ContextAndNext(ctx, t);
  }

  /** With a positive divisor scoring never raises. */
  lemma {:induction false} ProbabilityDefined(m: ModelState, ngram: seq<string>)
    requires |ngram| >= 1
    requires m.denominatorSmoother.Some? && m.denominatorSmoother.value > 0.0
    ensures NgramProbability(m, ngram).Success?
  {
  }

  /**
   * With `smooth > 0` and `denominator_smoother >= smooth` (as after training
   * on a non-empty vocabulary) every probability is defined, strictly
   * positive and at most one.
   */
  lemma {:induction false} ProbabilityInUnitInterval(m: ModelState, ngram: seq<string>)
    requires |ngram| >= 1
    requires m.smooth > 0.0
    requires m.denominatorSmoother.Some? && m.denominatorSmoother.value >= m.smooth
    ensures NgramProbability(m, ngram).Success?
    ensures 0.0 < NgramProbability(m, ngram).value <= 1.0
  {
    var ctx, t, d := ContextOf(ngram), NextOf(ngram), m.denominatorSmoother.value;
    if !Unseen(m.counter, ctx) {
      var total := Total(m.counter[ctx]) as real;
      if t in m.counter[ctx] {
        CountAtMostTotal(m.counter[ctx], t);
      }
      QuotientInUnitInterval(Get(m.counter, ctx, t) as real + m.smooth, total + d);
    } else {
      QuotientInUnitInterval(m.smooth, d);
    }
  }

  /** Two Lidstone numerators over the same divisor differ by the count alone. */
  lemma {:induction false} SeenGap(c: real, s: real, d: real)
    requires d != 0.0
    ensures (c + s) / d - s / d == c / d
  {
  }

  /** A non-negative numerator over a larger positive divisor gives a smaller quotient. */
  lemma {:induction false} DivideByLarger(c: real, x: real, y: real)
    requires c >= 0.0 && 0.0 < x <= y
    ensures c / y <= c / x
  {
    assert c / y * y == c && c / x * x == c;
    assert c / y * x <= c / y * y;
  }

  /** Scaling a positive smoothing constant by `k >= 1` keeps its order and sign. */
  lemma {:induction false} ScaleMonotone(k: real, a: real, b: real)
    requires k >= 1.0 && 0.0 < a <= b
    ensures 0.0 < k * a <= k * b
  {
    assert k * a >= a;
  }

  /**
   * Raising `smooth` flattens the distribution: with the counts fixed and
   * `denominator_smoother == k * smooth`, the probability gap between a
   * next token seen after a context and one never seen after it does not
   * grow when `smooth` grows (both gaps are `count / (total + k * smooth)`).
   */
  lemma {:induction false} SmoothingFlattens(m1: ModelState, m2: ModelState, ctx: Context, t: string, u: string, k: nat)
    requires m1.counter == m2.counter && !Unseen(m1.counter, ctx)
    requires t in m1.counter[ctx] && u !in m1.counter[ctx]
    requires k >= 1 && 0.0 < m1.smooth <= m2.smooth
    requires m1.denominatorSmoother == Some(k as real * m1.smooth)
    requires m2.denominatorSmoother == Some(k as real * m2.smooth)
    ensures NgramProbability(m1, ctx + [t]).Success? && NgramProbability(m1, ctx + [u]).Success? &&
            NgramProbability(m2, ctx + [t]).Success? && NgramProbability(m2, ctx + [u]).Success? &&
            NgramProbability(m2, ctx + [t]).value - NgramProbability(m2, ctx + [u]).value
              <= NgramProbability(m1, ctx + [t]).value - NgramProbability(m1, ctx + [u]).value
  {
    var count := m1.counter[ctx][t] as real;
    var total := Total(m1.counter[ctx]) as real;
    ScaleMonotone(k as real, m1.smooth, m2.smooth);
    var d1 := total + m1.denominatorSmoother.value;
    var d2 := total + m2.denominatorSmoother.value;
    assert 0.0 < d1 <= d2;
    SeenContextLidstone(m1, ctx, t);
    SeenContextLidstone(m1, ctx, u);
    SeenContextLidstone(m2, ctx, t);
    SeenContextLidstone(m2, ctx, u);
    SeenGap(count, m1.smooth, d1);
    SeenGap(count, m2.smooth, d2);
    DivideByLarger(count, d1, d2);
  }

  /** No token occurs twice. */
  predicate Distinct(vs: seq<string>) {
    forall i, j :: 0 <= i < j < |vs| ==> vs[i] != vs[j]
  }

  /** Every token counted in `inner` occurs in `vs`. */
  predicate Listed(inner: Counts, vs: seq<string>) {
    forall t {:trigger t in inner} :: t in inner ==> t in vs
  }

  /** The probability, or 0 where scoring raises. */
  ghost function ProbabilityOrZero(m: ModelState, ngram: seq<string>): real
    requires |ngram| >= 1
  {
    match NgramProbability(m, ngram)
    case Success(p) => p
    case Failure(_) => 0.0
  }

  /** Total probability given to the tokens `vs` after `ctx`. */
  ghost function Mass(m: ModelState, ctx: Context, vs: seq<string>): real
    decreases |vs|
  {
    if vs == [] then 0.0 else ProbabilityOrZero(m, ctx + [vs[0]]) + Mass(m, ctx, vs[1..])
  }

  /** Sum of the counts of the tokens `vs`. */
  function SumCounts(inner: Counts, vs: seq<string>): nat
    decreases |vs|
  {
    if vs == [] then 0 else CountOf(inner, vs[0]) + SumCounts(inner, vs[1..])
  }

  /** Sum over `vs` of the Lidstone numerators `count + smooth` after `ctx`. */
  function Numerators(c: Counter, ctx: Context, vs: seq<string>, smooth: real): real
    decreases |vs|
  {
    if vs == [] then 0.0 else (Get(c, ctx, vs[0]) as real + smooth) + Numerators(c, ctx, vs[1..], smooth)
  }

  /** Dropping a key that `vs` does not mention does not change their sum. */
  lemma {:induction false} SumCountsIgnores(inner: Counts, vs: seq<string>, t: string)
    requires t !in vs
    ensures SumCounts(inner - {t}, vs) == SumCounts(inner, vs)
    decreases |vs|
  {
    if vs != [] {
      SumCountsIgnores(inner, vs[1..], t);
    }
  }

  /** The head of a sequence without repetitions does not occur in its tail, which has none either. */
  lemma {:induction false} DistinctTail(vs: seq<string>)
    requires vs != [] && Distinct(vs)
    ensures vs[0] !in vs[1..] && Distinct(vs[1..])
  {
    forall i, j | 0 <= i < j < |vs| - 1 ensures vs[1..][i] != vs[1..][j] {
      assert vs[i + 1] != vs[j + 1];
    }
  }

  /** Summing over an enumeration of a superset of the keys gives the total. */
  lemma {:induction false} SumCountsIsTotal(inner: Counts, vs: seq<string>)
    requires Distinct(vs)
    requires Listed(inner, vs)
    ensures SumCounts(inner, vs) == Total(inner)
    decreases |vs|
  {
    if vs == [] {
      assert inner == map[];
    } else {
      var t, rest := vs[0], vs[1..];
      DistinctTail(vs);
      var others := inner - {t};
      assert Listed(others, rest) by {
        forall u | u in others ensures u in rest {
          assert u in vs && u != vs[0];
        }
      }
      SumCountsIsTotal(others, rest);
      SumCountsIgnores(inner, rest, t);
      TotalWithout(inner, t);
    }
  }

  /** A numerator that is zero over a non-zero divisor gives zero. */
  lemma {:induction false} ZeroOver(n: real, d: real)
    requires n == 0.0 && d != 0.0
    ensures n / d == 0.0
  {
  }

  /** A numerator equal to its non-zero divisor gives one. */
  lemma {:induction false} SelfQuotient(n: real, d: real)
    requires n == d && d != 0.0
    ensures n / d == 1.0
  {
  }

  /** One more element adds one more `s` to `|xs| * s`. */
  lemma {:induction false} DistributeOne(xs: seq<string>, s: real)
    requires xs != []
    ensures |xs| as real * s == |xs[1..]| as real * s + s
  {
    assert |xs| as real == |xs[1..]| as real + 1.0;
  }

  /** One step of the sum `numerators = counts + k * smooth`, with the products taken as given. */
  lemma {:induction false} AddStep(g: real, s: real, rest: real, counts: real, scaled: real, scaledMore: real)
    requires rest == counts + scaled && scaledMore == scaled + s
    ensures (g + s) + rest == (g + counts) + scaledMore
  {
  }

  /** The numerators add up to the summed counts plus `|vs| * smooth`. */
  lemma {:induction false} NumeratorsClosed(c: Counter, ctx: Context, vs: seq<string>, smooth: real)
    requires ctx in c
    ensures Numerators(c, ctx, vs, smooth) == SumCounts(c[ctx], vs) as real + |vs| as real * smooth
    decreases |vs|
  {
    if vs != [] {
      var tail := vs[1..];
      NumeratorsClosed(c, ctx, tail, smooth);
      DistributeOne(vs, smooth);
      AddStep(Get(c, ctx, vs[0]) as real, smooth, Numerators(c, ctx, tail, smooth), SumCounts(c[ctx], tail) as real,
              |tail| as real * smooth, |vs| as real * smooth);
    }
  }

  /** For a seen context, one token's probability as a Lidstone numerator over the common divisor. */
  lemma {:induction false} SeenShare(m: ModelState, ctx: Context, t: string, denominator: real)
    requires !Unseen(m.counter, ctx)
    requires m.denominatorSmoother.Some?
    requires denominator == Total(m.counter[ctx]) as real + m.denominatorSmoother.value != 0.0
    ensures ProbabilityOrZero(m, ctx + [t]) == (Get(m.counter, ctx, t) as real + m.smooth) / denominator
  {
    ContextAndNext(ctx, t);
  }

  /** For a seen context the mass of `vs` is their summed numerators over the common divisor. */
  lemma {:induction false} SeenMass(m: ModelState, ctx: Context, vs: seq<string>, denominator: real)
    requires !Unseen(m.counter, ctx)
    requires m.denominatorSmoother.Some?
    requires denominator == Total(m.counter[ctx]) as real + m.denominatorSmoother.value != 0.0
    ensures Mass(m, ctx, vs) == Numerators(m.counter, ctx, vs, m.smooth) / denominator
    decreases |vs|
  {
    if vs == [] {
      ZeroOver(Numerators(m.counter, ctx, vs, m.smooth), denominator);
    } else {
      SeenMass(m, ctx, vs[1..], denominator);
      SeenShare(m, ctx, vs[0], denominator);
      AddFractions(Get(m.counter, ctx, vs[0]) as real + m.smooth, Numerators(m.counter, ctx, vs[1..], m.smooth), denominator);
    }
  }

  /** Every token gets the same share `a`: the mass is `|vs| * a`. */
  lemma {:induction false} UniformMass(m: ModelState, ctx: Context, vs: seq<string>, a: real)
    requires forall t :: ProbabilityOrZero(m, ctx + [t]) == a
    ensures Mass(m, ctx, vs) == |vs| as real * a
    decreases |vs|
  {
    if vs != [] {
      UniformMass(m, ctx, vs[1..], a);
    }
  }

  /** Normalisation after an unseen context: `|V|` equal shares `smooth / (|V| * smooth)`. */
  lemma {:induction false} UnseenSumToOne(m: ModelState, ctx: Context, vs: seq<string>)
    requires m.smooth > 0.0 && |vs| >= 1
    requires m.denominatorSmoother == Some(|vs| as real * m.smooth)
    requires Unseen(m.counter, ctx)
    ensures Mass(m, ctx, vs) == 1.0
  {
    var k := |vs| as real;
    var d := m.denominatorSmoother.value;
    UniformShares(k, m.smooth);
    forall t ensures ProbabilityOrZero(m, ctx + [t]) == m.smooth / d {
      UnseenContextIgnoresNextToken(m, ctx, t, t);
    }
    UniformMass(m, ctx, vs, m.smooth / d);
  }

  /**
   * After a seen context whose tokens all lie in the enumeration `vs` of the
   * vocabulary, the numerators add up to the divisor `total + |V| * smooth`.
   */
  lemma {:induction false} NumeratorsAreDivisor(c: Counter, ctx: Context, vs: seq<string>, smooth: real, d: real)
    requires Distinct(vs)
    requires ctx in c
    requires Listed(c[ctx], vs)
    requires d == |vs| as real * smooth
    ensures Numerators(c, ctx, vs, smooth) == Total(c[ctx]) as real + d
  {
    SumCountsIsTotal(c[ctx], vs);
    NumeratorsClosed(c, ctx, vs, smooth);
  }

  /** Normalisation after a seen context, once the numerators are known to add up to the divisor. */
  lemma {:induction false} SeenSumToOne(m: ModelState, ctx: Context, vs: seq<string>, d: real)
    requires !Unseen(m.counter, ctx)
    requires m.denominatorSmoother == Some(d)
    requires Total(m.counter[ctx]) as real + d > 0.0
    requires Numerators(m.counter, ctx, vs, m.smooth) == Total(m.counter[ctx]) as real + d
    ensures Mass(m, ctx, vs) == 1.0
  {
    SeenMass(m, ctx, vs, Total(m.counter[ctx]) as real + d);
    SelfQuotient(Numerators(m.counter, ctx, vs, m.smooth), Total(m.counter[ctx]) as real + d);
  }

  /** Normalisation after a seen context whose tokens all lie in `vs`, with `d == |vs| * smooth`. */
  lemma {:induction false} SeenNormalised(m: ModelState, ctx: Context, vs: seq<string>, d: real)
    requires m.smooth > 0.0
    requires |vs| >= 1 && Distinct(vs)
    requires d == |vs| as real * m.smooth && m.denominatorSmoother == Some(d)
    requires !Unseen(m.counter, ctx) && Listed(m.counter[ctx], vs)
    ensures Mass(m, ctx, vs) == 1.0
  {
    var total := Total(m.counter[ctx]);
    PositiveDivisor(total, vs, m.smooth, d);
    NumeratorsAreDivisor(m.counter, ctx, vs, m.smooth, d);
    SeenSumToOne(m, ctx, vs, d);
  }

  /**
   * The smoothed distribution is normalised: summed over an enumeration of
   * the vocabulary V, with `denominator_smoother == |V| * smooth`, the
   * probabilities after any context add up to one, provided every token
   * counted after that context belongs to V.
   */
  lemma {:induction false} SumToOne(m: ModelState, ctx: Context, vs: seq<string>)
    requires m.smooth > 0.0
    requires |vs| >= 1 && Distinct(vs)
    requires m.denominatorSmoother == Some(|vs| as real * m.smooth)
    requires ctx in m.counter ==> Listed(m.counter[ctx], vs)
    ensures Mass(m, ctx, vs) == 1.0
  {
    if Unseen(m.counter, ctx) {
      UnseenSumToOne(m, ctx, vs);
    } else {
      SeenNormalised(m, ctx, vs, m.denominatorSmoother.value);
    }
  }

  /**
   * The probabilities of the n-grams, in order (the list that
   * `assign_logprob` builds); it raises as soon as one n-gram does.
   */
  ghost function Probabilities(m: ModelState, ngrams: seq<seq<string>>): (r: Result<seq<real>, Fault>)
    requires NonEmptyWindows(ngrams)
    ensures r.Success? <==> forall i :: 0 <= i < |ngrams| ==> NgramProbability(m, ngrams[i]).Success?
    ensures r.Success? ==> |r.value| == |ngrams|
    ensures r.Success? ==> forall i :: 0 <= i < |ngrams| ==> NgramProbability(m, ngrams[i]) == Success(r.value[i])
    decreases |ngrams|
  {
    if ngrams == [] then Success([])
    else
      assert forall i :: 0 <= i < |ngrams| - 1 ==> ngrams[1..][i] == ngrams[i + 1];
      match NgramProbability(m, ngrams[0])
      case Failure(e) => Failure(e)
      case Success(p) =>
        match Probabilities(m, ngrams[1..])
        case Failure(e) => Failure(e)
        case Success(ps) => Success([p] + ps)
  }

  /** Sum of the logarithms of the probabilities. */
  function SumLn(ps: seq<real>, ln: real -> real): real
    decreases |ps|
  {
    if ps == [] then 0.0 else ln(ps[0]) + SumLn(ps[1..], ln)
  }

  /**
   * `assign_logprob`: `False` (here `CannotScore`) exactly when the utterance
   * has no n-gram; it raises exactly when scoring one of its n-grams raises;
   * otherwise the sum of the per-n-gram log-probabilities divided by the
   * number of n-grams. The logarithm is a parameter.
   */
  ghost function AssignLogprob(m: ModelState, u: string, ln: real -> real): (r: Result<Score, Fault>)
    ensures r == Success(CannotScore) <==> NGramsOf(u, m.ngramSize, m.padUtterances) == []
    ensures r.Failure? <==> (exists i :: 0 <= i < |NGramsOf(u, m.ngramSize, m.padUtterances)| &&
                               NgramProbability(m, NGramsOf(u, m.ngramSize, m.padUtterances)[i]).Failure?)
  {
    var ngrams := NGramsOf(u, m.ngramSize, m.padUtterances);
    if ngrams == [] then Success(CannotScore)
    else
      match Probabilities(m, ngrams)
      case Failure(e) => Failure(e)
      case Success(ps) => Success(LogProb(SumLn(ps, ln) / |ngrams| as real))
  }

  /** If every logarithm lies in [lo, hi], their sum lies in [k * lo, k * hi]. */
  lemma {:induction false} SumLnBounds(ps: seq<real>, ln: real -> real, lo: real, hi: real)
    requires forall i :: 0 <= i < |ps| ==> lo <= ln(ps[i]) <= hi
    ensures |ps| as real * lo <= SumLn(ps, ln) <= |ps| as real * hi
    decreases |ps|
  {
    if ps != [] {
      assert forall i :: 0 <= i < |ps| - 1 ==> ps[1..][i] == ps[i + 1];
      SumLnBounds(ps[1..], ln, lo, hi);
      AddWithinBounds(ln(ps[0]), SumLn(ps[1..], ln), |ps| - 1, lo, hi);
    }
  }

  /** The mean of logarithms that all lie in [lo, hi] lies in [lo, hi]. */
  lemma {:induction false} MeanLnWithinBounds(ps: seq<real>, ln: real -> real, n: nat, lo: real, hi: real)
    requires n == |ps| && n > 0
    requires forall i :: 0 <= i < |ps| ==> lo <= ln(ps[i]) <= hi
    ensures lo <= SumLn(ps, ln) / n as real <= hi
  {
    SumLnBounds(ps, ln, lo, hi);
    MeanWithinBounds(SumLn(ps, ln), n as real, lo, hi);
  }

  /** Bounds on the log-probability of every n-gram carry over to the list of probabilities. */
  lemma {:induction false} ProbabilitiesWithinBounds(m: ModelState, ngrams: seq<seq<string>>, ln: real -> real, lo: real, hi: real)
    requires NonEmptyWindows(ngrams) && Probabilities(m, ngrams).Success?
    requires forall i :: (0 <= i < |ngrams| && NgramProbability(m, ngrams[i]).Success?) ==>
                         lo <= ln(NgramProbability(m, ngrams[i]).value) <= hi
    ensures forall i :: 0 <= i < |Probabilities(m, ngrams).value| ==> lo <= ln(Probabilities(m, ngrams).value[i]) <= hi
  {
    forall i | 0 <= i < |Probabilities(m, ngrams).value|
      ensures lo <= ln(Probabilities(m, ngrams).value[i]) <= hi
    {
      assert NgramProbability(m, ngrams[i]) == Success(Probabilities(m, ngrams).value[i]);
    }
  }

  /**
   * Length normalisation: if every n-gram's log-probability lies in
   * [lo, hi], so does the utterance's score, whatever its length.
   */
  lemma {:induction false} ScoreWithinBounds(m: ModelState, u: string, ln: real -> real, lo: real, hi: real)
    requires forall i :: (0 <= i < |NGramsOf(u, m.ngramSize, m.padUtterances)| &&
                          NgramProbability(m, NGramsOf(u, m.ngramSize, m.padUtterances)[i]).Success?) ==>
                         lo <= ln(NgramProbability(m, NGramsOf(u, m.ngramSize, m.padUtterances)[i]).value) <= hi
    ensures AssignLogprob(m, u, ln).Success? && AssignLogprob(m, u, ln).value.LogProb? ==>
      lo <= AssignLogprob(m, u, ln).value.value <= hi
  {
    var ngrams := NGramsOf(u, m.ngramSize, m.padUtterances);
    if ngrams != [] && Probabilities(m, ngrams).Success? {
      ProbabilitiesWithinBounds(m, ngrams, ln, lo, hi);
      MeanLnWithinBounds(Probabilities(m, ngrams).value, ln, |ngrams|, lo, hi);
    }
  }

  /**
   * A model whose divisor is positive always answers: with padding and
   * `ngram_size >= 2` it always produces a score, never `CannotScore`.
   */
  lemma {:induction false} ScoreDefined(m: ModelState, u: string, ln: real -> real)
    requires m.denominatorSmoother.Some? && m.denominatorSmoother.value > 0.0
    ensures AssignLogprob(m, u, ln).Success?
    ensures m.padUtterances && m.ngramSize >= 2 ==> AssignLogprob(m, u, ln).value.LogProb?
  {
    var ngrams := NGramsOf(u, m.ngramSize, m.padUtterances);
    forall i | 0 <= i < |ngrams| ensures NgramProbability(m, ngrams[i]).Success? {
      ProbabilityDefined(m, ngrams[i]);
    }
    if m.padUtterances && m.ngramSize >= 2 {
      PaddedUtteranceHasNGrams(u, m.ngramSize);
    }
  }

  /**
   * With padding, `assign_logprob` returns `False` exactly when
   * `ngram_size` is 0, or when it is 1 and the utterance is empty: padding
   * does not rule the sentinel out on its own.
   */
  lemma {:induction false} PaddedSentinel(m: ModelState, u: string, ln: real -> real)
    requires m.padUtterances
    ensures AssignLogprob(m, u, ln) == Success(CannotScore) <==> m.ngramSize == 0 || (m.ngramSize == 1 && u == [])
  {
    PaddedUtteranceWithoutNGrams(u, m.ngramSize);
  }

  /**
   * A second `estimate` on an empty corpus sets `denominator_smoother` to 0
   * but keeps the counts: a seen context can then get a "probability" above
   * one, and an unseen one raises `ZeroDivisionError`.
   */
  lemma {:induction false} ZeroDivisorAfterEmptyTraining()
    ensures var m := ModelState(None, false, 2, 1.0, map[["a"] := map["b" := 1]], Some(0.0));
      NgramProbability(m, ["a", "b"]) == Success(2.0) &&
      NgramProbability(m, ["c", "b"]) == Failure(ZeroDivisionError)
  {
    var inner: Counts := map["b" := 1];
    var m := ModelState(None, false, 2, 1.0, map[["a"] := inner], Some(0.0));
    TotalRemove(inner, "b");
    assert inner - {"b"} == map[];
    assert Total(map[]) == 0;
    assert Total(m.counter[["a"]]) == 1;
    assert ContextOf(["a", "b"]) == ["a"] && NextOf(["a", "b"]) == "b";
    assert Get(m.counter, ["a"], "b") == 1;
    assert "b" in m.counter[["a"]] && !Unseen(m.counter, ["a"]);
    assert NgramProbability(m, ["a", "b"]) == Success((1 as real + 1.0) / (1 as real + 0.0));
    assert ContextOf(["c", "b"]) == ["c"];
  }
}
