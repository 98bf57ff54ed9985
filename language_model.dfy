/**
 * The language model object (`NGramLanguageModel`): its hyperparameters,
 * the counter that training fills in place, and the operations that update
 * them — extracting n-grams, training, saving and loading.
 */
module LanguageModel {
  import opened Wrappers
  import opened NGrams
  import opened Counting
  import opened Scoring
  import opened Persistence

  // ---------------------------------------------------------------------
  // Training on a counter that does not create missing entries
  // ---------------------------------------------------------------------

  /** The counter already holds the window's context and, under it, its next token. */
  predicate Known(c: Counter, w: seq<string>) {
    |w| >= 1 && ContextOf(w) in c && NextOf(w) in c[ContextOf(w)]
  }

  /** Every window of `ws` is already in the counter. */
  predicate AllKnown(c: Counter, ws: seq<seq<string>>) {
    forall j :: 0 <= j < |ws| ==> Known(c, ws[j])
  }

  /**
   * How many windows, from the first, are already in the counter: on a
   * loaded counter (a plain dictionary) training raises `KeyError` at the
   * first window that is not.
   */
  function KnownPrefix(c: Counter, ws: seq<seq<string>>): (k: nat)
    ensures k <= |ws|
    ensures forall j :: 0 <= j < k ==> Known(c, ws[j])
    ensures k < |ws| ==> !Known(c, ws[k])
    decreases |ws|
  {
    if ws == [] || !Known(c, ws[0]) then 0
    else
      var k := KnownPrefix(c, ws[1..]);
      assert forall j :: 1 <= j < 1 + k ==> ws[j] == ws[1..][j - 1];
      1 + k
  }

  /** The first unknown window is where training stops. */
  lemma {:induction false} KnownPrefixAt(c: Counter, ws: seq<seq<string>>, k: nat)
    requires k < |ws| && !Known(c, ws[k])
    requires forall j :: 0 <= j < k ==> Known(c, ws[j])
    ensures KnownPrefix(c, ws) == k
  {
    var p := KnownPrefix(c, ws);
    if p < k {
      assert false;
    } else if p > k {
      assert false;
    }
  }

  /**
   * Counting windows that are all known adds no entry: whether a window is
   * known does not change.
   */
  lemma {:induction false} KnownStable(c: Counter, ws: seq<seq<string>>, w: seq<string>)
    requires NonEmptyWindows(ws)
    requires AllKnown(c, ws)
    requires |w| >= 1
    ensures Known(Tally(c, ws), w) <==> Known(c, w)
  {
    TallyCounts(c, ws, ContextOf(w), NextOf(w));
    assert w == ContextOf(w) + [NextOf(w)];
    if w in ws {
      var j :| 0 <= j < |ws| && ws[j] == w;
      assert Known(c, ws[j]);
    }
  }

  /** One more known window keeps every window known. */
  lemma {:induction false} AllKnownStep(c: Counter, ws: seq<seq<string>>, w: seq<string>)
    requires AllKnown(c, ws) && Known(c, w)
    ensures AllKnown(c, ws + [w])
  {
    forall j | 0 <= j < |ws + [w]| ensures Known(c, (ws + [w])[j]) {
      if j < |ws| {
        assert (ws + [w])[j] == ws[j];
      }
    }
  }

  /** Counting one more window is one more `Bump`. */
  lemma {:induction false} TallyStep(c: Counter, ws: seq<seq<string>>, w: seq<string>)
    ensures Tally(c, ws + [w]) == Bump(Tally(c, ws), w)
  {
    assert (ws + [w])[..|ws|] == ws;
  }

  /**
   * Counting one more window `w` from a counter `c` already at
   * `Tally(c0, ws)` updates the one entry of `w`'s context and next token.
   */
  lemma {:induction false} TallyOneMore(c0: Counter, ws: seq<seq<string>>, w: seq<string>, c: Counter,
                                        context: Context, next: string, inner: Counts, count: nat)
    requires c == Tally(c0, ws) && |w| >= 1
    requires context == ContextOf(w) && next == NextOf(w)
    requires inner == Inner(c, context) && count == Get(c, context, next)
    ensures Tally(c0, ws + [w]) == c[context := inner[next := count + 1]]
  {
    TallyStep(c0, ws, w);
  }

  /** `len(vocabulary) * smooth`, the `denominator_smoother` of a trained model. */
  function SmoothingMass(vocabulary: set<string>, smooth: real): real {
    |vocabulary| as real * smooth
  }

  /** The first `k` windows are known when the prefix of length `k` is all known. */
  lemma {:induction false} AllKnownTake(c: Counter, ws: seq<seq<string>>, k: nat)
    requires k <= |ws| && AllKnown(c, ws[..k])
    ensures forall j :: 0 <= j < k ==> Known(c, ws[j])
  {
    forall j | 0 <= j < k ensures Known(c, ws[j]) {
      assert ws[j] == ws[..k][j];
    }
  }

  /** When every window is known, training never stops early. */
  lemma {:induction false} AllKnownPrefix(c: Counter, ws: seq<seq<string>>)
    requires AllKnown(c, ws)
    ensures KnownPrefix(c, ws) == |ws|
  {
    if KnownPrefix(c, ws) < |ws| {
      assert false;
    }
  }

  /** One more window adds its next token to the vocabulary. */
  lemma {:induction false} VocabularyStep(ws: seq<seq<string>>, w: seq<string>)
    requires |w| >= 1
    ensures Vocabulary(ws + [w]) == Vocabulary(ws) + {NextOf(w)}
  {
    assert (ws + [w])[..|ws|] == ws;
  }

  /** Taking one more element of `b` after `a`. */
  lemma {:induction false} PrefixStep<T>(a: seq<T>, b: seq<T>, i: nat)
    requires i < |b|
    ensures a + b[..i + 1] == (a + b[..i]) + [b[i]]
  {
    assert b[..i + 1] == b[..i] + [b[i]];
  }

  /** The n-grams of the first `l + 1` lines are those of the first `l` lines, then line `l`'s. */
  lemma {:induction false} CorpusNGramsNextLine(corpus: seq<string>, l: nat, n: nat, pad: bool)
    requires l < |corpus|
    ensures CorpusNGrams(corpus[..l + 1], n, pad) == CorpusNGrams(corpus[..l], n, pad) + NGramsOf(corpus[l], n, pad)
  {
    assert corpus[..l + 1][..l] == corpus[..l];
  }

  /** Every n-gram has `n` tokens, so a non-empty list of them means `n >= 1`. */
  lemma {:induction false} NGramsNonEmpty(u: string, n: nat, pad: bool)
    ensures NonEmptyWindows(NGramsOf(u, n, pad))
  {
  }

  /** Appending the windows of one line keeps every window non-empty. */
  lemma {:induction false} WindowsAppend(a: seq<seq<string>>, b: seq<seq<string>>)
    requires NonEmptyWindows(a) && NonEmptyWindows(b)
    ensures NonEmptyWindows(a + b)
  {
    forall i | 0 <= i < |a + b| ensures |(a + b)[i]| >= 1 {
      if i >= |a| {
        assert (a + b)[i] == b[i - |a|];
      }
    }
  }

  /**
   * Concatenation is associative. Stated apart so that the extensional
   * sequence equality is proved in a small context rather than inside
   * `CorpusNGramsSplit`, where it runs out of resource on some solver seeds.
   */
  lemma {:induction false} Associative<T>(x: seq<T>, y: seq<T>, z: seq<T>)
    ensures x + y + z == x + (y + z)
  {
  }

  /** The n-grams of a corpus split at any line are those of both parts, in order. */
  lemma {:induction false} CorpusNGramsSplit(a: seq<string>, b: seq<string>, n: nat, pad: bool)
    ensures CorpusNGrams(a + b, n, pad) == CorpusNGrams(a, n, pad) + CorpusNGrams(b, n, pad)
    decreases |b|
  {
    if b == [] {
      assert a + b == a;
    } else {
      var init, last := b[..|b| - 1], b[|b| - 1];
      assert (a + b)[..|a + b| - 1] == a + init;
      assert (a + b)[|a + b| - 1] == last;
      CorpusNGramsSplit(a, init, n, pad);
      Associative(CorpusNGrams(a, n, pad), CorpusNGrams(init, n, pad), NGramsOf(last, n, pad));
    }
  }

  /** Every corpus n-gram has at least one token. */
  lemma {:induction false} CorpusWindowsNonEmpty(corpus: seq<string>, n: nat, pad: bool)
    ensures NonEmptyWindows(CorpusNGrams(corpus, n, pad))
    decreases |corpus|
  {
    if corpus != [] {
      CorpusWindowsNonEmpty(corpus[..|corpus| - 1], n, pad);
      WindowsAppend(CorpusNGrams(corpus[..|corpus| - 1], n, pad), NGramsOf(corpus[|corpus| - 1], n, pad));
    }
  }

  /**
   * The inner loop of `estimate` over one line's n-grams, continuing from
   * `counter`, which holds `Tally(c0, before)`, and the vocabulary of
   * `before`. On a counter that does not create missing entries
   * (`autoCreate` false) it stops (`ok` false) at the first n-gram that is
   * not already counted; `stop` is how many n-grams it counted.
   */
  method CountWindows(counter: Counter, autoCreate: bool, ngrams: seq<seq<string>>, vocabulary: set<string>,
                      ghost c0: Counter, ghost before: seq<seq<string>>)
    returns (ok: bool, counterAfter: Counter, vocabularyAfter: set<string>, ghost stop: nat)
    requires NonEmptyWindows(before) && NonEmptyWindows(ngrams)
    requires counter == Tally(c0, before)
    requires vocabulary == Vocabulary(before)
    requires !autoCreate ==> AllKnown(c0, before)
    ensures stop <= |ngrams| && (ok <==> stop == |ngrams|)
    ensures counterAfter == Tally(c0, before + ngrams[..stop])
    ensures ok ==> vocabularyAfter == Vocabulary(before + ngrams)
    ensures !autoCreate ==> AllKnown(c0, before + ngrams[..stop])
    ensures !ok ==> !autoCreate && !Known(c0, ngrams[stop])
  {
    counterAfter, vocabularyAfter := counter, vocabulary;
    assert before + ngrams[..0] == before;
    for i := 0 to |ngrams|
      invariant counterAfter == Tally(c0, before + ngrams[..i])
      invariant vocabularyAfter == Vocabulary(before + ngrams[..i])
      invariant !autoCreate ==> AllKnown(c0, before + ngrams[..i])
    {
      var w := ngrams[i];
      var context := w[..|w| - 1];
      var next := w[|w| - 1];
      ghost var done := before + ngrams[..i];
      PrefixStep(before, ngrams, i);
      if !autoCreate {
        WindowsAppend(before, ngrams[..i]);
        KnownStable(c0, done, w);
        if !(context in counterAfter && next in counterAfter[context]) {
          return false, counterAfter, vocabularyAfter, i;
        }
        AllKnownStep(c0, done, w);
      }
      VocabularyStep(done, w);
      var inner := if context in counterAfter then counterAfter[context] else map[];
      var count := if next in inner then inner[next] else 0;
      TallyOneMore(c0, done, w, counterAfter, context, next, inner, count);
      counterAfter := counterAfter[context := inner[next := count + 1]];
      vocabularyAfter := vocabularyAfter + {next};
    }
    assert ngrams[..|ngrams|] == ngrams;
    ok, stop := true, |ngrams|;
  }

  // ---------------------------------------------------------------------
  // The model object
  // ---------------------------------------------------------------------

  class NGramLanguageModel {
    var language: Option<string>
    var padUtterances: bool
    var ngramSize: nat
    var smooth: real
    /** `ngram_counter`: context -> next token -> count. */
    var ngramCounter: Counter
    /**
     * Whether the counter still creates missing entries on access (the
     * `defaultdict` built at construction) rather than raising `KeyError`
     * (the plain dictionary `load_model` installs).
     */
    var counterIsDefault: bool
    var denominatorSmoother: Option<real>

    /** The model's fields as a value. */
    function State(): ModelState
      reads this
    {
      ModelState(language, padUtterances, ngramSize, smooth, ngramCounter, denominatorSmoother)
    }

    /**
     * `NGramLanguageModel(language=None, pad_utterances=True, ngram_size=3,
     * smooth=1e-3)`: an empty auto-creating counter and no
     * `denominator_smoother` yet.
     */
    constructor(language: Option<string> := None, padUtterances: bool := true, ngramSize: nat := 3, smooth: real := 0.001)
      ensures State() == ModelState(language, padUtterances, ngramSize, smooth, map[], None)
      ensures counterIsDefault
    {
      this.language := language;
      this.padUtterances := padUtterances;
      this.ngramSize := ngramSize;
      this.smooth := smooth;
      this.ngramCounter := map[];
      this.counterIsDefault := true;
      this.denominatorSmoother := None;
    }

    /**
     * `get_ngrams`: pad the character tokens, make `ngram_size` copies,
     * advance copy k by k tokens, and zip the copies.
     */
    method GetNgrams(utterance: string) returns (ngrams: seq<seq<string>>)
      ensures ngrams == NGramsOf(utterance, ngramSize, padUtterances)
    {
      var tokens := Chars(utterance);
      if padUtterances {
        tokens := Repeat(StartPad, PadWidth(ngramSize)) + tokens + Repeat(EndPad, PadWidth(ngramSize));
      }
      assert tokens == Padded(utterance, ngramSize, padUtterances);
      var iterables := seq(ngramSize, _ => tokens);
      for shifts := 0 to ngramSize
        invariant |iterables| == ngramSize
        invariant forall k :: 0 <= k < shifts ==> iterables[k] == Shifted(tokens, k)
        invariant forall k :: shifts <= k < ngramSize ==> iterables[k] == tokens
      {
        ghost var untouched := iterables;
        for s := 0 to shifts
          invariant |iterables| == ngramSize
          invariant iterables[shifts] == Shifted(tokens, s)
          invariant forall k :: 0 <= k < ngramSize && k != shifts ==> iterables[k] == untouched[k]
        {
          AdvanceShifted(tokens, s);
          iterables := iterables[shifts := Advance(iterables[shifts])];
        }
      }
      assert iterables == Shifts(tokens, ngramSize);
      ngrams := Zip(iterables);
    }

    /**
     * `estimate` on already-stripped lines: every n-gram of every line adds
     * one to `ngram_counter[context][next]`, and afterwards
     * `denominator_smoother` is the size of this call's vocabulary times
     * `smooth`. On a loaded counter an n-gram not already present raises
     * `KeyError`: training stops there (`ok` is false), keeping the counts
     * added so far and the old `denominator_smoother`.
     */
    method Estimate(corpus: seq<string>) returns (ok: bool)
      modifies this
      ensures language == old(language) && padUtterances == old(padUtterances)
      ensures ngramSize == old(ngramSize) && smooth == old(smooth)
      ensures counterIsDefault == old(counterIsDefault)
      ensures ok <==> (old(counterIsDefault) ||
                       KnownPrefix(old(ngramCounter), CorpusNGrams(corpus, ngramSize, padUtterances)) == |CorpusNGrams(corpus, ngramSize, padUtterances)|)
      ensures ok ==> ngramCounter == Tally(old(ngramCounter), CorpusNGrams(corpus, ngramSize, padUtterances))
      ensures ok ==> denominatorSmoother == Some(SmoothingMass(Vocabulary(CorpusNGrams(corpus, ngramSize, padUtterances)), smooth))
      ensures !ok ==> denominatorSmoother == old(denominatorSmoother)
      ensures !ok ==> ngramCounter == Tally(old(ngramCounter),
        CorpusNGrams(corpus, ngramSize, padUtterances)[..KnownPrefix(old(ngramCounter), CorpusNGrams(corpus, ngramSize, padUtterances))])
    {
      var counter, vocabulary;
      ok, counter, vocabulary := CountCorpus(corpus);
      ngramCounter := counter;
      if ok {
        denominatorSmoother := Some(SmoothingMass(vocabulary, smooth));
      }
    }

    /**
     * The counting loop of `estimate`: the counter and the vocabulary it
     * leaves after the corpus, or, on a loaded counter, after the n-grams
     * before the first one it does not already hold (`ok` false).
     */
    method CountCorpus(corpus: seq<string>) returns (ok: bool, counter: Counter, vocabulary: set<string>)
      ensures ok <==> (counterIsDefault ||
                       KnownPrefix(ngramCounter, CorpusNGrams(corpus, ngramSize, padUtterances)) == |CorpusNGrams(corpus, ngramSize, padUtterances)|)
      ensures ok ==> counter == Tally(ngramCounter, CorpusNGrams(corpus, ngramSize, padUtterances))
      ensures ok ==> vocabulary == Vocabulary(CorpusNGrams(corpus, ngramSize, padUtterances))
      ensures !ok ==> counter == Tally(ngramCounter,
        CorpusNGrams(corpus, ngramSize, padUtterances)[..KnownPrefix(ngramCounter, CorpusNGrams(corpus, ngramSize, padUtterances))])
    {
      ghost var all := CorpusNGrams(corpus, ngramSize, padUtterances);
      counter, vocabulary := ngramCounter, {};
      for l := 0 to |corpus|
        invariant counter == Tally(ngramCounter, CorpusNGrams(corpus[..l], ngramSize, padUtterances))
        invariant vocabulary == Vocabulary(CorpusNGrams(corpus[..l], ngramSize, padUtterances))
        invariant !counterIsDefault ==> AllKnown(ngramCounter, CorpusNGrams(corpus[..l], ngramSize, padUtterances))
      {
        ghost var before := CorpusNGrams(corpus[..l], ngramSize, padUtterances);
        CorpusWindowsNonEmpty(corpus[..l], ngramSize, padUtterances);
        var lineOk; ghost var stop;
        lineOk, counter, vocabulary, stop := CountLine(corpus[l], counter, vocabulary, before);
        if !lineOk {
          StopsAtUnknown(ngramCounter, corpus, l, ngramSize, padUtterances, NGramsOf(corpus[l], ngramSize, padUtterances), stop);
          return false, counter, vocabulary;
        }
        CorpusNGramsNextLine(corpus, l, ngramSize, padUtterances);
      }
      assert corpus[..|corpus|] == corpus;
      assert CorpusNGrams(corpus[..|corpus|], ngramSize, padUtterances) == all;
      ok := true;
      if !counterIsDefault {
        AllKnownPrefix(ngramCounter, all);
      }
    }

    /**
     * One pass of the counting loop: the n-grams of `line`, counted on top
     * of the counter and vocabulary left by the n-grams `before`.
     */
    method CountLine(line: string, counter: Counter, vocabulary: set<string>, ghost before: seq<seq<string>>)
      returns (ok: bool, counterAfter: Counter, vocabularyAfter: set<string>, ghost stop: nat)
      requires NonEmptyWindows(before)
      requires counter == Tally(ngramCounter, before)
      requires vocabulary == Vocabulary(before)
      requires !counterIsDefault ==> AllKnown(ngramCounter, before)
      ensures ok ==> counterAfter == Tally(ngramCounter, before + NGramsOf(line, ngramSize, padUtterances))
      ensures ok ==> vocabularyAfter == Vocabulary(before + NGramsOf(line, ngramSize, padUtterances))
      ensures ok && !counterIsDefault ==> AllKnown(ngramCounter, before + NGramsOf(line, ngramSize, padUtterances))
      ensures !ok ==> !counterIsDefault && stop < |NGramsOf(line, ngramSize, padUtterances)|
      ensures !ok ==> counterAfter == Tally(ngramCounter, before + NGramsOf(line, ngramSize, padUtterances)[..stop])
      ensures !ok ==> AllKnown(ngramCounter, before + NGramsOf(line, ngramSize, padUtterances)[..stop])
      ensures !ok ==> !Known(ngramCounter, NGramsOf(line, ngramSize, padUtterances)[stop])
    {
      var ngrams := GetNgrams(line);
      NGramsNonEmpty(line, ngramSize, padUtterances);
      ok, counterAfter, vocabularyAfter, stop := CountWindows(counter, counterIsDefault, ngrams, vocabulary, ngramCounter, before);
      if ok {
        assert ngrams[..stop] == ngrams;
      }
    }

    /**
     * `save_model` without the file: the (joined context, counts) pairs in
     * the shuffled order, collected into a dictionary, then the five
     * metadata fields.
     */
    method SaveModel(order: seq<Context>) returns (doc: Document)
      requires IsShuffleOf(order, ngramCounter)
      ensures doc == Encode(State(), order)
    {
      doc := map[];
      for i := 0 to |order|
        invariant doc == EncodeContexts(ngramCounter, order[..i])
      {
        assert order[..i + 1][..i] == order[..i];
        doc := doc[Join(order[i]) := Table(ngramCounter[order[i]])];
      }
      assert order[..|order|] == order;
      doc := doc[LanguageKey := OptionalString(language)];
      doc := doc[PadKey := Bool(padUtterances)];
      doc := doc[DenominatorKey := OptionalNumber(denominatorSmoother)];
      doc := doc[SmoothKey := Number(smooth)];
      doc := doc[NgramSizeKey := Int(ngramSize)];
    }

    /**
     * `load_model` without the file: the metadata fields are assigned one by
     * one, then the remaining keys are split into contexts and replace the
     * counter with a plain dictionary. A read that fails stops loading with
     * the fields assigned so far.
     */
    method Load(doc: Document) returns (error: Option<LoadError>)
      modifies this
      ensures (State(), error) == Loaded(old(State()), doc)
      ensures counterIsDefault == (old(counterIsDefault) && error.Some?)
    {
      var language := ReadLanguage(doc);
      if language.Failure? {
        return Some(language.error);
      }
      this.language := language.value;
      var pad := ReadPad(doc);
      if pad.Failure? {
        return Some(pad.error);
      }
      padUtterances := pad.value;
      var denominator := ReadDenominator(doc);
      if denominator.Failure? {
        return Some(denominator.error);
      }
      denominatorSmoother := denominator.value;
      var smooth := ReadSmooth(doc);
      if smooth.Failure? {
        return Some(smooth.error);
      }
      this.smooth := smooth.value;
      var size := ReadNgramSize(doc);
      if size.Failure? {
        return Some(size.error);
      }
      ngramSize := size.value;
      var counter := DecodeCounter(doc - MetadataKeys);
      if counter.Failure? {
        return Some(counter.error);
      }
      ngramCounter := counter.value;
      counterIsDefault := false;
      return None;
    }
  }

  /** Advancing a copy that has been advanced `s` times gives the copy advanced `s + 1` times. */
  lemma {:induction false} AdvanceShifted(p: seq<string>, s: nat)
    ensures Advance(Shifted(p, s)) == Shifted(p, s + 1)
  {
  }

  /** Position `|a| + i` of `a + b + r` lies in `b`, and what precedes it is `a` and the first `i` of `b`. */
  lemma {:induction false} InsideMiddle<T>(a: seq<T>, b: seq<T>, r: seq<T>, i: nat)
    requires i < |b|
    ensures (a + b + r)[|a| + i] == b[i]
    ensures (a + b + r)[..|a| + i] == a + b[..i]
  {
    assert (a + b + r)[..|a| + i] == (a + b)[..|a| + i];
  }

  /** The corpus n-grams are those of the lines before line `l`, then line `l`'s, then those after. */
  lemma {:induction false} CorpusNGramsAround(corpus: seq<string>, l: nat, n: nat, pad: bool)
    requires l < |corpus|
    ensures CorpusNGrams(corpus, n, pad) ==
      CorpusNGrams(corpus[..l], n, pad) + NGramsOf(corpus[l], n, pad) + CorpusNGrams(corpus[l + 1..], n, pad)
  {
    assert corpus == corpus[..l + 1] + corpus[l + 1..];
    CorpusNGramsSplit(corpus[..l + 1], corpus[l + 1..], n, pad);
    CorpusNGramsNextLine(corpus, l, n, pad);
  }

  /** The first unknown window lies in the middle part when all before it are known. */
  lemma {:induction false} StopsInMiddle(c: Counter, all: seq<seq<string>>, a: seq<seq<string>>, b: seq<seq<string>>,
                                         r: seq<seq<string>>, i: nat)
    requires all == a + b + r
    requires i < |b| && AllKnown(c, a + b[..i]) && !Known(c, b[i])
    ensures KnownPrefix(c, all) == |a| + i < |all|
    ensures all[..KnownPrefix(c, all)] == a + b[..i]
  {
    InsideMiddle(a, b, r, i);
    AllKnownTake(c, all, |a| + i);
    KnownPrefixAt(c, all, |a| + i);
  }

  /**
   * Training on a loaded counter stops at window `i` of line `l` exactly
   * when that is the first window of the corpus that is not already
   * counted.
   */
  lemma {:induction false} StopsAtUnknown(c: Counter, corpus: seq<string>, l: nat, n: nat, pad: bool, ngrams: seq<seq<string>>, i: nat)
    requires l < |corpus| && ngrams == NGramsOf(corpus[l], n, pad) && i < |ngrams|
    requires AllKnown(c, CorpusNGrams(corpus[..l], n, pad) + ngrams[..i])
    requires !Known(c, ngrams[i])
    ensures KnownPrefix(c, CorpusNGrams(corpus, n, pad)) == |CorpusNGrams(corpus[..l], n, pad)| + i
    ensures KnownPrefix(c, CorpusNGrams(corpus, n, pad)) < |CorpusNGrams(corpus, n, pad)|
    ensures CorpusNGrams(corpus, n, pad)[..KnownPrefix(c, CorpusNGrams(corpus, n, pad))] ==
      CorpusNGrams(corpus[..l], n, pad) + ngrams[..i]
  {
    CorpusNGramsAround(corpus, l, n, pad);
    StopsInMiddle(c, CorpusNGrams(corpus, n, pad), CorpusNGrams(corpus[..l], n, pad), ngrams, CorpusNGrams(corpus[l + 1..], n, pad), i);
  }
}
