# Character n-gram language model

This project models `NGramLanguageModel` from `src/ngram_lm.py`, a character
n-gram language model with add-delta (Lidstone) smoothing, and proves
properties of the model. It covers these parts:

- **N-gram extraction** (`get_ngrams`). An utterance becomes one-character
  tokens. With `pad_utterances` set, it is padded with `ngram_size - 1`
  copies of `<` in front and of `>` behind. The source then makes
  `ngram_size` copies with `tee`, advances copy k by k tokens, and `zip`s the
  copies. The model follows those steps literally (`NGrams.Shifts`,
  `NGrams.Zip`) and proves that the result is a stride-1 sliding window.
- **Training** (`estimate`, the counting loop). Each n-gram adds one to
  `ngram_counter[context][next]`. The next tokens seen in the call form the
  vocabulary, and `denominator_smoother` becomes `|vocabulary| * smooth`.
  The counter is a `map<seq<string>, map<string, nat>>`. A field records
  whether it is still the auto-creating `defaultdict` built by `__init__` or
  the plain dictionary that `load_model` installs. On a plain dictionary,
  training raises `KeyError` at the first n-gram the counter does not already
  hold.
- **Scoring**. `ngram_probability` is a function over the model's state, with
  the `TypeError` and `ZeroDivisionError` outcomes made explicit. In
  `assign_logprob`, an utterance with no n-grams gets the `False` sentinel
  (`CannotScore` here). Otherwise the score is the sum of the per-n-gram
  log-probabilities divided by the number of n-grams.
- **Saving and loading** (`save_model` / `load_model`) on an abstract
  document, the key → value object the JSON file holds. Each context is
  written under its tokens joined by single spaces, in an order that is a
  parameter (the `shuffle`). The five metadata keys are written on top.
  Loading reads the metadata in order, deletes it, and splits every remaining
  key on single spaces.

Modules:
- `wrappers.dfy`: `Option` and `Result`.
- `ngrams.dfy`: extraction.
- `counting.dfy`: the counter, `Tally` and context totals.
- `scoring.dfy`: the model's state as a value, the probabilities and the
  score.
- `persistence.dfy`: keys, `Encode`/`Decode` and the round trip.
- `language_model.dfy`: the class `NGramLanguageModel`. Its methods update
  its fields and are proved against the functions above.

Behaviour of the source that the model keeps as it is:
- Calling `estimate` a second time accumulates counts on top of the old ones
  (`Counting.TallyAppend`), while the vocabulary is rebuilt from scratch.
  There is no reset. A second call on an empty corpus therefore sets
  `denominator_smoother` to 0 while the counts stay, after which a seen
  context can get a probability above 1 and an unseen one raises `ZeroDivisionError`
  (`Scoring.ZeroDivisorAfterEmptyTraining`).
- `load_model` never rejects a context key. Any key, even the empty one,
  splits into a context.
- After `load_model` the counter is a plain dictionary, not the
  auto-creating one `__init__` builds, so a later `estimate` raises
  `KeyError` at the first n-gram the loaded counter does not hold.
- A context whose count dictionary is empty counts as unseen, like an absent
  one, because the source tests the dictionary's truth value.
- The comment beside the `False` sentinel in `assign_logprob` says it only
  occurs without padding. With padding it still occurs when `ngram_size` is
  0, and when `ngram_size` is 1 and the utterance is empty
  (`Scoring.PaddedSentinel`). The code is modelled as written.

## Model

| member | source | states |
|---|---|---|
| `LanguageModel.NGramLanguageModel.constructor` | src/ngram_lm.py:40-50 | The new model keeps the given hyperparameters (defaults: no language, padding on, size 3, smooth 0.001). Its counter is empty and auto-creating, and it has no `denominator_smoother` yet. |
| `NGrams.Padded` | src/ngram_lm.py:66-70 | With padding, the tokens are `ngram_size - 1` copies of `<`, then the utterance's characters in order, then `ngram_size - 1` copies of `>`. Without padding, they are the characters alone. |
| `NGrams.ZipOfShifts` | src/ngram_lm.py:71-77 | Zipping `n` copies, copy k advanced k times, gives `max(0, L - n + 1)` windows (none when `n` is 0). Window i is exactly tokens i .. i+n-1. |
| `NGrams.NGramsOf` | src/ngram_lm.py:71-77 | An utterance has `max(0, L - n + 1)` n-grams for padded length L (none when `n` is 0), and every n-gram has exactly `ngram_size` tokens. The result is empty, not an error, when L < n. |
| `NGrams.NGramsOfWindows` | src/ngram_lm.py:66-77 | N-gram i of an utterance is positions i .. i+n-1 of its (possibly padded) token sequence. |
| `NGrams.PaddedUtteranceHasNGrams` | src/ngram_lm.py:202-206 | With padding and `ngram_size >= 2`, every utterance, even the empty one, has an n-gram. Without padding, an utterance shorter than `ngram_size` has none, for any `ngram_size`. |
| `NGrams.PaddedUtteranceWithoutNGrams` | src/ngram_lm.py:66-77 | With padding, an utterance has no n-gram iff `ngram_size` is 0, or `ngram_size` is 1 and the utterance is empty. |
| `LanguageModel.NGramLanguageModel.GetNgrams` | src/ngram_lm.py:66-77 | The method pads, makes the copies, advances copy k by k tokens with a loop, and zips. It returns exactly the sliding windows `NGramsOf`. |
| `Counting.Vocabulary` | src/ngram_lm.py:91-97 | A token is in the vocabulary iff it is the next token of some counted n-gram. |
| `Counting.BumpCounts` | src/ngram_lm.py:95-96 | One increment raises the count of the window's own (context, next) pair by one. Every other pair's count and presence are unchanged. |
| `Counting.TallyCounts` | src/ngram_lm.py:92-97 | After counting a sequence of n-grams, each (context, next) count has grown by exactly the number of n-grams equal to `context + [next]` (a multiset fact). A pair is present iff it was before or such an n-gram occurs. A context is present iff it was before or some n-gram has it. |
| `Counting.TallyHasContext` | src/ngram_lm.py:92-97 | Every counted n-gram leaves its context in the counter. |
| `Counting.TallyKeepsPositive` | src/ngram_lm.py:96 | If every stored count is at least one before counting, it still is after. |
| `Counting.TallyTotal` | src/ngram_lm.py:92-97 | A context's total (the sum of its counts) grows by exactly the number of counted n-grams with that context. |
| `Counting.CountAtMostTotal` | src/ngram_lm.py:182-184 | No single count exceeds the total of its context. |
| `Counting.TallyAppend` | src/ngram_lm.py:49 | Counting one batch and then another equals counting both in sequence. A second `estimate` therefore accumulates on the counter it was given. |
| `Counting.TallyPermutation` | src/ngram_lm.py:92-97 | The counter after counting two sequences of n-grams that are permutations of each other is the same. |
| `LanguageModel.KnownPrefix` | src/ngram_lm.py:96 | How many n-grams, from the first, a plain-dictionary counter already holds. All of those are held, and the next one is not. |
| `LanguageModel.KnownPrefixAt` | src/ngram_lm.py:96 | If the first unknown n-gram is at position k, then `KnownPrefix` is k. |
| `LanguageModel.StopsAtUnknown` | src/ngram_lm.py:92-97 | When training stops inside a line's n-grams, the n-grams counted so far are exactly the corpus's n-grams before the first one the counter does not hold. |
| `LanguageModel.TallyOneMore` | src/ngram_lm.py:96 | The in-place update `counter[context][next] = count + 1` on the counter after some n-grams equals counting one more n-gram. |
| `LanguageModel.CountWindows` | src/ngram_lm.py:94-97 | The loop over one utterance's n-grams extends the counter by those n-grams and grows the vocabulary by their next tokens. On a plain-dictionary counter, it stops at the first n-gram not already held and keeps the counts added before it. |
| `LanguageModel.NGramLanguageModel.CountLine` | src/ngram_lm.py:93-97 | One pass over a line: the counter and vocabulary after the line's n-grams, or, on a `KeyError`, the position where it stopped. |
| `LanguageModel.NGramLanguageModel.CountCorpus` | src/ngram_lm.py:91-97 | The loop over the corpus leaves `Tally(counter, all n-grams)` and the vocabulary of this call. It fails exactly when the counter is a plain dictionary that lacks one of the n-grams, and then holds the counts up to that n-gram. |
| `LanguageModel.NGramLanguageModel.Estimate` | src/ngram_lm.py:79-103 | Training counts every n-gram of every line on top of the existing counter. `denominator_smoother` becomes `len(V) * smooth` for this call's vocabulary V, which is 0 on an empty corpus. The hyperparameters are unchanged. On a `KeyError`, the partial counts stay and the old `denominator_smoother` is kept. |
| `Scoring.UnseenContextIgnoresNextToken` | src/ngram_lm.py:175-181 | For a context that is absent or has no counts, the probability does not depend on the next token. It equals `smooth / denominator_smoother` when that divisor is non-zero. |
| `Scoring.SeenContextLidstone` | src/ngram_lm.py:182-185 | For a seen context, the probability is `(count + smooth) / (total + denominator_smoother)`, with count 0 for a next token never seen after the context. |
| `Scoring.ProbabilityDefined` | src/ngram_lm.py:175-185 | With a positive `denominator_smoother`, `ngram_probability` never raises. |
| `Scoring.ProbabilityInUnitInterval` | src/ngram_lm.py:175-185 | With `smooth > 0` and `denominator_smoother >= smooth` (training on a non-empty vocabulary), every probability is strictly positive and at most 1. |
| `Scoring.SumToOne` | src/ngram_lm.py:175-185 | With `denominator_smoother = len(V) * smooth` and the context's next tokens inside V, the probabilities of all tokens of V after any context sum to exactly 1, whether the context is seen or not. |
| `Scoring.SmoothingFlattens` | src/ngram_lm.py:182-185 | With the counts fixed and `denominator_smoother = k * smooth` (k >= 1), a larger `smooth` never widens the probability gap between a next token seen after a context and one never seen after it. Both probabilities stay defined. |
| `Scoring.Probabilities` | src/ngram_lm.py:207-208 | The list of per-n-gram probabilities is defined iff every n-gram's probability is. It then has one entry per n-gram, in order. |
| `Scoring.AssignLogprob` | src/ngram_lm.py:202-209 | The result is `False` (`CannotScore`) iff the utterance has no n-grams. It raises iff one of its n-grams' probabilities raises. |
| `Scoring.ScoreWithinBounds` | src/ngram_lm.py:207-209 | Length normalisation: if every n-gram's log-probability lies in [lo, hi], so does the utterance's score, whatever its length. |
| `Scoring.ScoreDefined` | src/ngram_lm.py:202-209 | With a positive `denominator_smoother`, scoring never raises. With padding and `ngram_size >= 2`, it never returns the sentinel. |
| `Scoring.PaddedSentinel` | src/ngram_lm.py:202-206 | With padding, `assign_logprob` returns `False` iff `ngram_size` is 0, or `ngram_size` is 1 and the utterance is empty. |
| `Scoring.ZeroDivisorAfterEmptyTraining` | src/ngram_lm.py:175-185 | With counts `{("a",): {"b": 1}}`, `smooth` 1 and `denominator_smoother` 0 (as a second `estimate` on an empty corpus leaves them), n-gram `("a", "b")` gets probability 2.0 and an unseen context raises `ZeroDivisionError`. |
| `Persistence.Split` | src/ngram_lm.py:156 | `split(" ")` always yields at least one piece. |
| `Persistence.JoinSplit` | src/ngram_lm.py:118-157 | Joining the pieces of any key with single spaces gives the key back. |
| `Persistence.SplitJoin` | src/ngram_lm.py:118-157 | Splitting a joined context gives the context back iff it has at least one token and no token contains a space. |
| `Persistence.EncodeContexts` | src/ngram_lm.py:118-121 | The saved keys are exactly the joined contexts, and each holds a count table. |
| `Persistence.EncodedLast` | src/ngram_lm.py:120-121 | When several contexts join to the same key, the key holds the counts of the one written last in the shuffled order. |
| `Persistence.EncodedValue` | src/ngram_lm.py:118-121 | Every saved key holds the counts of some context joined to it. |
| `Persistence.EncodedUnique` | src/ngram_lm.py:118-121 | A context that shares its key with no other context is saved with its own counts. |
| `LanguageModel.NGramLanguageModel.SaveModel` | src/ngram_lm.py:117-126 | The method writes the (joined context, counts) pairs in the shuffled order and then the five metadata fields. It produces exactly `Encode` of the model's state. |
| `Persistence.DecodeCounter` | src/ngram_lm.py:156-157 | Decoding the remaining keys succeeds iff they all hold count tables. A context is restored iff it is the split of some key, and it maps to that key's counts. |
| `Persistence.Decode` | src/ngram_lm.py:146-157 | A load that completes had all five metadata keys. A missing-key failure names a metadata key absent from the document. |
| `Persistence.LoadedIsDecode` | src/ngram_lm.py:146-157 | The field-by-field load succeeds iff `Decode` does, and then yields the decoded model whatever the state before. A failed load keeps the old counter. |
| `LanguageModel.NGramLanguageModel.Load` | src/ngram_lm.py:143-157 | The method assigns the five fields in source order and then the split counter, which is no longer auto-creating. A failing read stops with the fields assigned so far. The new state is `Loaded(old state, doc)`. |
| `Persistence.SavedMetadata` | src/ngram_lm.py:122-150 | Each metadata field of a saved model reads back as the value written. |
| `Persistence.MetadataRoundTrip` | src/ngram_lm.py:118-157 | Loading a saved model never fails and always restores `language`, `pad_utterances`, `denominator_smoother`, `smooth` and `ngram_size` exactly. |
| `Persistence.RoundTrip` | src/ngram_lm.py:118-157 | Loading a saved model restores every field that scoring and saving read (the five hyperparameters and the counts) iff every context has at least one token, no token has a space, and no joined context is a metadata key. This holds whatever order the shuffle chose. The restored counter is a plain dictionary, not an auto-creating one, so further training fails on new n-grams (see `Load`). |
| `Persistence.EmptyContextNotRestored` | src/ngram_lm.py:118-157 | A counter holding the empty context (saved as `""`, loaded as `("",)`) does not survive the round trip. |
| `Persistence.SpaceTokenNotRestored` | src/ngram_lm.py:118-157 | A context with a token containing a space does not survive the round trip. |
| `Persistence.SplittableJoinInjective` | src/ngram_lm.py:118-121 | Contexts whose tokens have no spaces never share a key. |
| `Persistence.ShuffleIrrelevant` | src/ngram_lm.py:118-126 | When no two contexts share a key, the shuffled order does not change the saved document. |
| `Persistence.ShuffleMattersOnCollision` | src/ngram_lm.py:118-121 | `("a b",)` and `("a", "b")` both become the key `"a b"`, and the shuffle decides whose counts are saved. |
| `Persistence.TallyKeepsEncodable` | src/ngram_lm.py:92-97 | Counting n-grams of size >= 2 made of single non-space characters keeps a counter that survives the round trip. |
| `Persistence.TrainedModelRoundTrip` | src/ngram_lm.py:92-157 | A model trained with `ngram_size >= 2` on lines without spaces, starting from a fresh or already encodable counter, gets back from saving and loading exactly the hyperparameters, `denominator_smoother` and counts it had. The reloaded counter no longer creates missing entries. |
| `Persistence.TrainedUnigramNotRestored` | src/ngram_lm.py:92-157 | A unigram model (`ngram_size == 1`) trained on at least one character never survives saving and loading. |
| `Persistence.TrainedOnSpaceNotRestored` | src/ngram_lm.py:66-157 | A padded model with `ngram_size >= 2` trained on a line containing a space never survives saving and loading. |

## Left out

- File I/O is not modelled: opening and reading the training file, and the JSON file in `save_model`/`load_model`, `mkdir` and `json.dump`/`json.load`. The corpus is a sequence of lines and the saved file is an abstract key → value document.
- `strip()` of each training line is not modelled: lines are taken as already stripped.
- `random.seed` and `shuffle` are not modelled as randomness: the order the contexts are written in is a parameter, required to list every context once.
- `np.log` and floating point are left out. Probabilities are exact reals, and the natural logarithm is a function parameter of `Scoring.AssignLogprob`.
- `Scoring.ScoreWithinBounds`: it assumes bounds on the logarithms rather than deriving them from the probabilities, because the logarithm is a parameter.
- `smooth` and `denominator_smoother` are reals, so `len(vocabulary) * smooth` with an integer `smooth` is not kept as a Python integer. Only the value is modelled.
- A negative `ngram_size` is left out: `tee` raises `ValueError` for it. The field is a natural number, and `ngram_size == 0` (no copies, no n-grams) is modelled.
- `LanguageModel.NGramLanguageModel.Load`: it rejects a metadata value of the wrong kind and a context value that is not a count table (`WrongType`, `NotACountTable`). Python assigns whatever the JSON holds and fails later or never. JSON `Infinity`/`NaN` are not modelled.
- Logging, the `argparse`/`main` command line, and `src/translator_bot.py` (Twitter API glue) are not part of this model.
- Concurrency is not modelled: the model is single-threaded, like the source.
