/**
 * Saving and loading a model (`save_model` / `load_model`) on an abstract
 * document: the key -> value object that the JSON file holds. Every context
 * becomes one key, its tokens joined by single spaces, and five metadata keys
 * hold the hyperparameters; loading reads the metadata back, removes it, and
 * splits every remaining key on single spaces.
 */
module Persistence {
  import opened Wrappers
  import opened NGrams
  import opened Counting
  import opened Scoring

  /** The JSON values a saved model holds. */
  datatype Value =
    | Null
    | Bool(b: bool)
    | Int(i: int)
    | Number(r: real)
    | Str(s: string)
    | Table(counts: Counts)

  /** The saved JSON object. */
  type Document = map<string, Value>

  const LanguageKey: string := "language"
  const PadKey: string := "pad_utterances"
  const DenominatorKey: string := "denominator_smoother"
  const SmoothKey: string := "smooth"
  const NgramSizeKey: string := "ngram_size"

  /** The keys that hold hyperparameters rather than a context. */
  const MetadataKeys: set<string> := {LanguageKey, PadKey, DenominatorKey, SmoothKey, NgramSizeKey}

  // ---------------------------------------------------------------------
  // Keys: joining and splitting on single spaces
  // ---------------------------------------------------------------------

  /** `" ".join(tokens)`; joining no tokens gives the empty string. */
  function Join(xs: seq<string>): string
    decreases |xs|
  {
    if |xs| == 0 then "" else if |xs| == 1 then xs[0] else xs[0] + " " + Join(xs[1..])
  }

  /**
   * `s.split(" ")`: the pieces between single spaces, empty pieces included;
   * there is always at least one piece, and `""` gives `[""]`.
   */
  function Split(s: string): (r: seq<string>)
    ensures |r| >= 1
    decreases |s|
  {
    if s == [] then [""]
    else if s[0] == ' ' then [""] + Split(s[1..])
    else
      var rest := Split(s[1..]);
      [[s[0]] + rest[0]] + rest[1..]
  }

  /** A token without a space in it. */
  predicate SpaceFree(t: string) {
    ' ' !in t
  }

  /** A context that survives joining and splitting: at least one token, none with a space. */
  predicate Splittable(xs: seq<string>) {
    xs != [] && forall i :: 0 <= i < |xs| ==> SpaceFree(xs[i])
  }

  /** No piece that `split(" ")` produces contains a space. */
  lemma {:induction false} SplitPiecesSpaceFree(s: string)
    ensures forall i :: 0 <= i < |Split(s)| ==> SpaceFree(Split(s)[i])
    decreases |s|
  {
    if s != [] {
      SplitPiecesSpaceFree(s[1..]);
      if s[0] != ' ' {
        var rest := Split(s[1..]);
        assert SpaceFree(rest[0]);
        assert Split(s)[0] == [s[0]] + rest[0];
        forall i | 0 < i < |Split(s)| ensures SpaceFree(Split(s)[i]) {
          assert Split(s)[i] == rest[i];
        }
      }
    }
  }

  /** Joining the pieces of a split gives the string back: `" ".join(s.split(" ")) == s`. */
  lemma {:induction false} JoinSplit(s: string)
    ensures Join(Split(s)) == s
    decreases |s|
  {
    if s != [] {
      JoinSplit(s[1..]);
      var rest := Split(s[1..]);
      if s[0] == ' ' {
        assert ([""] + rest)[1..] == rest;
        assert Join(Split(s)) == "" + " " + Join(rest);
      } else if |rest| == 1 {
        assert Join(Split(s)) == [s[0]] + rest[0];
      } else {
        assert Join(rest) == rest[0] + " " + Join(rest[1..]);
        assert Split(s)[1..] == rest[1..];
        assert Join(Split(s)) == ([s[0]] + rest[0]) + " " + Join(rest[1..]);
      }
    }
  }

  /** Splitting a space-free prefix `w` followed by `t` glues `w` onto the first piece of `t`. */
  lemma {:induction false} SplitPrefix(w: string, t: string)
    requires SpaceFree(w)
    ensures Split(w + t) == [w + Split(t)[0]] + Split(t)[1..]
    decreases |w|
  {
    if w == [] {
      assert w + t == t;
      assert Split(t) == [Split(t)[0]] + Split(t)[1..];
      assert w + Split(t)[0] == Split(t)[0];
    } else {
      assert (w + t)[0] == w[0];
      assert (w + t)[1..] == w[1..] + t;
      SplitPrefix(w[1..], t);
      assert [w[0]] + (w[1..] + Split(t)[0]) == w + Split(t)[0];
    }
  }

  /**
   * Splitting a joined context gives it back exactly when the context has at
   * least one token and none of its tokens contains a space.
   */
  lemma {:induction false} SplitJoin(xs: seq<string>)
    ensures Split(Join(xs)) == xs <==> Splittable(xs)
    decreases |xs|
  {
    if Splittable(xs) {
      if |xs| == 1 {
        SplitPrefix(xs[0], "");
        assert xs[0] + "" == xs[0];
      } else {
        assert Splittable(xs[1..]) by {
          forall i | 0 <= i < |xs[1..]| ensures SpaceFree(xs[1..][i]) { assert xs[1..][i] == xs[i + 1]; }
        }
        SplitJoin(xs[1..]);
        var tail := " " + Join(xs[1..]);
        assert xs[0] + " " + Join(xs[1..]) == xs[0] + tail;
        SplitPrefix(xs[0], tail);
        assert tail[0] == ' ' && tail[1..] == Join(xs[1..]);
        assert Split(tail) == [""] + xs[1..];
        assert xs[0] + "" == xs[0];
        assert xs == [xs[0]] + xs[1..];
      }
    } else {
      SplitPiecesSpaceFree(Join(xs));
    }
  }

  /** A context of two or more tokens joins to a key containing a space. */
  lemma {:induction false} JoinHasSpace(xs: seq<string>)
    requires |xs| >= 2
    ensures !SpaceFree(Join(xs))
  {
    assert Join(xs) == xs[0] + " " + Join(xs[1..]);
    assert Join(xs)[|xs[0]|] == ' ';
  }

  /** Every metadata key is longer than one character and has no space. */
  lemma {:induction false} MetadataKeysShape(k: string)
    requires k in MetadataKeys
    ensures |k| > 1 && SpaceFree(k)
  {
  }

  // ---------------------------------------------------------------------
  // save_model
  // ---------------------------------------------------------------------

  /**
   * `shuffle(model)`: the order in which the contexts are written, each
   * exactly once (as many entries as contexts, and the same contexts).
   */
  predicate IsShuffleOf(order: seq<Context>, c: Counter) {
    |order| == |c| &&
    (forall ctx :: ctx in c ==> ctx in order) &&
    (forall i :: 0 <= i < |order| ==> order[i] in c)
  }

  /**
   * `dict(model)` over the list of (joined context, counts) pairs in the
   * order given: the keys are exactly the joined contexts, each holding a
   * table of counts.
   */
  function EncodeContexts(c: Counter, order: seq<Context>): (doc: Document)
    requires forall i :: 0 <= i < |order| ==> order[i] in c
    ensures forall k :: k in doc <==> exists i :: 0 <= i < |order| && Join(order[i]) == k
    ensures forall k :: k in doc ==> doc[k].Table?
    decreases |order|
  {
    if order == [] then map[]
    else
      var init := order[..|order| - 1];
      var last := order[|order| - 1];
      assert forall i :: 0 <= i < |init| ==> init[i] == order[i];
      EncodeContexts(c, init)[Join(last) := Table(c[last])]
  }

  /**
   * When several contexts join to the same key, `dict` keeps the pair written
   * last: a key holds the counts of the last context joined to it.
   */
  lemma {:induction false} EncodedLast(c: Counter, order: seq<Context>, i: nat)
    requires forall i :: 0 <= i < |order| ==> order[i] in c
    requires i < |order|
    requires forall j :: i < j < |order| ==> Join(order[j]) != Join(order[i])
    ensures EncodeContexts(c, order)[Join(order[i])] == Table(c[order[i]])
    decreases |order|
  {
    var init := order[..|order| - 1];
    if i < |order| - 1 {
      assert forall j :: 0 <= j < |init| ==> init[j] == order[j];
      assert Join(order[|order| - 1]) != Join(order[i]);
      EncodedLast(c, init, i);
    }
  }

  /** Every key holds the counts of one of the contexts joined to it. */
  lemma {:induction false} EncodedValue(c: Counter, order: seq<Context>, k: string)
    requires forall i :: 0 <= i < |order| ==> order[i] in c
    requires k in EncodeContexts(c, order)
    ensures exists i :: 0 <= i < |order| && Join(order[i]) == k && EncodeContexts(c, order)[k] == Table(c[order[i]])
    decreases |order|
  {
    var init := order[..|order| - 1];
    var last := order[|order| - 1];
    assert forall i :: 0 <= i < |init| ==> init[i] == order[i];
    if Join(last) != k {
      EncodedValue(c, init, k);
      var i :| 0 <= i < |init| && Join(init[i]) == k && EncodeContexts(c, init)[k] == Table(c[init[i]]);
      assert Join(order[i]) == k && EncodeContexts(c, order)[k] == Table(c[order[i]]);
    } else {
      assert Join(order[|order| - 1]) == k && EncodeContexts(c, order)[k] == Table(c[order[|order| - 1]]);
    }
  }

  /** A key no other context shares holds that context's counts. */
  lemma {:induction false} EncodedUnique(c: Counter, order: seq<Context>, ctx: Context)
    requires forall i :: 0 <= i < |order| ==> order[i] in c
    requires ctx in order
    requires forall i :: 0 <= i < |order| && Join(order[i]) == Join(ctx) ==> order[i] == ctx
    ensures Join(ctx) in EncodeContexts(c, order) && EncodeContexts(c, order)[Join(ctx)] == Table(c[ctx])
  {
    var i :| 0 <= i < |order| && order[i] == ctx;
    assert Join(order[i]) == Join(ctx);
    EncodedValue(c, order, Join(ctx));
  }

  /** `None` is written as JSON `null`. */
  function OptionalString(o: Option<string>): Value {
    match o
    case None => Null
    case Some(s) => Str(s)
  }

  /** `None` is written as JSON `null`. */
  function OptionalNumber(o: Option<real>): Value {
    match o
    case None => Null
    case Some(r) => Number(r)
  }

  /** The document `save_model` writes: the contexts, then the five metadata fields on top. */
  function Encode(m: ModelState, order: seq<Context>): (doc: Document)
    requires IsShuffleOf(order, m.counter)
  {
    EncodeContexts(m.counter, order)
      [LanguageKey := OptionalString(m.language)]
      [PadKey := Bool(m.padUtterances)]
      [DenominatorKey := OptionalNumber(m.denominatorSmoother)]
      [SmoothKey := Number(m.smooth)]
      [NgramSizeKey := Int(m.ngramSize)]
  }

  // ---------------------------------------------------------------------
  // load_model
  // ---------------------------------------------------------------------

  /** Why loading stops: a metadata key is absent (`KeyError`), or a value has the wrong kind. */
  datatype LoadError = MissingKey(key: string) | WrongType(key: string) | NotACountTable

  function ReadLanguage(doc: Document): Result<Option<string>, LoadError> {
    if LanguageKey !in doc then Failure(MissingKey(LanguageKey))
    else
      match doc[LanguageKey]
      case Null => Success(None)
      case Str(s) => Success(Some(s))
      case _ => Failure(WrongType(LanguageKey))
  }

  function ReadPad(doc: Document): Result<bool, LoadError> {
    if PadKey !in doc then Failure(MissingKey(PadKey))
    else if doc[PadKey].Bool? then Success(doc[PadKey].b)
    else Failure(WrongType(PadKey))
  }

  function ReadDenominator(doc: Document): Result<Option<real>, LoadError> {
    if DenominatorKey !in doc then Failure(MissingKey(DenominatorKey))
    else
      match doc[DenominatorKey]
      case Null => Success(None)
      case Number(r) => Success(Some(r))
      case Int(i) => Success(Some(i as real))
      case _ => Failure(WrongType(DenominatorKey))
  }

  function ReadSmooth(doc: Document): Result<real, LoadError> {
    if SmoothKey !in doc then Failure(MissingKey(SmoothKey))
    else
      match doc[SmoothKey]
      case Number(r) => Success(r)
      case Int(i) => Success(i as real)
      case _ => Failure(WrongType(SmoothKey))
  }

  function ReadNgramSize(doc: Document): Result<nat, LoadError> {
    if NgramSizeKey !in doc then Failure(MissingKey(NgramSizeKey))
    else if doc[NgramSizeKey].Int? && doc[NgramSizeKey].i >= 0 then Success(doc[NgramSizeKey].i as nat)
    else Failure(WrongType(NgramSizeKey))
  }

  /** Every key of a document is the join of its own split. */
  lemma {:induction false} JoinSplitKeys(rest: Document)
    ensures forall k :: k in rest ==> Join(Split(k)) == k
  {
    forall k | k in rest ensures Join(Split(k)) == k {
      JoinSplit(k);
    }
  }

  /**
   * `{tuple(key.split(" ")): counts for key, counts in model.items()}` on
   * the document without its metadata: a context is present exactly when it
   * is the split of some key, that is, when its join is a key and splits
   * back to it, and it maps to that key's counts.
   */
  function DecodeCounter(rest: Document): (r: Result<Counter, LoadError>)
    ensures r.Success? <==> forall k :: k in rest ==> rest[k].Table?
    ensures r.Success? ==> forall ctx :: ctx in r.value <==> Join(ctx) in rest && Split(Join(ctx)) == ctx
    ensures r.Success? ==> forall ctx :: ctx in r.value ==> rest[Join(ctx)] == Table(r.value[ctx])
  {
    if exists k :: k in rest && !rest[k].Table? then Failure(NotACountTable)
    else
      JoinSplitKeys(rest);
      Success(map ctx | ctx in (set k | k in rest :: Split(k)) :: rest[Join(ctx)].counts)
  }

  /**
   * `load_model` when it completes: the five metadata fields are read in
   * order (a missing one raises `KeyError`), deleted, and the remaining keys
   * become the counter.
   */
  function Decode(doc: Document): (r: Result<ModelState, LoadError>)
    ensures r.Success? ==> MetadataKeys <= doc.Keys
    ensures r.Failure? && r.error.MissingKey? ==> r.error.key in MetadataKeys && r.error.key !in doc
  {
    var language :- ReadLanguage(doc);
    var pad :- ReadPad(doc);
    var denominator :- ReadDenominator(doc);
    var smooth :- ReadSmooth(doc);
    var n :- ReadNgramSize(doc);
    var counter :- DecodeCounter(doc - MetadataKeys);
    Success(ModelState(language, pad, n, smooth, counter, denominator))
  }

  /**
   * `load_model` including its failures: the fields are assigned one after
   * another, so a read that fails leaves the fields assigned before it
   * updated and all later ones untouched.
   */
  function Loaded(m: ModelState, doc: Document): (ModelState, Option<LoadError>) {
    match ReadLanguage(doc)
    case Failure(e) => (m, Some(e))
    case Success(language) =>
      var m1 := m.(language := language);
      match ReadPad(doc)
      case Failure(e) => (m1, Some(e))
      case Success(pad) =>
        var m2 := m1.(padUtterances := pad);
        match ReadDenominator(doc)
        case Failure(e) => (m2, Some(e))
        case Success(denominator) =>
          var m3 := m2.(denominatorSmoother := denominator);
          match ReadSmooth(doc)
          case Failure(e) => (m3, Some(e))
          case Success(smooth) =>
            var m4 := m3.(smooth := smooth);
            match ReadNgramSize(doc)
            case Failure(e) => (m4, Some(e))
            case Success(n) =>
              var m5 := m4.(ngramSize := n);
              match DecodeCounter(doc - MetadataKeys)
              case Failure(e) => (m5, Some(e))
              case Success(counter) => (m5.(counter := counter), None)
  }

  /**
   * Loading succeeds exactly when decoding does, and then yields the decoded
   * model whatever the state before; a failed load reports the decoding
   * error and keeps the old counter.
   */
  lemma {:induction false} LoadedIsDecode(m: ModelState, doc: Document)
    ensures Loaded(m, doc).1.None? <==> Decode(doc).Success?
    ensures Decode(doc).Success? ==> Loaded(m, doc).0 == Decode(doc).value
    ensures Decode(doc).Failure? ==> Loaded(m, doc).1 == Some(Decode(doc).error) && Loaded(m, doc).0.counter == m.counter
  {
  }

  // ---------------------------------------------------------------------
  // The round trip
  // ---------------------------------------------------------------------

  /**
   * A counter that survives saving and loading: every context has at least
   * one token, no token contains a space, and no joined context is a
   * metadata key.
   */
  predicate Encodable(c: Counter) {
    forall ctx :: ctx in c ==> Splittable(ctx) && Join(ctx) !in MetadataKeys
  }

  /** The contexts of a saved model are the document without its metadata. */
  lemma {:induction false} SavedContexts(m: ModelState, order: seq<Context>)
    requires IsShuffleOf(order, m.counter)
    ensures Encode(m, order) - MetadataKeys == EncodeContexts(m.counter, order) - MetadataKeys
    ensures forall k :: k in Encode(m, order) - MetadataKeys ==> (Encode(m, order) - MetadataKeys)[k].Table?
  {
    var e := EncodeContexts(m.counter, order);
    var e1 := e[LanguageKey := OptionalString(m.language)];
    var e2 := e1[PadKey := Bool(m.padUtterances)];
    var e3 := e2[DenominatorKey := OptionalNumber(m.denominatorSmoother)];
    var e4 := e3[SmoothKey := Number(m.smooth)];
    OverwrittenThenRemoved(e4, NgramSizeKey, Int(m.ngramSize));
    OverwrittenThenRemoved(e3, SmoothKey, Number(m.smooth));
    OverwrittenThenRemoved(e2, DenominatorKey, OptionalNumber(m.denominatorSmoother));
    OverwrittenThenRemoved(e1, PadKey, Bool(m.padUtterances));
    OverwrittenThenRemoved(e, LanguageKey, OptionalString(m.language));
  }

  /** Writing a metadata key and then deleting the metadata keys is deleting them. */
  lemma {:induction false} OverwrittenThenRemoved(doc: Document, k: string, v: Value)
    requires k in MetadataKeys
    ensures doc[k := v] - MetadataKeys == doc - MetadataKeys
  {
    assert (doc[k := v] - MetadataKeys).Keys == (doc - MetadataKeys).Keys;
  }

  /** Each metadata field of a saved model reads back as the value written. */
  lemma {:induction false} SavedMetadata(m: ModelState, order: seq<Context>)
    requires IsShuffleOf(order, m.counter)
    ensures ReadLanguage(Encode(m, order)) == Success(m.language)
    ensures ReadPad(Encode(m, order)) == Success(m.padUtterances)
    ensures ReadDenominator(Encode(m, order)) == Success(m.denominatorSmoother)
    ensures ReadSmooth(Encode(m, order)) == Success(m.smooth)
    ensures ReadNgramSize(Encode(m, order)) == Success(m.ngramSize)
  {
    var doc := Encode(m, order);
    assert doc[LanguageKey] == OptionalString(m.language);
    assert doc[PadKey] == Bool(m.padUtterances);
    assert doc[DenominatorKey] == OptionalNumber(m.denominatorSmoother);
    assert doc[SmoothKey] == Number(m.smooth);
    assert doc[NgramSizeKey] == Int(m.ngramSize);
  }

  /** Loading a saved model reads its metadata back and decodes the rest as its counter. */
  lemma {:induction false} DecodeSaved(m: ModelState, order: seq<Context>)
    requires IsShuffleOf(order, m.counter)
    ensures DecodeCounter(Encode(m, order) - MetadataKeys).Success?
    ensures Decode(Encode(m, order)) == Success(m.(counter := DecodeCounter(Encode(m, order) - MetadataKeys).value))
  {
    SavedMetadata(m, order);
    SavedContexts(m, order);
  }

  /**
   * Loading a saved model always restores its five hyperparameters exactly
   * and never fails.
   */
  lemma {:induction false} MetadataRoundTrip(m: ModelState, order: seq<Context>)
    requires IsShuffleOf(order, m.counter)
    ensures Decode(Encode(m, order)).Success?
    ensures Decode(Encode(m, order)).value.language == m.language
    ensures Decode(Encode(m, order)).value.padUtterances == m.padUtterances
    ensures Decode(Encode(m, order)).value.denominatorSmoother == m.denominatorSmoother
    ensures Decode(Encode(m, order)).value.smooth == m.smooth
    ensures Decode(Encode(m, order)).value.ngramSize == m.ngramSize
  {
    DecodeSaved(m, order);
  }

  /** An encodable counter comes back unchanged from its saved contexts. */
  lemma {:induction false} EncodableCounterRestored(c: Counter, order: seq<Context>, rest: Document)
    requires IsShuffleOf(order, c) && Encodable(c)
    requires rest == EncodeContexts(c, order) - MetadataKeys
    ensures DecodeCounter(rest) == Success(c)
  {
    assert forall k :: k in rest ==> rest[k].Table?;
    var d := DecodeCounter(rest).value;
    forall ctx | ctx in c
      ensures ctx in d && d[ctx] == c[ctx]
    {
      SavedContextRestored(c, order, rest, ctx);
    }
    forall ctx | ctx in d
      ensures ctx in c
    {
      RestoredContextSaved(c, order, rest, ctx);
    }
    SameCounter(d, c);
  }

  /** Two counters with the same contexts and the same counts are equal. */
  lemma {:induction false} SameCounter(a: Counter, b: Counter)
    requires forall ctx :: ctx in a ==> ctx in b
    requires forall ctx :: ctx in b ==> ctx in a && a[ctx] == b[ctx]
    ensures a == b
  {
  }

  /** A context whose key is its own comes back with its counts. */
  lemma {:induction false} SavedContextRestored(c: Counter, order: seq<Context>, rest: Document, ctx: Context)
    requires forall i :: 0 <= i < |order| ==> order[i] in c
    requires forall x :: x in c ==> Splittable(x)
    requires ctx in c && ctx in order && Join(ctx) !in MetadataKeys
    requires rest == EncodeContexts(c, order) - MetadataKeys && DecodeCounter(rest).Success?
    ensures ctx in DecodeCounter(rest).value && DecodeCounter(rest).value[ctx] == c[ctx]
  {
    SplitJoin(ctx);
    forall i | 0 <= i < |order| && Join(order[i]) == Join(ctx)
      ensures order[i] == ctx
    {
      SplitJoin(order[i]);
    }
    EncodedUnique(c, order, ctx);
    assert Join(ctx) in rest;
  }

  /** A decoded context of a saved counter is one of its contexts, when all of them split back. */
  lemma {:induction false} RestoredContextSaved(c: Counter, order: seq<Context>, rest: Document, ctx: Context)
    requires forall i :: 0 <= i < |order| ==> order[i] in c
    requires forall x :: x in c ==> Splittable(x)
    requires rest == EncodeContexts(c, order) - MetadataKeys && DecodeCounter(rest).Success?
    requires ctx in DecodeCounter(rest).value
    ensures ctx in c
  {
    assert Join(ctx) in EncodeContexts(c, order);
    var j :| 0 <= j < |order| && Join(order[j]) == Join(ctx);
    SplitJoin(order[j]);
  }

  /** A decoded context always splits back, and its key is not a metadata key. */
  lemma {:induction false} DecodedContextsEncodable(rest: Document)
    requires rest.Keys !! MetadataKeys
    requires DecodeCounter(rest).Success?
    ensures Encodable(DecodeCounter(rest).value)
  {
    forall ctx | ctx in DecodeCounter(rest).value
      ensures Splittable(ctx) && Join(ctx) !in MetadataKeys
    {
      SplitJoin(ctx);
    }
  }

  /**
   * `load_model(save_model(m))` gives `m` back exactly when its counter is
   * encodable, whatever order the shuffle wrote the contexts in.
   */
  lemma {:induction false} RoundTrip(m: ModelState, order: seq<Context>)
    requires IsShuffleOf(order, m.counter)
    ensures Decode(Encode(m, order)) == Success(m) <==> Encodable(m.counter)
  {
    DecodeSaved(m, order);
    SavedContexts(m, order);
    var rest := Encode(m, order) - MetadataKeys;
    if Encodable(m.counter) {
      EncodableCounterRestored(m.counter, order, rest);
    } else {
      DecodedContextsEncodable(rest);
    }
  }

  /**
   * A unigram model (`ngram_size == 1`) trained on any n-gram has the empty
   * context, which is saved under `""` and loaded back as `("",)`: the
   * round trip fails.
   */
  lemma {:induction false} EmptyContextNotRestored(m: ModelState, order: seq<Context>)
    requires IsShuffleOf(order, m.counter) && [] in m.counter
    ensures Decode(Encode(m, order)) != Success(m)
  {
    RoundTrip(m, order);
  }

  /** A context with a token containing a space is split into more tokens on load: the round trip fails. */
  lemma {:induction false} SpaceTokenNotRestored(m: ModelState, order: seq<Context>, ctx: Context, i: nat)
    requires IsShuffleOf(order, m.counter) && ctx in m.counter
    requires i < |ctx| && !SpaceFree(ctx[i])
    ensures Decode(Encode(m, order)) != Success(m)
  {
    RoundTrip(m, order);
  }

  /** Distinct contexts have distinct keys. */
  predicate JoinInjective(c: Counter) {
    forall a, b :: a in c && b in c && Join(a) == Join(b) ==> a == b
  }

  /** Contexts that split back are never joined to the same key. */
  lemma {:induction false} SplittableJoinInjective(c: Counter)
    requires forall ctx :: ctx in c ==> Splittable(ctx)
    ensures JoinInjective(c)
  {
    forall a, b | a in c && b in c && Join(a) == Join(b)
      ensures a == b
    {
      SplitJoin(a);
      SplitJoin(b);
    }
  }

  /** When no two contexts share a key, the shuffle does not change the saved document. */
  lemma {:induction false} ShuffleIrrelevant(m: ModelState, order1: seq<Context>, order2: seq<Context>)
    requires IsShuffleOf(order1, m.counter) && IsShuffleOf(order2, m.counter)
    requires JoinInjective(m.counter)
    ensures Encode(m, order1) == Encode(m, order2)
  {
    var e1 := EncodeContexts(m.counter, order1);
    var e2 := EncodeContexts(m.counter, order2);
    forall k | k in e1
      ensures k in e2 && e2[k] == e1[k]
    {
      var i :| 0 <= i < |order1| && Join(order1[i]) == k;
      var ctx := order1[i];
      EncodedUnique(m.counter, order1, ctx);
      EncodedUnique(m.counter, order2, ctx);
    }
    forall k | k in e2
      ensures k in e1
    {
      var j :| 0 <= j < |order2| && Join(order2[j]) == k;
      EncodedUnique(m.counter, order1, order2[j]);
    }
    assert e1 == e2;
  }

  /**
   * When two contexts share a key, the shuffle decides which of them is
   * saved: `("a b",)` and `("a", "b")` both become `"a b"`.
   */
  lemma {:induction false} ShuffleMattersOnCollision()
    ensures var c: Counter := map[["a b"] := map["x" := 1], ["a", "b"] := map["y" := 1]];
      var m := ModelState(None, true, 3, 1.0, c, None);
      IsShuffleOf([["a b"], ["a", "b"]], c) && IsShuffleOf([["a", "b"], ["a b"]], c) &&
      Encode(m, [["a b"], ["a", "b"]])["a b"] == Table(map["y" := 1]) &&
      Encode(m, [["a", "b"], ["a b"]])["a b"] == Table(map["x" := 1])
  {
    var c: Counter := map[["a b"] := map["x" := 1], ["a", "b"] := map["y" := 1]];
    assert Join(["a", "b"]) == "a b" by {
      assert Join(["a", "b"]) == "a" + " " + Join(["b"]);
    }
    assert Join(["a b"]) == "a b";
    assert ["a b"] != ["a", "b"];
  }

  // ---------------------------------------------------------------------
  // Which trained models survive the round trip
  // ---------------------------------------------------------------------

  /** Every token of a window is a single character other than a space. */
  predicate ShortTokens(w: seq<string>) {
    forall k :: 0 <= k < |w| ==> |w[k]| == 1 && SpaceFree(w[k])
  }

  /** A training line without a space. */
  predicate NoSpaceLines(corpus: seq<string>) {
    forall l :: 0 <= l < |corpus| ==> ' ' !in corpus[l]
  }

  /** The boundary tokens are single characters other than a space. */
  lemma {:induction false} PadTokensShort()
    ensures ShortTokens([StartPad, EndPad])
  {
    assert |StartPad| == 1 && StartPad[0] != ' ';
    assert |EndPad| == 1 && EndPad[0] != ' ';
  }

  /** Padding a line without spaces gives single non-space characters. */
  lemma {:induction false} PaddedTokens(u: string, n: nat, pad: bool)
    requires ' ' !in u
    ensures ShortTokens(Padded(u, n, pad))
  {
    var p := Padded(u, n, pad);
    var offset := if pad then PadWidth(n) else 0;
    PadTokensShort();
    forall k | 0 <= k < |p|
      ensures |p[k]| == 1 && SpaceFree(p[k])
    {
      if offset <= k < offset + |u| {
        assert p[offset + (k - offset)] == [u[k - offset]];
        assert u[k - offset] in u;
      } else if k < offset {
        assert p[k] == [StartPad, EndPad][0];
      } else {
        assert p[k] == [StartPad, EndPad][1];
      }
    }
  }

  /** A window of single-character tokens is made of single-character tokens. */
  lemma {:induction false} WindowTokens(p: seq<string>, i: nat, n: nat)
    requires ShortTokens(p) && i + n <= |p|
    ensures ShortTokens(p[i..i + n])
  {
    var w := p[i..i + n];
    forall k | 0 <= k < |w| ensures |w[k]| == 1 && SpaceFree(w[k]) {
      assert w[k] == p[i + k];
    }
  }

  /** The n-grams of a line without spaces are made of single non-space characters. */
  lemma {:induction false} NGramTokens(u: string, n: nat, pad: bool)
    requires ' ' !in u
    ensures forall i :: 0 <= i < |NGramsOf(u, n, pad)| ==> ShortTokens(NGramsOf(u, n, pad)[i])
  {
    PaddedTokens(u, n, pad);
    NGramsOfWindows(u, n, pad);
    forall i | 0 <= i < |NGramsOf(u, n, pad)|
      ensures ShortTokens(NGramsOf(u, n, pad)[i])
    {
      WindowTokens(Padded(u, n, pad), i, n);
    }
  }

  /** Every n-gram of a corpus has `n` tokens; without spaces in the lines, all of them single characters. */
  lemma {:induction false} CorpusTokens(corpus: seq<string>, n: nat, pad: bool)
    ensures forall i :: 0 <= i < |CorpusNGrams(corpus, n, pad)| ==> |CorpusNGrams(corpus, n, pad)[i]| == n
    ensures NoSpaceLines(corpus) ==>
      forall i :: 0 <= i < |CorpusNGrams(corpus, n, pad)| ==> ShortTokens(CorpusNGrams(corpus, n, pad)[i])
    decreases |corpus|
  {
    if corpus != [] {
      var init := corpus[..|corpus| - 1];
      var u := corpus[|corpus| - 1];
      var front := CorpusNGrams(init, n, pad);
      var back := NGramsOf(u, n, pad);
      CorpusTokens(init, n, pad);
      if NoSpaceLines(corpus) {
        assert NoSpaceLines(init) by {
          forall l | 0 <= l < |init| ensures ' ' !in init[l] { assert init[l] == corpus[l]; }
        }
        NGramTokens(u, n, pad);
      }
      assert CorpusNGrams(corpus, n, pad) == front + back;
      forall i | 0 <= i < |front + back|
        ensures |(front + back)[i]| == n
        ensures NoSpaceLines(corpus) ==> ShortTokens((front + back)[i])
      {
        if i < |front| {
          assert (front + back)[i] == front[i];
        } else {
          assert (front + back)[i] == back[i - |front|];
        }
      }
    }
  }

  /** Each n-gram of each line is one of the corpus's n-grams. */
  lemma {:induction false} CorpusHasLineNGrams(corpus: seq<string>, n: nat, pad: bool, l: nat, i: nat)
    requires l < |corpus| && i < |NGramsOf(corpus[l], n, pad)|
    ensures NGramsOf(corpus[l], n, pad)[i] in CorpusNGrams(corpus, n, pad)
    decreases |corpus|
  {
    var init := corpus[..|corpus| - 1];
    if l < |corpus| - 1 {
      assert corpus[l] == init[l];
      CorpusHasLineNGrams(init, n, pad, l, i);
    }
  }

  /** A context of a single character-token, or of two or more tokens, is never a metadata key. */
  lemma {:induction false} ContextKeyNotMetadata(ctx: Context)
    requires ctx != [] && ShortTokens(ctx)
    ensures Splittable(ctx) && Join(ctx) !in MetadataKeys
  {
    if |ctx| == 1 {
      assert |Join(ctx)| == 1;
    } else {
      JoinHasSpace(ctx);
    }
    if Join(ctx) in MetadataKeys {
      MetadataKeysShape(Join(ctx));
    }
  }

  /**
   * Counting n-grams of size two or more made of single non-space characters
   * keeps a counter encodable: every new context has at least one token,
   * none with a space, and its key is never a metadata key.
   */
  lemma {:induction false} TallyKeepsEncodable(c: Counter, ws: seq<seq<string>>, n: nat)
    requires Encodable(c) && n >= 2
    requires forall i :: 0 <= i < |ws| ==> |ws[i]| == n && ShortTokens(ws[i])
    ensures Encodable(Tally(c, ws))
  {
    forall ctx | ctx in Tally(c, ws)
      ensures Splittable(ctx) && Join(ctx) !in MetadataKeys
    {
      TallyCounts(c, ws, ctx, "");
      if ctx !in c {
        var i :| 0 <= i < |ws| && ContextOf(ws[i]) == ctx;
        assert forall k :: 0 <= k < |ctx| ==> ctx[k] == ws[i][k];
        ContextKeyNotMetadata(ctx);
      }
    }
  }

  /**
   * A model trained with `ngram_size >= 2` on lines without spaces, starting
   * from an encodable counter (a fresh one is empty), survives saving and
   * loading.
   */
  lemma {:induction false} TrainedModelRoundTrip(m: ModelState, order: seq<Context>, c: Counter, corpus: seq<string>)
    requires Encodable(c) && m.ngramSize >= 2 && NoSpaceLines(corpus)
    requires m.counter == Tally(c, CorpusNGrams(corpus, m.ngramSize, m.padUtterances))
    requires IsShuffleOf(order, m.counter)
    ensures Decode(Encode(m, order)) == Success(m)
  {
    CorpusTokens(corpus, m.ngramSize, m.padUtterances);
    TallyKeepsEncodable(c, CorpusNGrams(corpus, m.ngramSize, m.padUtterances), m.ngramSize);
    RoundTrip(m, order);
  }

  /**
   * A unigram model (`ngram_size == 1`) trained on a corpus with at least one
   * character never survives saving and loading.
   */
  lemma {:induction false} TrainedUnigramNotRestored(m: ModelState, order: seq<Context>, c: Counter, corpus: seq<string>)
    requires m.ngramSize == 1
    requires m.counter == Tally(c, CorpusNGrams(corpus, 1, m.padUtterances))
    requires CorpusNGrams(corpus, 1, m.padUtterances) != []
    requires IsShuffleOf(order, m.counter)
    ensures Decode(Encode(m, order)) != Success(m)
  {
    var ws := CorpusNGrams(corpus, 1, m.padUtterances);
    CorpusTokens(corpus, 1, m.padUtterances);
    assert NonEmptyWindows(ws);
    TallyCounts(c, ws, [], "");
    assert ContextOf(ws[0]) == [];
    EmptyContextNotRestored(m, order);
  }

  /** With padding, the n-gram starting at a space of the line begins with the token `" "`. */
  lemma {:induction false} NGramAtSpace(u: string, n: nat, j: nat)
    requires n >= 2 && j < |u| && u[j] == ' '
    ensures PadWidth(n) + j < |NGramsOf(u, n, true)|
    ensures NGramsOf(u, n, true)[PadWidth(n) + j][0] == " "
  {
    var p := Padded(u, n, true);
    assert p[PadWidth(n) + j] == [u[j]];
    NGramsOfWindows(u, n, true);
    assert NGramsOf(u, n, true)[PadWidth(n) + j] == p[PadWidth(n) + j..PadWidth(n) + j + n];
  }

  /**
   * A padded model with `ngram_size >= 2` trained on a line containing a
   * space has a context starting with the token `" "`: it never survives
   * saving and loading.
   */
  lemma {:induction false} TrainedOnSpaceNotRestored(m: ModelState, order: seq<Context>, c: Counter, corpus: seq<string>, l: nat, j: nat)
    requires m.padUtterances && m.ngramSize >= 2
    requires m.counter == Tally(c, CorpusNGrams(corpus, m.ngramSize, true))
    requires l < |corpus| && j < |corpus[l]| && corpus[l][j] == ' '
    requires IsShuffleOf(order, m.counter)
    ensures Decode(Encode(m, order)) != Success(m)
  {
    var n := m.ngramSize;
    var ws := CorpusNGrams(corpus, n, true);
    NGramAtSpace(corpus[l], n, j);
    var w := NGramsOf(corpus[l], n, true)[PadWidth(n) + j];
    CorpusHasLineNGrams(corpus, n, true, l, PadWidth(n) + j);
    CorpusTokens(corpus, n, true);
    assert NonEmptyWindows(ws);
    TallyHasContext(c, ws, w);
    assert ContextOf(w)[0] == " ";
    assert !SpaceFree(ContextOf(w)[0]);
    SpaceTokenNotRestored(m, order, ContextOf(w), 0);
  }
}
