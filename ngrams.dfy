/**
 * N-gram extraction (`get_ngrams`): an utterance becomes a sequence of
 * one-character tokens, optionally padded with boundary tokens, and the
 * n-grams are obtained by zipping `ngram_size` copies of that token
 * sequence, the k-th copy advanced k times.
 */
module NGrams {

  /** Boundary token prepended when utterances are padded. */
  const StartPad: string := "<"
  /** Boundary token appended when utterances are padded. */
  const EndPad: string := ">"

  /** The utterance as one-character tokens, as `list(utterance)` gives it. */
  function Chars(u: string): (r: seq<string>)
    ensures |r| == |u|
    ensures forall i :: 0 <= i < |u| ==> r[i] == [u[i]]
  {
    seq(|u|, i requires 0 <= i < |u| => [u[i]])
  }

  /** `[t] * k` */
  function Repeat(t: string, k: nat): (r: seq<string>)
    ensures |r| == k
    ensures forall i :: 0 <= i < k ==> r[i] == t
  {
    seq(k, _ => t)
  }

  /** Pad tokens on each side: `ngram_size - 1`; a negative list repetition is empty. */
  function PadWidth(n: nat): nat {
    if n == 0 then 0 else n - 1
  }

  /**
   * The token sequence that is windowed: with padding, `n - 1` start tokens,
   * the characters, then `n - 1` end tokens; without, the characters alone.
   */
  function Padded(u: string, n: nat, pad: bool): (p: seq<string>)
    ensures |p| == |u| + (if pad then 2 * PadWidth(n) else 0)
    ensures pad ==> forall i :: 0 <= i < PadWidth(n) ==> p[i] == StartPad
    ensures pad ==> forall i :: PadWidth(n) + |u| <= i < |p| ==> p[i] == EndPad
    ensures forall j :: 0 <= j < |u| ==> p[(if pad then PadWidth(n) else 0) + j] == [u[j]]
  {
    if pad then Repeat(StartPad, PadWidth(n)) + Chars(u) + Repeat(EndPad, PadWidth(n))
    else Chars(u)
  }

  /** `next(it, None)`: consume one token, or do nothing on an exhausted iterator. */
  function Advance(it: seq<string>): seq<string> {
    if it == [] then [] else it[1..]
  }

  /** What remains of a copy of `p` after it has been advanced `k` times. */
  function Shifted(p: seq<string>, k: nat): seq<string> {
    if k <= |p| then p[k..] else []
  }

  /** The `n` copies made by `tee`, copy k advanced k times. */
  function Shifts(p: seq<string>, n: nat): (its: seq<seq<string>>)
    ensures |its| == n
  {
    seq(n, k requires 0 <= k < n => Shifted(p, k))
  }

  /**
   * `zip(*its)`: tuples of the heads of all iterators, stopping as soon as
   * one of them is exhausted; zipping no iterators at all yields nothing.
   */
  function Zip(its: seq<seq<string>>): seq<seq<string>>
    decreases if |its| == 0 then 0 else |its[0]|
  {
    if |its| == 0 || exists j :: 0 <= j < |its| && its[j] == [] then []
    else
      [seq(|its|, j requires 0 <= j < |its| => its[j][0])]
      + Zip(seq(|its|, j requires 0 <= j < |its| => its[j][1..]))
  }

  /** Number of stride-1 windows of size `n` over `len` tokens. */
  function WindowCount(len: nat, n: nat): nat {
    if n == 0 || len < n then 0 else len - n + 1
  }

  /** With no copies, or a sequence shorter than `n`, some copy is exhausted from the start. */
  lemma {:induction false} ZipEmpty(p: seq<string>, n: nat)
    requires n == 0 || |p| < n
    ensures Zip(Shifts(p, n)) == []
  {
    if n > 0 {
      assert Shifts(p, n)[n - 1] == [];
    }
  }

  /** One step of `zip`: the first window is the first `n` tokens, the rest is the zip of the copies of the tail. */
  lemma {:induction false} ZipStep(p: seq<string>, n: nat)
    requires 1 <= n <= |p|
    ensures Zip(Shifts(p, n)) == [p[..n]] + Zip(Shifts(p[1..], n))
  {
    var its := Shifts(p, n);
    assert forall j :: 0 <= j < n ==> its[j] == p[j..] && its[j] != [];
    var heads := seq(n, j requires 0 <= j < n => its[j][0]);
    var tails := seq(n, j requires 0 <= j < n => its[j][1..]);
    assert Zip(its) == [heads] + Zip(tails);
    assert heads == p[..n];
    assert tails == Shifts(p[1..], n);
  }

  /** The first window followed by the sliding windows of the tail are the sliding windows of the whole. */
  lemma {:induction false} WindowsCons(p: seq<string>, n: nat, rest: seq<seq<string>>)
    requires 1 <= n <= |p|
    requires |rest| == WindowCount(|p| - 1, n)
    requires forall i :: 0 <= i < |rest| ==> rest[i] == p[1..][i..i + n]
    ensures |[p[..n]] + rest| == WindowCount(|p|, n)
    ensures forall i :: 0 <= i < |[p[..n]] + rest| ==> ([p[..n]] + rest)[i] == p[i..i + n]
  {
    forall i | 0 <= i < 1 + |rest|
      ensures ([p[..n]] + rest)[i] == p[i..i + n]
    {
      if i > 0 {
        assert ([p[..n]] + rest)[i] == rest[i - 1] == p[1..][i - 1..i - 1 + n];
      }
    }
  }

  /**
   * Zipping the shifted copies is a sliding window of stride 1: there are
   * `len - n + 1` windows (none when the sequence is shorter than `n`) and
   * window i covers positions i .. i + n - 1.
   */
  lemma {:induction false} ZipOfShifts(p: seq<string>, n: nat)
    ensures |Zip(Shifts(p, n))| == WindowCount(|p|, n)
    ensures forall i :: 0 <= i < |Zip(Shifts(p, n))| ==> Zip(Shifts(p, n))[i] == p[i..i + n]
    decreases |p|
  {
    if n == 0 || |p| < n {
      ZipEmpty(p, n);
    } else {
      ZipStep(p, n);
      ZipOfShifts(p[1..], n);
      WindowsCons(p, n, Zip(Shifts(p[1..], n)));
    }
  }

  /**
   * The n-grams of an utterance: every window has exactly `n` tokens, and
   * there are `max(0, L - n + 1)` of them for padded length L (none when n
   * is 0). Which tokens each window holds is `NGramsOfWindows`.
   */
  function NGramsOf(u: string, n: nat, pad: bool): (r: seq<seq<string>>)
    ensures |r| == WindowCount(|Padded(u, n, pad)|, n)
    ensures forall i :: 0 <= i < |r| ==> |r[i]| == n
  {
    ZipOfShifts(Padded(u, n, pad), n);
    Zip(Shifts(Padded(u, n, pad), n))
  }

  /** Window i of an utterance is positions i .. i + n - 1 of its padded tokens. */
  lemma {:induction false} NGramsOfWindows(u: string, n: nat, pad: bool)
    ensures forall i :: 0 <= i < |NGramsOf(u, n, pad)| ==> NGramsOf(u, n, pad)[i] == Padded(u, n, pad)[i..i + n]
  {
    ZipOfShifts(Padded(u, n, pad), n);
  }

  /**
   * With padding and n >= 2 every utterance, even the empty one, has at least
   * one n-gram; without padding an utterance shorter than n has none.
   */
  lemma {:induction false} PaddedUtteranceHasNGrams(u: string, n: nat)
    ensures n >= 2 ==> NGramsOf(u, n, true) != []
    ensures |u| < n ==> NGramsOf(u, n, false) == []
  {
    if n >= 2 {
      assert |NGramsOf(u, n, true)| >= 1;
    }
  }

  /**
   * With padding, an utterance has no n-gram exactly when `ngram_size` is 0,
   * or when it is 1 and the utterance is empty (one pad token of each kind
   * is `ngram_size - 1 == 0` of them).
   */
  lemma {:induction false} PaddedUtteranceWithoutNGrams(u: string, n: nat)
    ensures NGramsOf(u, n, true) == [] <==> n == 0 || (n == 1 && u == [])
  {
    assert |Padded(u, n, true)| == |u| + 2 * PadWidth(n);
  }
}
