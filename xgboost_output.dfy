/**
 * `XGBoostOutput`: the training output of an XGBoost model. It holds the number of trees
 * built and, per tree, a score keeper for the training frame and one for the validation
 * frame; `scoreKeepers` reports the scored ones of the history that counts.
 *
 * `ScoreKeeper`'s own fields are not part of this model: a keeper is the sequence of its
 * metric values, and it is empty when none of them has been computed (all are NaN).
 */
module XGBoost {
  import opened Common

  /** A metric value as a Java `double`: NaN when not computed. */
  datatype Metric = NaN | Num(x: real)

  /** The metrics recorded after one scoring round. */
  datatype ScoreKeeper = ScoreKeeper(metrics: seq<Metric>)

  /** `ScoreKeeper.isEmpty`: no metric was computed. */
  predicate IsEmpty(sk: ScoreKeeper) {
    forall i | 0 <= i < |sk.metrics| :: sk.metrics[i].NaN?
  }

  /** `new ScoreKeeper(v)`: every metric set to `v`. */
  function Filled(v: Metric): (sk: ScoreKeeper)
    ensures IsEmpty(sk) <==> v.NaN?
  {
    var sk := ScoreKeeper([v]);
    assert sk.metrics[0] == v;
    sk
  }

  /** The validation metrics of a model; only whether they exist matters here. */
  datatype ModelMetrics = ModelMetrics(metrics: seq<Metric>)

  /** The non-empty keepers of a history, in their order. */
  function NonEmpty(history: seq<ScoreKeeper>): seq<ScoreKeeper> {
    if history == [] then []
    else
      var last := history[|history| - 1];
      NonEmpty(history[..|history| - 1]) + (if IsEmpty(last) then [] else [last])
  }

  /** `a` is `b` with some elements left out and the rest kept in order. */
  predicate IsSubsequence<T(==)>(a: seq<T>, b: seq<T>)
    decreases |b|
  {
    if a == [] then true
    else if b == [] then false
    else if a[|a| - 1] == b[|b| - 1] then IsSubsequence(a[..|a| - 1], b[..|b| - 1])
    else IsSubsequence(a, b[..|b| - 1])
  }

  /** Only non-empty keepers of the history are kept. */
  lemma {:induction false} NonEmptyKeepsOnlyScored(history: seq<ScoreKeeper>)
    ensures forall i | 0 <= i < |NonEmpty(history)| :: !IsEmpty(NonEmpty(history)[i]) && NonEmpty(history)[i] in history
  {
    if history != [] {
      var init := history[..|history| - 1];
      NonEmptyKeepsOnlyScored(init);
      assert forall k | k in init :: k in history;
    }
  }

  /** No non-empty keeper of the history is missed. */
  lemma {:induction false} NonEmptyMissesNone(history: seq<ScoreKeeper>)
    ensures forall i | 0 <= i < |history| && !IsEmpty(history[i]) :: history[i] in NonEmpty(history)
  {
    if history != [] {
      var init := history[..|history| - 1];
      NonEmptyMissesNone(init);
      forall i | 0 <= i < |history| && !IsEmpty(history[i]) ensures history[i] in NonEmpty(history) {
        if i < |init| {
          assert history[i] == init[i];
        }
      }
    }
  }

  /** The positions of the non-empty keepers of a history. */
  function ScoredPositions(history: seq<ScoreKeeper>): set<int> {
    set i | 0 <= i < |history| && !IsEmpty(history[i])
  }

  /** One keeper is kept per non-empty position, so equal keepers are each kept. */
  lemma {:induction false} NonEmptyCountsScored(history: seq<ScoreKeeper>)
    ensures |NonEmpty(history)| == |ScoredPositions(history)|
  {
    if history != [] {
      var n := |history| - 1;
      var init := history[..n];
      NonEmptyCountsScored(init);
      assert forall i | 0 <= i < n :: init[i] == history[i];
      if IsEmpty(history[n]) {
        assert ScoredPositions(history) == ScoredPositions(init);
      } else {
        assert ScoredPositions(history) == ScoredPositions(init) + {n};
        assert n !in ScoredPositions(init);
      }
    }
  }

  /** The kept keepers appear in the history's order. */
  lemma {:induction false} NonEmptyIsSubsequence(history: seq<ScoreKeeper>)
    ensures IsSubsequence(NonEmpty(history), history)
  {
    if history != [] {
      var init := history[..|history| - 1];
      var last := history[|history| - 1];
      NonEmptyIsSubsequence(init);
      assert history == init + [last];
      var kept := NonEmpty(history);
      if IsEmpty(last) {
        assert kept == NonEmpty(init) + [] == NonEmpty(init);
        SubsequenceOfPrefix(NonEmpty(init), init, last);
      } else {
        assert kept == NonEmpty(init) + [last];
        assert kept[..|kept| - 1] == NonEmpty(init) && kept[|kept| - 1] == last;
      }
    }
  }

  /** A subsequence of a prefix is a subsequence of the whole. */
  lemma {:induction false} SubsequenceOfPrefix<T>(a: seq<T>, b: seq<T>, x: T)
    requires IsSubsequence(a, b)
    ensures IsSubsequence(a, b + [x])
    decreases |b|, 1
  {
    assert (b + [x])[..|b|] == b;
    if a != [] && a[|a| - 1] == x {
      SubsequenceDropLast(a, b);
    }
  }

  /** Leaving out the last element of a subsequence keeps it a subsequence. */
  lemma {:induction false} SubsequenceDropLast<T>(a: seq<T>, b: seq<T>)
    requires a != [] && IsSubsequence(a, b)
    ensures IsSubsequence(a[..|a| - 1], b)
    decreases |b|, 0
  {
    var init := a[..|a| - 1];
    if b != [] {
      if a[|a| - 1] == b[|b| - 1] {
        SubsequenceOfPrefix(init, b[..|b| - 1], b[|b| - 1]);
        assert b[..|b| - 1] + [b[|b| - 1]] == b;
      } else {
        SubsequenceDropLast(a, b[..|b| - 1]);
        SubsequenceOfPrefix(init, b[..|b| - 1], b[|b| - 1]);
        assert b[..|b| - 1] + [b[|b| - 1]] == b;
      }
    }
  }

  /** A subsequence is no longer than the sequence it is taken from. */
  lemma {:induction false} SubsequenceLength<T>(a: seq<T>, b: seq<T>)
    requires IsSubsequence(a, b)
    ensures |a| <= |b|
    decreases |b|
  {
    if a != [] {
      if a[|a| - 1] == b[|b| - 1] {
        SubsequenceLength(a[..|a| - 1], b[..|b| - 1]);
      } else {
        SubsequenceLength(a, b[..|b| - 1]);
      }
    }
  }

  /** Filtering twice keeps what filtering once kept. */
  lemma {:induction false} NonEmptyIdempotent(history: seq<ScoreKeeper>)
    ensures NonEmpty(NonEmpty(history)) == NonEmpty(history)
  {
    if history != [] {
      var init := history[..|history| - 1];
      var last := history[|history| - 1];
      NonEmptyIdempotent(init);
      NonEmptyAppend(NonEmpty(init), if IsEmpty(last) then [] else [last]);
    }
  }

  /** Filtering a concatenation filters each part. */
  lemma {:induction false} NonEmptyAppend(a: seq<ScoreKeeper>, b: seq<ScoreKeeper>)
    ensures NonEmpty(a + b) == NonEmpty(a) + NonEmpty(b)
    decreases |b|
  {
    if b == [] {
      assert a + b == a;
    } else {
      assert (a + b)[..|a + b| - 1] == a + b[..|b| - 1];
      NonEmptyAppend(a, b[..|b| - 1]);
    }
  }

  class XGBoostOutput {
    var ntrees: int
    /** Per tree (plus one), the metrics on the training frame. */
    var scoredTrain: array<ScoreKeeper>
    /** Per tree (plus one), the metrics on the validation frame. */
    var scoredValid: array<ScoreKeeper>
    var validationMetrics: Nullable<ModelMetrics>

    /** Each history starts with a single keeper built from NaN, so nothing is scored yet. */
    constructor ()
      ensures ntrees == 0 && validationMetrics.Null?
      ensures fresh(scoredTrain) && fresh(scoredValid) && scoredTrain != scoredValid
      ensures scoredTrain[..] == [Filled(NaN)] && scoredValid[..] == [Filled(NaN)]
      ensures NonEmpty(scoredTrain[..]) == [] && NonEmpty(scoredValid[..]) == []
    {
      ntrees := 0;
      validationMetrics := Null;
      var train := new ScoreKeeper[1](_ => Filled(NaN));
      var valid := new ScoreKeeper[1](_ => Filled(NaN));
      assert NonEmpty(train[..]) == NonEmpty(train[..][..0]) + [];
      assert NonEmpty(valid[..]) == NonEmpty(valid[..][..0]) + [];
      scoredTrain := train;
      scoredValid := valid;
    }

    /**
     * `scoreKeepers`: the validation history when validation metrics exist, the training
     * history otherwise, without its empty keepers.
     */
    method ScoreKeepers() returns (keepers: seq<ScoreKeeper>)
      ensures validationMetrics.NonNull? ==> keepers == NonEmpty(scoredValid[..])
      ensures validationMetrics.Null? ==> keepers == NonEmpty(scoredTrain[..])
    {
      var skl: seq<ScoreKeeper> := [];
      var ska := if validationMetrics.NonNull? then scoredValid else scoredTrain;
      for i := 0 to ska.Length
        invariant skl == NonEmpty(ska[..i])
      {
        assert ska[..i + 1][..i] == ska[..i];
        if !IsEmpty(ska[i]) {
          skl := skl + [ska[i]];
        }
      }
      assert ska[..ska.Length] == ska[..];
      keepers := skl;
    }

    /** `getNTrees`: the number of trees built; nothing changes. */
    method GetNTrees() returns (n: int)
      ensures n == ntrees
    {
      n := ntrees;
    }
  }

  /**
   * What `scoreKeepers` returns, stated without the filter: only scored keepers of the chosen
   * history, all of them, in order, one per scored position, and no more than the history holds.
   */
  lemma ScoreKeepersSelection(history: seq<ScoreKeeper>)
    ensures var kept := NonEmpty(history);
      && (forall i | 0 <= i < |kept| :: !IsEmpty(kept[i]) && kept[i] in history)
      && (forall i | 0 <= i < |history| && !IsEmpty(history[i]) :: history[i] in kept)
      && IsSubsequence(kept, history)
      && |kept| <= |history|
      && |kept| == |ScoredPositions(history)|
  {
    NonEmptyKeepsOnlyScored(history);
    NonEmptyMissesNone(history);
    NonEmptyIsSubsequence(history);
    SubsequenceLength(NonEmpty(history), history);
    NonEmptyCountsScored(history);
  }
}
