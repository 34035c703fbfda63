/**
 * The random forest classifier of randomforestclassifier.py: hyperparameter
 * defaults, growing `n_trees` trees, the trees' predictions and the
 * per-observation majority vote. Trees are opaque values of type `T`; how a
 * tree is grown from a random bootstrap sample of the instance's data is the
 * parameter `grow`, and a tree's own prediction is the parameter `treePredict`.
 */
module Forest {
  import opened Wrappers
  import opened Text

  /** A data frame: its column names and its rows. */
  datatype Frame<Obs> = Frame(columns: seq<string>, rows: seq<Obs>)

  /** What `grow_random_forest` hands to every tree it builds. */
  datatype TreeParams = TreeParams(minSamplesSplit: int, maxDepth: int, xFeaturesFraction: real,
                                   optiArray: Option<map<string, seq<real>>>)

  /** What `bootstrap_sample` draws from: X's rows with repetition, their Y labels, and the fraction drawn. */
  datatype SampleSource<Obs, L> = SampleSource(x: Frame<Obs>, y: seq<L>, xObsFraction: real)

  /** The Python exceptions these methods can raise. */
  datatype PyError = AttributeError | IndexError

  /** Python truthiness of an optional integer argument: None and 0 are false. */
  predicate Truthy(arg: Option<int>) {
    arg.Some? && arg.value != 0
  }

  /** `arg if arg else default`. */
  function OrIfFalsy(arg: Option<int>, default: int): (r: int)
    ensures arg.Some? && arg.value != 0 ==> r == arg.value
    ensures arg.None? || arg.value == 0 ==> r == default
  {
    if Truthy(arg) then arg.value else default
  }

  /** `arg if arg is not None else default`. */
  function OrIfNone<V>(arg: Option<V>, default: V): (r: V)
    ensures arg.Some? ==> r == arg.value
    ensures arg.None? ==> r == default
  {
    if arg.Some? then arg.value else default
  }

  /** An explicit 0 is replaced for the split and depth limits but kept for the tree count and fractions. */
  lemma ExplicitZeroArguments()
    ensures OrIfFalsy(Some(0), 20) == 20 && OrIfFalsy(Some(0), 5) == 5
    ensures OrIfNone(Some(0), 30) == 0 && OrIfNone(Some(0.0), 1.0) == 0.0
  {
  }

  /** How many times `for _ in range(n)` runs. */
  function RangeLength(n: int): nat {
    if n < 0 then 0 else n
  }

  // The majority vote of `Counter(votes).most_common(1)[0][0]`.

  function FirstIndex<L(==)>(votes: seq<L>, v: L): (k: nat)
    requires v in votes
    ensures k < |votes| && votes[k] == v
    ensures forall j :: 0 <= j < k ==> votes[j] != v
  {
    if votes[0] == v then 0 else 1 + FirstIndex(votes[1..], v)
  }

  /**
   * `w` is a most frequent value of `votes`, and among the most frequent
   * values the first to appear (a `Counter` keeps first-insertion order and
   * `most_common(1)` returns the first item with the highest count).
   */
  predicate IsMostCommon<L(==)>(votes: seq<L>, w: L) {
    && w in votes
    && (forall j :: 0 <= j < |votes| ==> Count(votes, votes[j]) <= Count(votes, w))
    && (forall j :: 0 <= j < |votes| && Count(votes, votes[j]) == Count(votes, w) ==> FirstIndex(votes, w) <= j)
  }

  /** Scan from position `i`, replacing `best` only by a strictly more frequent value. */
  function Leader<L(==)>(votes: seq<L>, i: nat, best: L): L
    decreases |votes| - i
  {
    if i >= |votes| then best
    else Leader(votes, i + 1, if Count(votes, votes[i]) > Count(votes, best) then votes[i] else best)
  }

  /** `Counter(votes).most_common(1)[0][0]`: one of the votes, counted at least as often as any other. */
  function MostCommon<L(==)>(votes: seq<L>): (r: L)
    requires |votes| > 0
    ensures r in votes
    ensures forall j :: 0 <= j < |votes| ==> Count(votes, votes[j]) <= Count(votes, r)
  {
    LeaderIsMostCommon(votes, 1, 0);
    Leader(votes, 1, votes[0])
  }

  /** Started at position `i` with the leader so far at position `at`, the scan ends at a most common value. */
  lemma {:induction false} LeaderIsMostCommon<L>(votes: seq<L>, i: nat, at: nat)
    requires at < i <= |votes|
    requires forall j :: 0 <= j < i ==> Count(votes, votes[j]) <= Count(votes, votes[at])
    requires forall j :: 0 <= j < i && Count(votes, votes[j]) == Count(votes, votes[at])
                         ==> FirstIndex(votes, votes[at]) <= j
    ensures IsMostCommon(votes, Leader(votes, i, votes[at]))
    decreases |votes| - i
  {
    if i < |votes| {
      if Count(votes, votes[i]) > Count(votes, votes[at]) {
        LeaderIsMostCommon(votes, i + 1, i);
      } else {
        assert FirstIndex(votes, votes[at]) <= at;
        LeaderIsMostCommon(votes, i + 1, at);
      }
    }
  }

  /** The vote picks the most frequent prediction, ties going to the first encountered. */
  lemma MostCommonIsMostCommon<L>(votes: seq<L>)
    requires |votes| > 0
    ensures IsMostCommon(votes, MostCommon(votes))
  {
    LeaderIsMostCommon(votes, 1, 0);
  }

  /** The description determines the vote: there is exactly one such value. */
  lemma MostCommonUnique<L>(votes: seq<L>, a: L, b: L)
    requires IsMostCommon(votes, a) && IsMostCommon(votes, b)
    ensures a == b
  {
    var ia, ib := FirstIndex(votes, a), FirstIndex(votes, b);
    assert Count(votes, votes[ia]) == Count(votes, votes[ib]);
  }

  /** Every tree predicted observation `i`. */
  predicate Covers<L>(yhat: seq<seq<L>>, i: nat) {
    forall k :: 0 <= k < |yhat| ==> i < |yhat[k]|
  }

  /** `[x[i] for x in yhat]`: the `i`-th prediction of every tree. */
  function Column<L>(yhat: seq<seq<L>>, i: nat): (c: seq<L>)
    requires Covers(yhat, i)
    ensures |c| == |yhat| && forall k :: 0 <= k < |yhat| ==> c[k] == yhat[k][i]
  {
    seq(|yhat|, k requires 0 <= k < |yhat| => yhat[k][i])
  }

  /** The vote over `n` observations raises no IndexError: no observations, or trees that all predicted them. */
  predicate VotesCover<L>(yhat: seq<seq<L>>, n: nat) {
    n == 0 || (|yhat| > 0 && Covers(yhat, n - 1))
  }

  /** The labels `predict` returns for the first `n` observations: one vote per observation. */
  function Majority<L(==)>(yhat: seq<seq<L>>, n: nat): seq<L>
    requires VotesCover(yhat, n)
  {
    seq(n, j requires 0 <= j < n => MostCommon(Column(yhat, j)))
  }

  /** Each of those labels is the most common of its observation's predictions. */
  lemma MajorityIsMostCommon<L>(yhat: seq<seq<L>>, n: nat)
    requires VotesCover(yhat, n)
    ensures forall j :: 0 <= j < n ==> IsMostCommon(Column(yhat, j), Majority(yhat, n)[j])
  {
    forall j | 0 <= j < n
      ensures IsMostCommon(Column(yhat, j), Majority(yhat, n)[j])
    {
      MostCommonIsMostCommon(Column(yhat, j));
    }
  }

  /**
   * The loop of `predict` over the observations: vote on each, raising
   * IndexError at the first observation some tree did not predict, or at
   * the first observation when there are no trees.
   */
  method Vote<L(==)>(yhat: seq<seq<L>>, n: nat) returns (r: Result<seq<L>, PyError>)
    ensures r.Success? <==> VotesCover(yhat, n)
    ensures r.Failure? ==> r.error == IndexError
    ensures r.Success? ==> r.value == Majority(yhat, n)
  {
    var yhatFinal := [];
    var i := 0;
    while i < n
      invariant 0 <= i <= n
      invariant VotesCover(yhat, i)
      invariant yhatFinal == Majority(yhat, i)
    {
      if !Covers(yhat, i) {
        return Failure(IndexError);
      }
      var obs := Column(yhat, i);
      if |obs| == 0 {
        return Failure(IndexError);
      }
      yhatFinal := yhatFinal + [MostCommon(obs)];
      i := i + 1;
    }
    r := Success(yhatFinal);
  }

  /** With no trees only an empty frame can be predicted. */
  lemma NoTreesNoVote<L>(yhat: seq<seq<L>>, n: nat)
    requires yhat == []
    ensures VotesCover(yhat, n) <==> n == 0
  {
  }

  /** The lines `print_trees` writes for tree number `i` (counting from 0). */
  function TreeBlock<T>(i: nat, tree: T, render: T -> seq<string>): seq<string> {
    ["------ \n", "Tree number: " + Decimal(i + 1) + " \n"] + render(tree) + ["------ \n"]
  }

  /** The blocks of all `trees`, in order. */
  function Listing<T>(trees: seq<T>, render: T -> seq<string>): (out: seq<string>)
    ensures |out| >= 3 * |trees|
    ensures |trees| > 0 ==> out[..2] == ["------ \n", "Tree number: 1 \n"]
    decreases |trees|
  {
    assert Decimal(0 + 1) == "1";
    assert "Tree number: " + "1" + " \n" == "Tree number: 1 \n";
    if trees == [] then []
    else Listing(trees[..|trees| - 1], render) + TreeBlock(|trees| - 1, trees[|trees| - 1], render)
  }

  /**
   * The block of tree `i` sits in the listing right after the blocks of the
   * trees before it; in particular its header names tree number i + 1.
   */
  lemma {:induction false} ListingBlockAt<T>(trees: seq<T>, render: T -> seq<string>, i: nat)
    requires i < |trees|
    ensures var start := |Listing(trees[..i], render)|;
            && start + |TreeBlock(i, trees[i], render)| <= |Listing(trees, render)|
            && Listing(trees, render)[start..start + |TreeBlock(i, trees[i], render)|] == TreeBlock(i, trees[i], render)
            && Listing(trees, render)[start + 1] == "Tree number: " + Decimal(i + 1) + " \n"
  {
    assert trees[..i + 1][..i] == trees[..i];
    ListingPrefix(trees, render, i + 1);
  }

  /** Printing the first `k` trees writes a prefix of the whole listing. */
  lemma {:induction false} ListingPrefix<T>(trees: seq<T>, render: T -> seq<string>, k: nat)
    requires k <= |trees|
    ensures Listing(trees[..k], render) <= Listing(trees, render)
    decreases |trees| - k
  {
    if k < |trees| {
      ListingPrefix(trees, render, k + 1);
      assert trees[..k + 1][..k] == trees[..k];
    } else {
      assert trees[..k] == trees;
    }
  }

  class RandomForestClassifier<Obs, L(==), T> {
    var y: seq<L>
    var x: Frame<Obs>
    var minSamplesSplit: int
    var maxDepth: int
    var features: seq<string>
    var nFeatures: nat
    var nTrees: int
    var xFeaturesFraction: real
    var xObsFraction: real
    var optiArray: Option<map<string, seq<real>>>
    /** None until `grow_random_forest` has set the attribute. */
    var randomForest: Option<seq<T>>

    /** A grown forest has one tree per iteration of `range(n_trees)`. */
    predicate Valid()
      reads this
    {
      randomForest.Some? ==> |randomForest.value| == RangeLength(nTrees)
    }

    function Source(): SampleSource<Obs, L>
      reads this
    {
      SampleSource(x, y, xObsFraction)
    }

    function Params(): TreeParams
      reads this
    {
      TreeParams(minSamplesSplit, maxDepth, xFeaturesFraction, optiArray)
    }

    /** The trees' predictions for `xs`, one list per tree. */
    function Predictions(xs: Frame<Obs>, treePredict: (T, Frame<Obs>) -> seq<L>): (p: seq<seq<L>>)
      reads this
      ensures randomForest.None? ==> p == []
      ensures randomForest.Some? ==> |p| == |randomForest.value|
                                     && forall i :: 0 <= i < |p| ==> p[i] == treePredict(randomForest.value[i], xs)
    {
      var trees := if randomForest.Some? then randomForest.value else [];
      seq(|trees|, i requires 0 <= i < |trees| => treePredict(trees[i], xs))
    }

    /** `__init__`: falsy limits get 20 and 5; missing counts and fractions get 30 and 1.0. */
    constructor (y: seq<L>, x: Frame<Obs>, minSamplesSplit: Option<int>, maxDepth: Option<int>,
                 nTrees: Option<int>, xFeaturesFraction: Option<real>, xObsFraction: Option<real>,
                 optiArray: Option<map<string, seq<real>>>)
      ensures this.y == y && this.x == x && this.optiArray == optiArray
      ensures this.minSamplesSplit == (if Truthy(minSamplesSplit) then minSamplesSplit.value else 20)
      ensures this.maxDepth == (if Truthy(maxDepth) then maxDepth.value else 5)
      ensures this.features == x.columns && this.nFeatures == |x.columns|
      ensures this.nTrees == (if nTrees.Some? then nTrees.value else 30)
      ensures this.xFeaturesFraction == (if xFeaturesFraction.Some? then xFeaturesFraction.value else 1.0)
      ensures this.xObsFraction == (if xObsFraction.Some? then xObsFraction.value else 1.0)
      ensures this.randomForest.None? && Valid()
    {
      this.y := y;
      this.x := x;
      this.minSamplesSplit := OrIfFalsy(minSamplesSplit, 20);
      this.maxDepth := OrIfFalsy(maxDepth, 5);
      this.features := x.columns;
      this.nFeatures := |x.columns|;
      this.nTrees := OrIfNone(nTrees, 30);
      this.xFeaturesFraction := OrIfNone(xFeaturesFraction, 1.0);
      this.xObsFraction := OrIfNone(xObsFraction, 1.0);
      this.optiArray := optiArray;
      this.randomForest := None;
    }

    /**
     * `grow_random_forest`: tree `i` is the one grown with the instance's
     * tree parameters on the `i`-th bootstrap sample drawn from its data.
     */
    method GrowRandomForest(grow: (SampleSource<Obs, L>, TreeParams, nat) -> T)
      modifies this`randomForest
      ensures randomForest.Some? && |randomForest.value| == RangeLength(nTrees)
      ensures forall i :: 0 <= i < RangeLength(nTrees) ==> randomForest.value[i] == grow(Source(), Params(), i)
      ensures Valid()
    {
      var forest := [];
      var i := 0;
      while i < nTrees
        invariant 0 <= i <= RangeLength(nTrees)
        invariant |forest| == i
        invariant forall j :: 0 <= j < i ==> forest[j] == grow(Source(), Params(), j)
      {
        var tree := grow(SampleSource(x, y, xObsFraction),
                         TreeParams(minSamplesSplit, maxDepth, xFeaturesFraction, optiArray), i);
        forest := forest + [tree];
        i := i + 1;
      }
      randomForest := Some(forest);
    }

    /**
     * `print_trees`: the block of every tree, trees 0 to n_trees - 1 in
     * order. `out` is everything printed, also when the missing attribute
     * raises after the first tree's two header lines.
     */
    method PrintTrees(render: T -> seq<string>) returns (out: seq<string>, err: Option<PyError>)
      requires Valid()
      ensures err.Some? <==> randomForest.None? && nTrees > 0
      ensures err.Some? ==> err.value == AttributeError && out == ["------ \n", "Tree number: 1 \n"]
      ensures err.None? && randomForest.Some? ==> out == Listing(randomForest.value, render)
      ensures err.None? && randomForest.None? ==> out == []
    {
      out := [];
      var i := 0;
      while i < nTrees
        invariant 0 <= i <= RangeLength(nTrees)
        invariant randomForest.Some? ==> out == Listing(randomForest.value[..i], render)
        invariant randomForest.None? ==> i == 0 && out == []
      {
        out := out + ["------ \n", "Tree number: " + Decimal(i + 1) + " \n"];
        if randomForest.None? {
          assert Decimal(i + 1) == "1";
          assert "Tree number: " + "1" + " \n" == "Tree number: 1 \n";
          return out, Some(AttributeError);
        }
        var trees := randomForest.value;
        assert trees[..i + 1][..i] == trees[..i];
        out := out + render(trees[i]) + ["------ \n"];
        i := i + 1;
      }
      if randomForest.Some? {
        assert randomForest.value[..i] == randomForest.value;
      }
      err := None;
    }

    /** `tree_predictions`: list `i` is what tree `i` predicts for `xs`. */
    method TreePredictions(xs: Frame<Obs>, treePredict: (T, Frame<Obs>) -> seq<L>)
      returns (r: Result<seq<seq<L>>, PyError>)
      requires Valid()
      ensures r.Failure? <==> randomForest.None? && nTrees > 0
      ensures r.Failure? ==> r.error == AttributeError
      ensures r.Success? ==> |r.value| == RangeLength(nTrees) && r.value == Predictions(xs, treePredict)
    {
      var predictions := [];
      var i := 0;
      while i < nTrees
        invariant 0 <= i <= RangeLength(nTrees)
        invariant randomForest.None? ==> i == 0
        invariant |predictions| == i
        invariant forall j :: 0 <= j < i ==> predictions[j] == treePredict(randomForest.value[j], xs)
      {
        if randomForest.None? {
          return Failure(AttributeError);
        }
        predictions := predictions + [treePredict(randomForest.value[i], xs)];
        i := i + 1;
      }
      r := Success(predictions);
    }

    /**
     * `predict`: one label per row of `xs`, label `i` being the majority vote
     * of the trees' `i`-th predictions. Raises IndexError when a tree
     * predicted fewer rows, or when there are rows but no trees.
     */
    method Predict(xs: Frame<Obs>, treePredict: (T, Frame<Obs>) -> seq<L>)
      returns (r: Result<seq<L>, PyError>)
      requires Valid()
      ensures randomForest.None? && nTrees > 0 ==> r == Failure(AttributeError)
      ensures !(randomForest.None? && nTrees > 0) ==>
                var yhat := Predictions(xs, treePredict);
                && (r.Success? <==> VotesCover(yhat, |xs.rows|))
                && (r.Failure? ==> r.error == IndexError)
                && (r.Success? ==> r.value == Majority(yhat, |xs.rows|))
                && (r.Success? ==> forall i :: 0 <= i < |xs.rows| ==> IsMostCommon(Column(yhat, i), r.value[i]))
    {
      var predictions := TreePredictions(xs, treePredict);
      if predictions.Failure? {
        return Failure(predictions.error);
      }
      if VotesCover(predictions.value, |xs.rows|) {
        MajorityIsMostCommon(predictions.value, |xs.rows|);
      }
      r := Vote(predictions.value, |xs.rows|);
    }
  }
}
