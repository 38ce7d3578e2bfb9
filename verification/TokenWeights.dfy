/** Weighting tokens by rarity, and scoring two markets' wording by the weight they share. */
module TokenWeights {
  import opened Numbers
  import opened Wrappers
  import opened TokenIndex

  // ---- Inverse document frequency ------------------------------------------------------------

  type Frequencies = map<string, nat>

  /** How often a token has been counted: once for each finished document, and maybe once for the next. */
  predicate CountedAt(frequencies: Frequencies, t: string, documents: seq<Entry>, done: set<string>) {
    var full := |Containing(documents, t)| + if t in done then 1 else 0;
    (t in frequencies <==> full > 0) && Get(frequencies, t, 0) == full
  }

  ghost predicate Counted(frequencies: Frequencies, documents: seq<Entry>, done: set<string>) {
    forall t :: CountedAt(frequencies, t, documents, done)
  }

  lemma CountOne(frequencies: Frequencies, documents: seq<Entry>, done: set<string>, token: string)
    requires Counted(frequencies, documents, done) && token !in done
    ensures Counted(frequencies[token := Get(frequencies, token, 0) + 1], documents, done + {token})
  {
    var after := frequencies[token := Get(frequencies, token, 0) + 1];
    var more := done + {token};
    forall t
      ensures CountedAt(after, t, documents, more)
    {
      assert CountedAt(frequencies, t, documents, done);
    }
  }

  lemma DocumentDone(frequencies: Frequencies, documents: seq<Entry>, document: Entry, done: set<string>)
    requires Counted(frequencies, documents, done) && forall t :: t in done <==> t in document.tokens
    ensures Counted(frequencies, documents + [document], {})
  {
    assert (documents + [document])[..|documents|] == documents;
    forall t
      ensures CountedAt(frequencies, t, documents + [document], {})
    {
      assert CountedAt(frequencies, t, documents, done);
    }
  }

  method CountTokens(frequencies: Frequencies, ghost documents: seq<Entry>,
                     document: Entry) returns (after: Frequencies)
    requires Counted(frequencies, documents, {})
    ensures Counted(after, documents + [document], {})
  {
    after := frequencies;
    var left := set t | t in document.tokens;
    ghost var all := left;
    ghost var done: set<string> := {};
    while left != {}
      invariant done + left == all && done !! left
      invariant Counted(after, documents, done)
      decreases |left|
    {
      var token :| token in left;
      CountOne(after, documents, done, token);
      after := after[token := Get(after, token, 0) + 1];
      left, done := left - {token}, done + {token};
    }
    DocumentDone(after, documents, document, all);
  }

  /** The weight of a token contained in `count` of `total` documents; `log` is any function of a real. */
  function Rarity(log: real -> real, total: nat, count: nat): real {
    RMax(0.0, log(total as real / (1 + count) as real))
  }

  /** What the weights must be: every token seen, weighted by how many documents contain it. */
  ghost predicate WeighsByRarity(weights: Weights, documents: seq<Entry>, log: real -> real) {
    && weights.Keys == AllTokens(documents)
    && forall t | t in weights :: weights[t] == Rarity(log, |documents|, |Containing(documents, t)|)
  }

  lemma CountsAreComplete(frequencies: Frequencies, documents: seq<Entry>)
    requires Counted(frequencies, documents, {})
    ensures frequencies.Keys == AllTokens(documents)
    ensures forall t | t in frequencies :: frequencies[t] == |Containing(documents, t)|
  {
    forall t
      ensures t in frequencies <==> t in AllTokens(documents)
      ensures t in frequencies ==> frequencies[t] == |Containing(documents, t)|
    {
      assert CountedAt(frequencies, t, documents, {});
      InAllTokens(documents, t);
    }
  }

  method InverseDocumentFrequency(documents: seq<Entry>, log: real -> real) returns (weights: Weights)
    ensures WeighsByRarity(weights, documents, log)
  {
    var frequencies: Frequencies := map[];
    ghost var before: seq<Entry> := [];
    for i := 0 to |documents|
      invariant before == documents[..i]
      invariant Counted(frequencies, before, {})
    {
      frequencies := CountTokens(frequencies, before, documents[i]);
      before := before + [documents[i]];
    }
    assert before == documents;
    CountsAreComplete(frequencies, documents);
    if |documents| == 0 {
      return map[];
    }
    weights := map t | t in frequencies :: Rarity(log, |documents|, frequencies[t]);
  }

  ghost predicate Increasing(log: real -> real) { forall x, y | 0.0 < x <= y :: log(x) <= log(y) }

  lemma FewerDocumentsLargerRatio(total: real, few: real, many: real)
    requires total >= 0.0 && 0.0 < few <= many
    ensures total / few >= total / many
  {
    var ratio := total / many;
    assert ratio * few <= ratio * many == total;
    assert (ratio * few) / few == ratio;
    assert total / few - (ratio * few) / few == (total - ratio * few) / few;
  }

  /** The rarer of two tokens weighs at least as much, and no weight is negative. */
  lemma RarerIsHeavier(weights: Weights, documents: seq<Entry>, log: real -> real, rare: string, common: string)
    requires WeighsByRarity(weights, documents, log) && Increasing(log) && documents != []
    requires rare in weights && common in weights
    requires |Containing(documents, rare)| <= |Containing(documents, common)|
    ensures weights[rare] >= weights[common] >= 0.0
  {
    var few := (1 + |Containing(documents, rare)|) as real;
    var many := (1 + |Containing(documents, common)|) as real;
    FewerDocumentsLargerRatio(|documents| as real, few, many);
    PositiveRatio(|documents| as real, many);
  }

  lemma PositiveRatio(total: real, many: real)
    requires total > 0.0 && many > 0.0
    ensures total / many > 0.0
  {
  }

  ghost predicate StrictlyIncreasing(log: real -> real) { forall x, y | 0.0 < x < y :: log(x) < log(y) }

  lemma RatioAboveOne(total: real, part: real)
    requires part > 0.0
    ensures total / part > 1.0 <==> total > part
  {
    assert (total / part) * part == total;
  }

  /** A token weighs nothing exactly when at most one document is without it. */
  lemma WeighsNothingExactlyWhen(weights: Weights, documents: seq<Entry>, log: real -> real, token: string)
    requires WeighsByRarity(weights, documents, log) && token in weights
    requires StrictlyIncreasing(log) && log(1.0) == 0.0
    ensures weights[token] == 0.0 <==> |documents| <= |Containing(documents, token)| + 1
  {
    var total, part := |documents| as real, (1 + |Containing(documents, token)|) as real;
    InAllTokens(documents, token);
    assert |documents| > 0;
    RatioAboveOne(total, part);
    PositiveRatio(total, part);
    assert total / part > 1.0 ==> log(total / part) > 0.0;
    assert 0.0 < total / part < 1.0 ==> log(total / part) < 0.0;
  }

  // ---- Weighted overlap ----------------------------------------------------------------------

  function Total(tokens: seq<string>, weights: Weights): real {
    if tokens == [] then 0.0 else Total(tokens[..|tokens| - 1], weights) + WeightOf(weights, tokens[|tokens| - 1])
  }

  /** The tokens of `tokens` that both sides have. */
  function Shared(tokens: seq<string>, left: seq<string>, right: seq<string>): seq<string> {
    if tokens == [] then []
    else
      var rest := Shared(tokens[..|tokens| - 1], left, right);
      var last := tokens[|tokens| - 1];
      if last in left && last in right then rest + [last] else rest
  }

  /** Weighted Jaccard similarity, falling back to the plain one when nothing weighs anything. */
  function Overlap(left: seq<string>, right: seq<string>, weights: Weights): real {
    if left == [] || right == [] then 0.0
    else
      var union := Distinct(left + right);
      var shared := Shared(union, left, right);
      if Total(union, weights) <= 0.0 then
        if |union| == 0 then 0.0 else |shared| as real / |union| as real
      else Total(shared, weights) / Total(union, weights)
  }

  predicate NonNegative(weights: Weights) { forall t | t in weights :: weights[t] >= 0.0 }

  lemma {:induction false} SharedWeighsLess(tokens: seq<string>, left: seq<string>, right: seq<string>,
                                            weights: Weights)
    requires NonNegative(weights)
    ensures 0.0 <= Total(Shared(tokens, left, right), weights) <= Total(tokens, weights)
    ensures |Shared(tokens, left, right)| <= |tokens|
  {
    if tokens != [] {
      var rest := Shared(tokens[..|tokens| - 1], left, right);
      SharedWeighsLess(tokens[..|tokens| - 1], left, right, weights);
      assert (rest + [tokens[|tokens| - 1]])[..|rest|] == rest;
    }
  }

  lemma UnionIsNotEmpty(left: seq<string>, right: seq<string>)
    requires left != []
    ensures Distinct(left + right) != []
  {
    DistinctIs(left + right);
    assert (left + right)[0] in left + right;
  }

  lemma RatioInUnit(part: real, whole: real)
    requires 0.0 <= part <= whole && whole > 0.0
    ensures 0.0 <= part / whole <= 1.0 && (part == whole ==> part / whole == 1.0)
    ensures part < whole ==> part / whole < 1.0
  {
    assert (part / whole) * whole == part;
  }

  /** A similarity is between nought and one. */
  lemma OverlapInUnit(left: seq<string>, right: seq<string>, weights: Weights)
    requires NonNegative(weights)
    ensures 0.0 <= Overlap(left, right, weights) <= 1.0
  {
    if left != [] && right != [] {
      var union := Distinct(left + right);
      var shared := Shared(union, left, right);
      UnionIsNotEmpty(left, right);
      SharedWeighsLess(union, left, right, weights);
      if Total(union, weights) <= 0.0 {
        RatioInUnit(|shared| as real, |union| as real);
      } else {
        RatioInUnit(Total(shared, weights), Total(union, weights));
      }
    }
  }

  lemma {:induction false} AllShared(tokens: seq<string>, left: seq<string>, right: seq<string>)
    requires forall t | t in tokens :: t in left && t in right
    ensures Shared(tokens, left, right) == tokens
  {
    if tokens != [] {
      assert tokens[|tokens| - 1] in tokens;
      AllShared(tokens[..|tokens| - 1], left, right);
      assert tokens == tokens[..|tokens| - 1] + [tokens[|tokens| - 1]];
    }
  }

  lemma {:induction false} SomeUnshared(tokens: seq<string>, left: seq<string>, right: seq<string>, weights: Weights,
                                        odd: string)
    requires NonNegative(weights) && odd in tokens && !(odd in left && odd in right)
    ensures Total(Shared(tokens, left, right), weights) + WeightOf(weights, odd) <= Total(tokens, weights)
    ensures |Shared(tokens, left, right)| < |tokens|
  {
    var n := |tokens| - 1;
    var rest := Shared(tokens[..n], left, right);
    assert (rest + [tokens[n]])[..|rest|] == rest;
    if odd == tokens[n] {
      SharedWeighsLess(tokens[..n], left, right, weights);
    } else {
      assert odd in tokens[..n];
      SomeUnshared(tokens[..n], left, right, weights, odd);
    }
  }

  lemma BothSidesHaveAll(left: seq<string>, right: seq<string>, union: seq<string>)
    requires forall t :: t in left <==> t in right
    requires forall t | t in union :: t in left + right
    ensures Shared(union, left, right) == union
  {
    AllShared(union, left, right);
  }

  /** Markets with the same wording score one. */
  lemma SameWordingScoresOne(left: seq<string>, right: seq<string>, weights: Weights)
    requires NonNegative(weights) && left != [] && right != []
    requires forall t :: t in left <==> t in right
    ensures Overlap(left, right, weights) == 1.0
  {
    var union := Distinct(left + right);
    DistinctIs(left + right);
    UnionIsNotEmpty(left, right);
    BothSidesHaveAll(left, right, union);
    if Total(union, weights) > 0.0 {
      RatioInUnit(Total(union, weights), Total(union, weights));
    } else {
      RatioInUnit(|union| as real, |union| as real);
    }
  }

  /** A token of positive weight that only one market has keeps them from scoring one. */
  lemma OddTokenCosts(left: seq<string>, right: seq<string>, weights: Weights, odd: string)
    requires NonNegative(weights) && WeightOf(weights, odd) > 0.0
    requires odd in left + right && !(odd in left && odd in right)
    ensures Overlap(left, right, weights) < 1.0
  {
    if left != [] && right != [] {
      var union := Distinct(left + right);
      DistinctIs(left + right);
      SomeUnshared(union, left, right, weights, odd);
      SharedWeighsLess(union, left, right, weights);
      RatioInUnit(Total(Shared(union, left, right), weights), Total(union, weights));
    }
  }

  // ---- The plain similarity ------------------------------------------------------------------

  function Words(tokens: seq<string>): set<string> { set t | t in tokens }

  lemma {:induction false} EqualTotal(tokens: seq<string>, weights: Weights, w: real)
    requires forall t | t in tokens :: WeightOf(weights, t) == w
    ensures Total(tokens, weights) == Times(|tokens| as real, w)
  {
    if tokens != [] {
      var n := |tokens| - 1;
      assert tokens[n] in tokens && forall t | t in tokens[..n] :: t in tokens;
      EqualTotal(tokens[..n], weights, w);
      assert Times(n as real + 1.0, w) == Times(n as real, w) + w;
    }
  }

  predicate AllDifferent(tokens: seq<string>) { forall i, j | 0 <= i < j < |tokens| :: tokens[i] != tokens[j] }

  lemma {:induction false} WordCount(tokens: seq<string>)
    requires AllDifferent(tokens)
    ensures |Words(tokens)| == |tokens|
  {
    if tokens == [] {
      assert Words(tokens) == {};
    } else {
      var n := |tokens| - 1;
      WordCount(tokens[..n]);
      OneMoreWord(tokens);
    }
  }

  lemma OneMoreWord(tokens: seq<string>)
    requires AllDifferent(tokens) && tokens != []
    ensures var n := |tokens| - 1; tokens[n] !in Words(tokens[..n]) && Words(tokens) == Words(tokens[..n]) + {tokens[n]}
  {
    assert tokens == tokens[..|tokens| - 1] + [tokens[|tokens| - 1]];
  }

  lemma {:induction false} SharedCount(tokens: seq<string>, left: seq<string>, right: seq<string>)
    requires AllDifferent(tokens)
    ensures |Shared(tokens, left, right)| == |Words(tokens) * Words(left) * Words(right)|
  {
    if tokens == [] {
      assert Words(tokens) * Words(left) * Words(right) == {};
    } else {
      var n := |tokens| - 1;
      SharedCount(tokens[..n], left, right);
      OneMoreWord(tokens);
      OneMoreCommon(Words(tokens[..n]), tokens[n], Words(left), Words(right));
    }
  }

  lemma {:induction false} SharedAreTokens(tokens: seq<string>, left: seq<string>, right: seq<string>)
    ensures forall t | t in Shared(tokens, left, right) :: t in tokens
  {
    if tokens != [] {
      SharedAreTokens(tokens[..|tokens| - 1], left, right);
    }
  }

  lemma OneMoreCommon(words: set<string>, word: string, left: set<string>, right: set<string>)
    requires word !in words
    ensures |(words + {word}) * left * right|
            == |words * left * right| + if word in left && word in right then 1 else 0
  {
    var more := if word in left && word in right then {word} else {};
    assert (words + {word}) * left * right == words * left * right + more;
  }

  lemma SameRatio(part: real, whole: real, w: real)
    requires whole > 0.0 && w > 0.0
    ensures Times(whole, w) > 0.0 && Times(part, w) / Times(whole, w) == part / whole
  {
    var ratio := part / whole;
    assert part == ratio * whole;
    assert Times(part, w) == ratio * Times(whole, w);
    assert (ratio * Times(whole, w)) / Times(whole, w) == ratio;
  }

  lemma UnionAndShared(left: seq<string>, right: seq<string>)
    ensures var union := Distinct(left + right);
            && |union| == |Words(left) + Words(right)|
            && |Shared(union, left, right)| == |Words(left) * Words(right)|
            && (forall t | t in union :: t in left + right)
            && (forall t | t in Shared(union, left, right) :: t in union)
  {
    var union := Distinct(left + right);
    DistinctIs(left + right);
    WordCount(union);
    SharedCount(union, left, right);
    SharedAreTokens(union, left, right);
    assert Words(union) == Words(left) + Words(right);
    assert Words(union) * Words(left) * Words(right) == Words(left) * Words(right);
  }

  /** The similarity when every word of either market weighs the same, given how many words there are and are shared. */
  lemma EqualWeights(left: seq<string>, right: seq<string>, weights: Weights, w: real, union: seq<string>,
                     shared: seq<string>)
    requires left != [] && right != [] && w >= 0.0
    requires union == Distinct(left + right) && shared == Shared(union, left, right) && union != []
    requires forall t | t in union :: WeightOf(weights, t) == w
    requires forall t | t in shared :: WeightOf(weights, t) == w
    ensures Overlap(left, right, weights) == |shared| as real / |union| as real
  {
    EqualTotal(union, weights, w);
    EqualTotal(shared, weights, w);
    EqualRatio(|shared| as real, |union| as real, w, Total(shared, weights), Total(union, weights));
  }

  lemma EqualRatio(part: real, whole: real, w: real, weightOfPart: real, weightOfWhole: real)
    requires whole > 0.0 && w >= 0.0 && weightOfPart == Times(part, w) && weightOfWhole == Times(whole, w)
    ensures (if weightOfWhole <= 0.0 then part / whole else weightOfPart / weightOfWhole) == part / whole
  {
    if w > 0.0 {
      SameRatio(part, whole, w);
    }
  }

  /**
   When every word weighs the same, be it nothing, the similarity is the share of the words of either market that both
   have.
   */
  lemma EqualWeightsArePlain(left: seq<string>, right: seq<string>, weights: Weights, w: real)
    requires left != [] && right != [] && w >= 0.0
    requires forall t | t in left + right :: WeightOf(weights, t) == w
    ensures |Words(left) + Words(right)| > 0
    ensures Overlap(left, right, weights)
            == |Words(left) * Words(right)| as real / |Words(left) + Words(right)| as real
  {
    var union := Distinct(left + right);
    UnionIsNotEmpty(left, right);
    UnionAndShared(left, right);
    EqualWeights(left, right, weights, w, union, Shared(union, left, right));
  }

  /** A word without a weight counts like one of weight one. */
  lemma UnweightedWordsCountOne(left: seq<string>, right: seq<string>, weights: Weights)
    requires left != [] && right != []
    requires forall t | t in left + right && t in weights :: weights[t] == 1.0
    ensures |Words(left) + Words(right)| > 0
    ensures Overlap(left, right, weights)
            == |Words(left) * Words(right)| as real / |Words(left) + Words(right)| as real
  {
    EqualWeightsArePlain(left, right, weights, 1.0);
  }

  /** Markets with no word in common score nothing, and so does one without words. */
  lemma NothingInCommon(left: seq<string>, right: seq<string>, weights: Weights)
    requires Words(left) !! Words(right)
    ensures Overlap(left, right, weights) == 0.0
  {
    if left != [] && right != [] {
      var union := Distinct(left + right);
      UnionIsNotEmpty(left, right);
      NoneShared(union, left, right);
    }
  }

  lemma {:induction false} NoneShared(tokens: seq<string>, left: seq<string>, right: seq<string>)
    requires Words(left) !! Words(right)
    ensures Shared(tokens, left, right) == []
  {
    if tokens != [] {
      var last := tokens[|tokens| - 1];
      assert !(last in Words(left) && last in Words(right));
      NoneShared(tokens[..|tokens| - 1], left, right);
    }
  }
}
