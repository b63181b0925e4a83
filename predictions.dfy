/** The default app's real-time prediction list: classifier categories become display
    items named after the user's classes, flagged when they carry the top score, and
    ordered by confidence, highest first. Scores are taken as exact reals. */
module Predictions {
  import opened TrainingClasses

  /** A classifier output: label "1".."5" and its score. */
  datatype Category = Category(categoryLabel: string, score: real)

  datatype PredictionItem = PredictionItem(className: string, confidence: real, isTopPrediction: bool)

  /** The largest score of a non-empty list. */
  function MaxOf(cats: seq<Category>): (m: real)
    requires cats != []
    ensures forall i :: 0 <= i < |cats| ==> cats[i].score <= m
    ensures exists i :: 0 <= i < |cats| && cats[i].score == m
  {
    if |cats| == 1 then cats[0].score
    else
      var rest := MaxOf(cats[1..]);
      assert forall i :: 1 <= i < |cats| ==> cats[i] == cats[1..][i - 1];
      if cats[0].score >= rest then cats[0].score else rest
  }

  /** maxOfOrNull of the scores, or 0 for no categories. */
  function MaxScore(cats: seq<Category>): real
  {
    if cats == [] then 0.0 else MaxOf(cats)
  }

  /** The shown name for a label: the name of the first class whose label it is, or the
      label itself. */
  function DisplayName(classes: seq<TrainingClass>, classLabel: string): (r: string)
    reads classes
    ensures r == classLabel
         || exists i :: 0 <= i < |classes| && classes[i].GetClassLabel() == classLabel && r == classes[i].name
  {
    if classes == [] then classLabel
    else if classes[0].GetClassLabel() == classLabel then classes[0].name
    else
      var r := DisplayName(classes[1..], classLabel);
      assert forall i :: 0 <= i < |classes| - 1 ==> classes[1..][i] == classes[i + 1];
      r
  }

  /** With no class carrying the label, the label itself is shown. */
  lemma {:induction false} DisplayNameWithoutMatch(classes: seq<TrainingClass>, classLabel: string)
    requires forall i :: 0 <= i < |classes| ==> classes[i].GetClassLabel() != classLabel
    ensures DisplayName(classes, classLabel) == classLabel
  {
    if classes != [] {
      assert forall i :: 0 <= i < |classes| - 1 ==> classes[1..][i] == classes[i + 1];
      DisplayNameWithoutMatch(classes[1..], classLabel);
    }
  }

  /** DisplayName is the find-first of the source: the name of the first class carrying
      the label. */
  lemma {:induction false} DisplayNameIsFirstMatch(classes: seq<TrainingClass>, classLabel: string, k: nat)
    requires k < |classes| && classes[k].GetClassLabel() == classLabel
    requires forall i :: 0 <= i < k ==> classes[i].GetClassLabel() != classLabel
    ensures DisplayName(classes, classLabel) == classes[k].name
  {
    if k > 0 {
      assert forall i :: 0 <= i < k - 1 ==> classes[1..][i] == classes[i + 1];
      assert classes[1..][k - 1] == classes[k];
      DisplayNameIsFirstMatch(classes[1..], classLabel, k - 1);
    }
  }

  /** The item for one category, given the top score. */
  function ItemFor(classes: seq<TrainingClass>, maxConfidence: real, c: Category): PredictionItem
    reads classes
  {
    PredictionItem(DisplayName(classes, c.categoryLabel), c.score, c.score == maxConfidence)
  }

  /** The mapping step: one item per category, in input order. */
  function Items(classes: seq<TrainingClass>, maxConfidence: real, cats: seq<Category>): (r: seq<PredictionItem>)
    reads classes
    ensures |r| == |cats|
    ensures forall i :: 0 <= i < |cats| ==> r[i] == ItemFor(classes, maxConfidence, cats[i])
  {
    if cats == [] then [] else [ItemFor(classes, maxConfidence, cats[0])] + Items(classes, maxConfidence, cats[1..])
  }

  predicate SortedByConfidenceDesc(s: seq<PredictionItem>)
  {
    forall i, j :: 0 <= i < j < |s| ==> s[i].confidence >= s[j].confidence
  }

  /** Places x after every item of s whose confidence is at least x's, so equal items keep
      their order. */
  function InsertByConfidence(x: PredictionItem, s: seq<PredictionItem>): (r: seq<PredictionItem>)
    ensures multiset(r) == multiset(s) + multiset{x}
  {
    if s == [] then [x]
    else if s[0].confidence >= x.confidence then
      assert s == [s[0]] + s[1..];
      [s[0]] + InsertByConfidence(x, s[1..])
    else [x] + s
  }

  lemma {:induction false} InsertKeepsSorted(x: PredictionItem, s: seq<PredictionItem>)
    requires SortedByConfidenceDesc(s)
    ensures SortedByConfidenceDesc(InsertByConfidence(x, s))
  {
    if s != [] && s[0].confidence >= x.confidence {
      InsertKeepsSorted(x, s[1..]);
      var r := InsertByConfidence(x, s[1..]);
      forall y | y in r
        ensures s[0].confidence >= y.confidence
      {
        assert y in multiset(r);
        if y in s[1..] {
          var k :| 0 <= k < |s[1..]| && s[1..][k] == y;
          assert s[k + 1] == y;
        }
      }
      SortedConsItem(s[0], r);
    }
  }

  /** An item at least as confident as every item of a sorted list can go in front. */
  lemma SortedConsItem(x: PredictionItem, rest: seq<PredictionItem>)
    requires SortedByConfidenceDesc(rest)
    requires forall y | y in rest :: x.confidence >= y.confidence
    ensures SortedByConfidenceDesc([x] + rest)
  {
    var r := [x] + rest;
    forall i, j | 0 <= i < j < |r| ensures r[i].confidence >= r[j].confidence {
      if i == 0 {
        assert r[j] == rest[j - 1] && r[j] in rest;
      } else {
        assert r[i] == rest[i - 1] && r[j] == rest[j - 1];
      }
    }
  }

  /** sortedByDescending { it.confidence }: a stable sort, highest confidence first. The
      result is a permutation of the input, in descending order of confidence. */
  function SortByConfidenceDesc(s: seq<PredictionItem>): (r: seq<PredictionItem>)
    ensures multiset(r) == multiset(s)
    ensures SortedByConfidenceDesc(r)
  {
    if s == [] then []
    else
      var init, last := s[..|s| - 1], s[|s| - 1];
      var sorted := SortByConfidenceDesc(init);
      InsertKeepsSorted(last, sorted);
      assert s == init + [last];
      InsertByConfidence(last, sorted)
  }

  /** convertToPredictionItems. */
  function ConvertToPredictionItems(classes: seq<TrainingClass>, categories: seq<Category>): (r: seq<PredictionItem>)
    reads classes
    ensures |r| == |categories|
    ensures multiset(r) == multiset(Items(classes, MaxScore(categories), categories))
    ensures SortedByConfidenceDesc(r)
  {
    var items := Items(classes, MaxScore(categories), categories);
    var r := SortByConfidenceDesc(items);
    assert |r| == |multiset(r)| == |items|;
    r
  }

  /** Every output item comes from one category: its name is that category's display name,
      its confidence the category's score, and it is flagged top exactly when that score is
      the largest. No score exceeds a top item's confidence. */
  lemma PredictionItemsMeaning(classes: seq<TrainingClass>, categories: seq<Category>)
    ensures forall j :: 0 <= j < |ConvertToPredictionItems(classes, categories)| ==>
      var item := ConvertToPredictionItems(classes, categories)[j];
      && (exists i :: (0 <= i < |categories| && item.className == DisplayName(classes, categories[i].categoryLabel)
                       && item.confidence == categories[i].score))
      && (item.isTopPrediction <==> item.confidence == MaxScore(categories))
      && (item.isTopPrediction ==> forall i :: 0 <= i < |categories| ==> categories[i].score <= item.confidence)
  {
    var r := ConvertToPredictionItems(classes, categories);
    var items := Items(classes, MaxScore(categories), categories);
    forall j | 0 <= j < |r|
      ensures exists i :: 0 <= i < |categories| && r[j] == ItemFor(classes, MaxScore(categories), categories[i])
    {
      assert r[j] in multiset(items);
      var i :| 0 <= i < |items| && items[i] == r[j];
    }
  }

  /** At least one item is flagged top when there is any category; none is produced for
      none. */
  lemma TopPredictionExists(classes: seq<TrainingClass>, categories: seq<Category>)
    ensures categories == [] ==> ConvertToPredictionItems(classes, categories) == []
    ensures categories != [] ==>
      exists j :: 0 <= j < |ConvertToPredictionItems(classes, categories)| && ConvertToPredictionItems(classes, categories)[j].isTopPrediction
  {
    var r := ConvertToPredictionItems(classes, categories);
    if categories != [] {
      var m := MaxScore(categories);
      var items := Items(classes, m, categories);
      var i :| 0 <= i < |categories| && categories[i].score == m;
      assert items[i].isTopPrediction;
      assert items[i] in multiset(r);
      var j :| 0 <= j < |r| && r[j] == items[i];
    }
  }
}
