/**
 * The data preparation behind the dashboard's cards and charts: counts per
 * category, the fixed display orders, the rating histogram, the purpose
 * ranking and the integer sums behind the averages. Rendering is not
 * modelled.
 */
module Charts {
  import opened JsBuiltins
  import opened DataTransform
  import opened Tally
  import opened StableSort
  import SheetsRoute

  /** Every record's five scores lie in 0..4, as every record the row parser produces does. */
  predicate AllScored(data: seq<SurveyRow>) {
    forall i :: 0 <= i < |data| ==> ScoresInRange(data[i].satisfaction)
  }

  /** The endpoint only ever hands the charts scored records. */
  lemma ParsedRowsAreScored(rows: seq<seq<string>>, headers: seq<string>)
    ensures AllScored(SheetsRoute.ParsedRows(rows, headers))
  {
    var f := SheetsRoute.Parser(headers);
    var p := (x: SurveyRow) => ScoresInRange(x.satisfaction);
    SheetsRoute.CollectKeeps(f, rows, p);
  }

  // ----- SummaryCards -----

  /**
   * A rating as the page receives it. The endpoint sends the records as
   * JSON, which writes NaN as `null`, and `sum + null` adds 0.
   */
  function ClientRating(r: Num): (v: int)
    ensures r.Int? ==> v == r.value
    ensures r.NaN? ==> v == 0
  {
    if r.Int? then r.value else 0
  }

  /**
   * A rating the form can give (1 to 5 stars), one that did not parse, or
   * the parser's 0 for an empty rating cell: the last two add nothing.
   */
  predicate StarOrNone(r: Num) {
    IsStar(r) || r.NaN? || r == Int(0)
  }

  /**
   * `data.reduce((sum, row) => sum + row.rating, 0)` on the records as the
   * page receives them: the total of the parsed ratings, where a rating that
   * did not parse adds nothing but still counts in `total`.
   */
  function RatingSum(data: seq<SurveyRow>): (r: int)
    ensures (forall i :: 0 <= i < |data| ==> data[i].rating.NaN?) ==> r == 0
  {
    if data == [] then 0
    else
      var n := |data| - 1;
      assert forall i :: 0 <= i < n ==> data[..n][i] == data[i];
      RatingSum(data[..n]) + ClientRating(data[n].rating)
  }

  /** When every rating is a star, unparsed or the empty-cell 0, each star adds between 1 and 5 to the total. */
  lemma {:induction false} RatingSumBounds(data: seq<SurveyRow>)
    ensures (forall i :: 0 <= i < |data| ==> StarOrNone(data[i].rating)) ==>
      StarCount(Ratings(data)) <= RatingSum(data) <= 5 * StarCount(Ratings(data))
  {
    if data != [] {
      var n := |data| - 1;
      assert forall i :: 0 <= i < n ==> data[..n][i] == data[i];
      RatingSumBounds(data[..n]);
      assert Ratings(data)[..n] == Ratings(data[..n]);
    }
  }

  /** The star total of some ratings: 1 for each 1-star rating, 2 for each 2-star, and so on. */
  function Weighted(m: multiset<Num>): int {
    m[Int(1)] + 2 * m[Int(2)] + 3 * m[Int(3)] + 4 * m[Int(4)] + 5 * m[Int(5)]
  }

  lemma WeightedAdd(m: multiset<Num>, r: Num)
    requires StarOrNone(r)
    ensures Weighted(m + multiset{r}) == Weighted(m) + ClientRating(r)
  {
  }

  /**
   * The rating total the card averages is the one the rating histogram
   * weighs: when every rating is a star, unparsed or the empty-cell 0, it is 1 times the
   * first bar plus 2 times the second, and so on up to 5.
   */
  lemma RatingSumFromBars(data: seq<SurveyRow>)
    ensures (forall i :: 0 <= i < |data| ==> StarOrNone(data[i].rating)) ==>
      var bars := RatingBars(Ratings(data));
      RatingSum(data) == bars[0].value + 2 * bars[1].value + 3 * bars[2].value + 4 * bars[3].value + 5 * bars[4].value
  {
    if forall i :: 0 <= i < |data| ==> StarOrNone(data[i].rating) {
      RatingSumIsWeighted(data);
    }
    BarsWeight(Ratings(data));
  }

  lemma BarsWeight(rs: seq<Num>)
    ensures var bars := RatingBars(rs);
      Weighted(multiset(rs)) == bars[0].value + 2 * bars[1].value + 3 * bars[2].value + 4 * bars[3].value + 5 * bars[4].value
  {
  }

  lemma {:induction false} RatingSumIsWeighted(data: seq<SurveyRow>)
    requires forall i :: 0 <= i < |data| ==> StarOrNone(data[i].rating)
    ensures RatingSum(data) == Weighted(multiset(Ratings(data)))
  {
    if data != [] {
      var n := |data| - 1;
      assert forall i :: 0 <= i < n ==> data[..n][i] == data[i];
      RatingSumIsWeighted(data[..n]);
      assert Ratings(data) == Ratings(data[..n]) + [data[n].rating];
      WeightedAdd(multiset(Ratings(data[..n])), data[n].rating);
    }
  }

  /** One record's five scores, in dimension order. */
  function Scores(s: Satisfaction): seq<int> {
    [s.staffFriendliness, s.productVariety, s.cleanliness, s.facilities, s.parking]
  }

  /** `data.flatMap(row => [five scores])`: five scores per record, record by record. */
  function AllSatisfactionScores(data: seq<SurveyRow>): (r: seq<int>)
    ensures |r| == 5 * |data|
    ensures forall i, d :: 0 <= i < |data| && 0 <= d < 5 ==>
      r[5 * i + d] == ScoreAt(data[i].satisfaction, d)
    ensures AllScored(data) ==> forall j :: 0 <= j < |r| ==> 0 <= r[j] <= 4
  {
    if data == [] then []
    else
      var n := |data| - 1;
      assert forall i :: 0 <= i < n ==> data[..n][i] == data[i];
      AllSatisfactionScores(data[..n]) + Scores(data[n].satisfaction)
  }

  /** The total of a list of integers (a `reduce` with `+` from 0). */
  function SumInts(s: seq<int>): int {
    if s == [] then 0 else SumInts(s[..|s| - 1]) + s[|s| - 1]
  }

  lemma {:induction false} SumIntsBounds(s: seq<int>)
    ensures (forall j :: 0 <= j < |s| ==> 0 <= s[j] <= 4) ==> 0 <= SumInts(s) <= 4 * |s|
  {
    if s != [] {
      SumIntsBounds(s[..|s| - 1]);
    }
  }

  lemma {:induction false} SumIntsAppend(a: seq<int>, b: seq<int>)
    ensures SumInts(a + b) == SumInts(a) + SumInts(b)
  {
    if b != [] {
      assert (a + b)[..|a + b| - 1] == a + b[..|b| - 1];
      SumIntsAppend(a, b[..|b| - 1]);
    } else {
      assert a + b == a;
    }
  }

  /** What the summary cards are computed from; the two averages divide the sums by the counts. */
  datatype Summary = Summary(total: nat, ratingSum: int, scoreCount: nat, scoreSum: int)

  /**
   * `SummaryCards`: the number of responses, the rating total, and the
   * pooled satisfaction scores (five per response) with their total.
   */
  function SummaryCards(data: seq<SurveyRow>): (s: Summary)
    ensures s.total == |data|
    ensures s.scoreCount == 5 * s.total
    ensures (forall i :: 0 <= i < |data| ==> StarOrNone(data[i].rating)) ==>
      StarCount(Ratings(data)) <= s.ratingSum <= 5 * StarCount(Ratings(data)) <= 5 * s.total
    ensures AllScored(data) ==> 0 <= s.scoreSum <= 4 * s.scoreCount
    ensures s.ratingSum == RatingSum(data)
    ensures s.scoreSum == SumInts(AllSatisfactionScores(data))
  {
    var scores := AllSatisfactionScores(data);
    SumIntsBounds(scores);
    RatingSumBounds(data);
    Summary(|data|, RatingSum(data), |scores|, SumInts(scores))
  }

  // ----- SatisfactionChart -----

  /** The chart's labels for the five dimensions, in dimension order. */
  const SatisfactionLabels: seq<string> :=
    ["직원 친절도", "상품 구색 및 다양성", "매장 청결 및 분위기", "편의 시설", "주차 시설 및 접근성"]

  /** The total of dimension `d` over all records (the sum inside `calculateAverage`). */
  function DimensionSum(data: seq<SurveyRow>, d: nat): (r: int)
    ensures AllScored(data) ==> 0 <= r <= 4 * |data|
  {
    if data == [] then 0
    else
      var n := |data| - 1;
      assert forall i :: 0 <= i < n ==> data[..n][i] == data[i];
      DimensionSum(data[..n], d) + ScoreAt(data[n].satisfaction, d)
  }

  /** `SatisfactionChart`: one bar per dimension, in the fixed dimension order, with the dimension's total. */
  function SatisfactionChart(data: seq<SurveyRow>): (chart: seq<Entry<string>>)
    ensures |chart| == 5
    ensures forall d :: 0 <= d < 5 ==> chart[d].name == SatisfactionLabels[d]
    ensures forall d :: 0 <= d < 5 ==> chart[d].value == DimensionSum(data, d)
    ensures AllScored(data) ==> forall d :: 0 <= d < 5 ==> 0 <= chart[d].value <= 4 * |data|
  {
    seq(5, d requires 0 <= d < 5 => Entry(SatisfactionLabels[d], DimensionSum(data, d)))
  }

  lemma SumOfFive(es: seq<Entry<string>>)
    requires |es| == 5
    ensures SumValues(es) == es[0].value + es[1].value + es[2].value + es[3].value + es[4].value
  {
    var e4, e3, e2, e1 := es[..4], es[..3], es[..2], es[..1];
    assert e4[..3] == e3 && e3[..2] == e2 && e2[..1] == e1 && e1[..0] == [];
    assert SumValues(e1) == es[0].value;
    assert SumValues(e2) == SumValues(e1) + es[1].value;
    assert SumValues(e3) == SumValues(e2) + es[2].value;
    assert SumValues(e4) == SumValues(e3) + es[3].value;
  }

  lemma SumOfScores(s: Satisfaction)
    ensures SumInts(Scores(s)) == ScoreAt(s, 0) + ScoreAt(s, 1) + ScoreAt(s, 2) + ScoreAt(s, 3) + ScoreAt(s, 4)
  {
    var sc := Scores(s);
    var s4, s3, s2, s1 := sc[..4], sc[..3], sc[..2], sc[..1];
    assert s4[..3] == s3 && s3[..2] == s2 && s2[..1] == s1 && s1[..0] == [];
    assert SumInts(s1) == sc[0];
    assert SumInts(s2) == SumInts(s1) + sc[1];
    assert SumInts(s3) == SumInts(s2) + sc[2];
    assert SumInts(s4) == SumInts(s3) + sc[3];
  }

  /** The pooled score total of the summary card equals the sum of the five dimension totals. */
  lemma {:induction false} PooledSumIsDimensionSums(data: seq<SurveyRow>)
    ensures SumInts(AllSatisfactionScores(data)) == SumValues(SatisfactionChart(data))
  {
    SumOfFive(SatisfactionChart(data));
    if data != [] {
      var n := |data| - 1;
      PooledSumIsDimensionSums(data[..n]);
      SumOfFive(SatisfactionChart(data[..n]));
      SumIntsAppend(AllSatisfactionScores(data[..n]), Scores(data[n].satisfaction));
      SumOfScores(data[n].satisfaction);
    }
  }

  // ----- GenderChart, AgeChart, VisitFrequencyChart -----

  function Genders(data: seq<SurveyRow>): seq<string> {
    seq(|data|, i requires 0 <= i < |data| => data[i].gender)
  }

  function Ages(data: seq<SurveyRow>): seq<string> {
    seq(|data|, i requires 0 <= i < |data| => data[i].age)
  }

  function Frequencies(data: seq<SurveyRow>): seq<string> {
    seq(|data|, i requires 0 <= i < |data| => data[i].visitFrequency)
  }

  /**
   * `GenderChart`: one bar per gender, in first-seen order, each counting
   * the records with that gender; the counts add up to the number of records.
   */
  method GenderChart(data: seq<SurveyRow>) returns (chart: seq<Entry<string>>)
    ensures chart == Counts(Genders(data))
    ensures forall g :: multiset(Names(chart))[g] == if g in Genders(data) then 1 else 0
    ensures forall i, j :: 0 <= i < j < |chart| ==>
      FirstIndex(Genders(data), chart[i].name) < FirstIndex(Genders(data), chart[j].name)
    ensures forall i :: 0 <= i < |chart| ==> chart[i].value == multiset(Genders(data))[chart[i].name] >= 1
    ensures SumValues(chart) == |data|
  {
    var order, counts := CountBy(Genders(data));
    chart := Entries(order, counts);
    CountsFacts(Genders(data));
  }

  /** The fixed display order of the age brackets. */
  const AgeOrder: seq<string> := ["20대", "30대", "40대", "50대", "60대 이상"]

  /** The fixed display order of the visit frequencies. */
  const FrequencyOrder: seq<string> := ["주 1회 이상", "월 1~2회", "월 1회 미만"]

  /** `order.indexOf(name)`: the first position of `name`, or -1. */
  function IndexOf(order: seq<string>, name: string): (i: int)
    ensures -1 <= i < |order|
    ensures i == -1 <==> name !in order
    ensures i >= 0 ==> order[i] == name && name !in order[..i]
  {
    if order == [] then -1
    else if order[0] == name then 0
    else
      var j := IndexOf(order[1..], name);
      assert order == [order[0]] + order[1..];
      if j == -1 then -1
      else
        assert order[..j + 1] == [order[0]] + order[1..][..j];
        j + 1
  }

  /** The sort key of `(a, b) => order.indexOf(a.name) - order.indexOf(b.name)`. */
  function PositionIn(order: seq<string>): Entry<string> -> int {
    (e: Entry<string>) => IndexOf(order, e.name)
  }

  /**
   * The category counts re-ordered by a fixed display order: a stable sort
   * on the position in `order`, so unlisted names (position -1) come first,
   * then the listed ones in list order, ties in first-seen order.
   */
  method CountInDisplayOrder(keys: seq<string>, order: seq<string>) returns (chart: seq<Entry<string>>)
    ensures chart == Sort(Counts(keys), PositionIn(order))
    ensures multiset(chart) == multiset(Counts(keys))
    ensures forall i, j :: 0 <= i < j < |chart| ==> IndexOf(order, chart[i].name) <= IndexOf(order, chart[j].name)
    ensures forall i, j :: 0 <= i < j < |chart| && chart[i].name in order ==> chart[j].name in order
    ensures forall k :: WithKey(chart, PositionIn(order), k) == WithKey(Counts(keys), PositionIn(order), k)
  {
    var names, counts := CountBy(keys);
    var entries := Entries(names, counts);
    chart := Sort(entries, PositionIn(order));
    forall k ensures WithKey(chart, PositionIn(order), k) == WithKey(entries, PositionIn(order), k) {
      SortIsStable(entries, PositionIn(order), k);
    }
    assert forall i, j :: 0 <= i < j < |chart| ==> PositionIn(order)(chart[i]) <= PositionIn(order)(chart[j]);
  }

  /** `AgeChart`: the age counts in the fixed age order. */
  method AgeChart(data: seq<SurveyRow>) returns (chart: seq<Entry<string>>)
    ensures chart == Sort(Counts(Ages(data)), PositionIn(AgeOrder))
    ensures multiset(chart) == multiset(Counts(Ages(data)))
    ensures forall i, j :: 0 <= i < j < |chart| ==> IndexOf(AgeOrder, chart[i].name) <= IndexOf(AgeOrder, chart[j].name)
    ensures forall i, j :: 0 <= i < j < |chart| && chart[i].name in AgeOrder ==> chart[j].name in AgeOrder
    ensures forall k :: WithKey(chart, PositionIn(AgeOrder), k) == WithKey(Counts(Ages(data)), PositionIn(AgeOrder), k)
  {
    chart := CountInDisplayOrder(Ages(data), AgeOrder);
  }

  /** `VisitFrequencyChart`: the visit-frequency counts in the fixed frequency order. */
  method VisitFrequencyChart(data: seq<SurveyRow>) returns (chart: seq<Entry<string>>)
    ensures chart == Sort(Counts(Frequencies(data)), PositionIn(FrequencyOrder))
    ensures multiset(chart) == multiset(Counts(Frequencies(data)))
    ensures forall i, j :: 0 <= i < j < |chart| ==>
      IndexOf(FrequencyOrder, chart[i].name) <= IndexOf(FrequencyOrder, chart[j].name)
    ensures forall i, j :: 0 <= i < j < |chart| && chart[i].name in FrequencyOrder ==> chart[j].name in FrequencyOrder
    ensures forall k ::
      WithKey(chart, PositionIn(FrequencyOrder), k) == WithKey(Counts(Frequencies(data)), PositionIn(FrequencyOrder), k)
  {
    chart := CountInDisplayOrder(Frequencies(data), FrequencyOrder);
  }

  // ----- RatingChart -----

  function Ratings(data: seq<SurveyRow>): seq<Num> {
    seq(|data|, i requires 0 <= i < |data| => data[i].rating)
  }

  /** A rating the histogram shows: an integer from 1 to 5. */
  predicate IsStar(r: Num) {
    r.Int? && 1 <= r.value <= 5
  }

  /** How many ratings are stars; all of them exactly when every rating is one. */
  function StarCount(rs: seq<Num>): (n: nat)
    ensures n <= |rs|
    ensures n == |rs| <==> forall i :: 0 <= i < |rs| ==> IsStar(rs[i])
  {
    if rs == [] then 0
    else
      var k := |rs| - 1;
      assert forall i :: 0 <= i < k ==> rs[..k][i] == rs[i];
      StarCount(rs[..k]) + (if IsStar(rs[k]) then 1 else 0)
  }

  lemma {:induction false} StarBuckets(rs: seq<Num>)
    ensures multiset(rs)[Int(1)] + multiset(rs)[Int(2)] + multiset(rs)[Int(3)]
      + multiset(rs)[Int(4)] + multiset(rs)[Int(5)] == StarCount(rs)
  {
    if rs != [] {
      var k := |rs| - 1;
      assert rs == rs[..k] + [rs[k]];
      StarBuckets(rs[..k]);
    }
  }

  /** The five bars of the rating histogram: ratings 1 to 5, each with its number of records. */
  function RatingBars(rs: seq<Num>): (chart: seq<Entry<string>>)
    ensures |chart| == 5
    ensures forall k :: 1 <= k <= 5 ==> chart[k - 1].name == IntText(k) + "점"
    ensures forall k :: 1 <= k <= 5 ==> chart[k - 1].value == multiset(rs)[Int(k)]
  {
    seq(5, i requires 0 <= i < 5 => Entry(IntText(i + 1) + "점", multiset(rs)[Int(i + 1)]))
  }

  /** The histogram's bars add up to the number of ratings that are stars. */
  lemma RatingBarsSum(rs: seq<Num>)
    ensures SumValues(RatingBars(rs)) == StarCount(rs)
  {
    SumOfFive(RatingBars(rs));
    StarBuckets(rs);
  }

  /**
   * `RatingChart`: one bar for each of the ratings 1 to 5, in that order,
   * counting the records with that rating; other ratings are not shown.
   */
  method RatingChart(data: seq<SurveyRow>) returns (chart: seq<Entry<string>>)
    ensures chart == RatingBars(Ratings(data))
    ensures forall k :: 1 <= k <= 5 ==> chart[k - 1] == Entry(IntText(k) + "점", multiset(Ratings(data))[Int(k)])
    ensures SumValues(chart) <= |data|
    ensures SumValues(chart) == |data| <==> forall i :: 0 <= i < |data| ==> IsStar(data[i].rating)
  {
    var order, counts := CountBy(Ratings(data));
    chart := seq(5, i requires 0 <= i < 5 =>
      var rating := i + 1;
      Entry(IntText(rating) + "점", if Int(rating) in counts then counts[Int(rating)] else 0));
    assert forall i :: 0 <= i < 5 ==> chart[i] == RatingBars(Ratings(data))[i];
    RatingBarsFacts(data);
  }

  lemma RatingBarsFacts(data: seq<SurveyRow>)
    ensures var chart := RatingBars(Ratings(data));
      && (forall k :: 1 <= k <= 5 ==> chart[k - 1] == Entry(IntText(k) + "점", multiset(Ratings(data))[Int(k)]))
      && SumValues(chart) <= |data|
      && (SumValues(chart) == |data| <==> forall i :: 0 <= i < |data| ==> IsStar(data[i].rating))
  {
    RatingBarsSum(Ratings(data));
    assert forall i :: 0 <= i < |data| ==> Ratings(data)[i] == data[i].rating;
  }

  // ----- VisitPurposeChart -----

  /** Every record's purposes, record after record. */
  function AllPurposes(data: seq<SurveyRow>): seq<string> {
    if data == [] then [] else AllPurposes(data[..|data| - 1]) + data[|data| - 1].visitPurposes
  }

  /** The sort key of `(a, b) => b.value - a.value`. */
  function ByCountDescending(e: Entry<string>): int {
    -e.value
  }

  /** The inner loop of `VisitPurposeChart`: counts one record's purposes into the accumulator. */
  method CountPurposes(order: seq<string>, counts: map<string, int>, ghost seen: seq<string>, purposes: seq<string>)
    returns (order': seq<string>, counts': map<string, int>)
    requires Counted(seen, order, counts)
    ensures Counted(seen + purposes, order', counts')
  {
    order', counts' := order, counts;
    assert seen + purposes[..0] == seen;
    for j := 0 to |purposes|
      invariant Counted(seen + purposes[..j], order', counts')
    {
      assert seen + purposes[..j + 1] == (seen + purposes[..j]) + [purposes[j]];
      order', counts' := Add(order', counts', seen + purposes[..j], purposes[j]);
    }
    assert purposes[..|purposes|] == purposes;
  }

  /**
   * `VisitPurposeChart`: every purpose of every record counted in one pass
   * (outer loop over records, inner loop over their purposes), then the bars
   * sorted by count, largest first, ties in first-seen order.
   */
  method VisitPurposeChart(data: seq<SurveyRow>) returns (chart: seq<Entry<string>>)
    ensures chart == Sort(Counts(AllPurposes(data)), ByCountDescending)
    ensures forall i, j :: 0 <= i < j < |chart| ==> chart[i].value >= chart[j].value
    ensures multiset(chart) == multiset(Counts(AllPurposes(data)))
    ensures forall p :: multiset(Names(chart))[p] == if p in AllPurposes(data) then 1 else 0
    ensures SumValues(chart) == |AllPurposes(data)|
    ensures forall k :: WithKey(chart, ByCountDescending, k) == WithKey(Counts(AllPurposes(data)), ByCountDescending, k)
  {
    var order: seq<string> := [];
    var counts: map<string, int> := map[];
    for i := 0 to |data|
      invariant Counted(AllPurposes(data[..i]), order, counts)
    {
      assert data[..i + 1][..i] == data[..i];
      order, counts := CountPurposes(order, counts, AllPurposes(data[..i]), data[i].visitPurposes);
    }
    assert data[..|data|] == data;
    EntriesOfCounts(AllPurposes(data), order, counts);
    chart := Sort(Entries(order, counts), ByCountDescending);
    RankedFacts(AllPurposes(data), chart);
  }

  lemma RankedFacts(keys: seq<string>, chart: seq<Entry<string>>)
    requires chart == Sort(Counts(keys), ByCountDescending)
    ensures forall i, j :: 0 <= i < j < |chart| ==> chart[i].value >= chart[j].value
    ensures multiset(chart) == multiset(Counts(keys))
    ensures forall p :: multiset(Names(chart))[p] == if p in keys then 1 else 0
    ensures SumValues(chart) == |keys|
    ensures forall k :: WithKey(chart, ByCountDescending, k) == WithKey(Counts(keys), ByCountDescending, k)
  {
    var entries := Counts(keys);
    forall k ensures WithKey(chart, ByCountDescending, k) == WithKey(entries, ByCountDescending, k) {
      SortIsStable(entries, ByCountDescending, k);
    }
    assert forall i, j :: 0 <= i < j < |chart| ==> ByCountDescending(chart[i]) <= ByCountDescending(chart[j]);
    CountsFacts(keys);
    NamesPermutation(chart, entries);
    SumValuesPermutation(chart, entries);
  }
}
