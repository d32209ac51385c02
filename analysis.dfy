/**
 * The imbalance page (frontend/src/pages/Analysis.jsx): one card per exercise
 * of the response of the imbalance endpoint, coloured by the size of the
 * imbalance, with a marker on a bar from "left stronger" to "right stronger"
 * and a recommendation for larger imbalances; below the cards, how many
 * exercises were analysed and how many fall in the two lower bands.
 *
 * The response travels as JSON: `JSON.stringify` writes NaN and the
 * infinities as `null`, and the page's arithmetic (`Math.abs`, `/ 2`, the
 * comparisons) turns `null` into 0.
 */
module Analysis {
  import opened JsNumber
  import opened JsObject
  import opened WorkoutController

  /** One element of the response as the page receives it; None is `null`. */
  datatype Received = Received(
    exercise: string, leftAvg: real, rightAvg: real, imbalance: Option<real>, strongerSide: string)

  /** `JSON.stringify` of a Number: only finite values survive. */
  function Json(v: Number): (r: Option<real>)
    ensures r.Some? <==> v.Finite?
    ensures r.Some? ==> r.value == v.value
  {
    if v.Finite? then Some(v.value) else None
  }

  /** The element after the round trip through JSON. */
  function Receive(r: ExerciseResult): Received {
    Received(r.exercise, r.leftAvg, r.rightAvg, Json(r.imbalance), r.strongerSide.Name())
  }

  /** `ToNumber` of a received number: `null` is 0. */
  function Numeric(imbalance: Option<real>): real {
    if imbalance.Some? then imbalance.value else 0.0
  }

  /** `Math.abs(analysis.imbalance)`. */
  function Magnitude(imbalance: Option<real>): (m: real)
    ensures m >= 0.0
  {
    Abs(Numeric(imbalance))
  }

  /** `getImbalanceColor`. */
  function ImbalanceColor(imbalance: Option<real>): string {
    if Magnitude(imbalance) > 10.0 then "text-red-400"
    else if Magnitude(imbalance) > 5.0 then "text-yellow-400"
    else "text-green-400"
  }

  /** `getImbalanceBg`. */
  function ImbalanceBg(imbalance: Option<real>): string {
    if Magnitude(imbalance) > 10.0 then "bg-red-500/10 border-red-500/20"
    else if Magnitude(imbalance) > 5.0 then "bg-yellow-500/10 border-yellow-500/20"
    else "bg-green-500/10 border-green-500/20"
  }

  /** The marker's `left` offset in percent: `50 + imbalance / 2`. */
  function Marker(imbalance: Option<real>): real {
    50.0 + Numeric(imbalance) / 2.0
  }

  /** The recommendation box. */
  datatype Recommendation = Recommendation(
    boxClass: string, alertIcon: bool, heading: string, side: string, percent: real, advice: bool)

  /** A rendered card. */
  datatype Card = Card(
    exercise: string, leftAvg: real, rightAvg: real,
    percentClass: string, percent: real, marker: real, recommendation: Option<Recommendation>)

  const AttentionNeeded: string := "Attention Needed"
  const GoodProgress: string := "Good Progress"

  /**
   * `AnalysisCard`: the element's title and averages as received, the size of
   * its imbalance as the percentage (0 for `null`), and a recommendation
   * exactly when that size exceeds 5, naming the stronger side and the size.
   */
  function CardOf(a: Received): (c: Card)
    ensures c.exercise == a.exercise && c.leftAvg == a.leftAvg && c.rightAvg == a.rightAvg
    ensures c.percent >= 0.0
    ensures a.imbalance.Some? ==> c.percent == a.imbalance.value || c.percent == -a.imbalance.value
    ensures a.imbalance.None? ==> c.percent == 0.0
    ensures c.recommendation.Some? <==> c.percent > 5.0
    ensures c.recommendation.Some? ==>
      c.recommendation.value.side == a.strongerSide && c.recommendation.value.percent == c.percent
  {
    var m := Magnitude(a.imbalance);
    Card(a.exercise, a.leftAvg, a.rightAvg, ImbalanceColor(a.imbalance), m, Marker(a.imbalance),
      if m > 5.0 then
        Some(Recommendation(ImbalanceBg(a.imbalance), m > 10.0,
          if m > 10.0 then AttentionNeeded else GoodProgress, a.strongerSide, m, m > 10.0))
      else None)
  }

  /** The three summary predicates; the page counts the first two. */
  predicate Balanced(a: Received) {
    Magnitude(a.imbalance) <= 5.0
  }

  predicate NeedsAttention(a: Received) {
    Magnitude(a.imbalance) > 5.0 && Magnitude(a.imbalance) <= 10.0
  }

  predicate Severe(a: Received) {
    Magnitude(a.imbalance) > 10.0
  }

  /** `analysis.filter(p).length`. */
  function Count(rs: seq<Received>, p: Received -> bool): (n: nat)
    ensures n <= |rs|
    decreases |rs|
  {
    if rs == [] then 0
    else Count(rs[..|rs| - 1], p) + (if p(rs[|rs| - 1]) then 1 else 0)
  }

  /** The three summary cards. */
  datatype Summary = Summary(analyzed: nat, balanced: nat, needsAttention: nat)

  /** The page once loaded: the empty notice, or the cards and the summary. */
  datatype Page = Page(emptyNotice: bool, cards: seq<Card>, summary: Option<Summary>)

  function PageOf(rs: seq<Received>): (p: Page)
    ensures p.emptyNotice <==> rs == []
    ensures p.summary.Some? <==> rs != []
    ensures |p.cards| == |rs| && forall i :: 0 <= i < |rs| ==> p.cards[i] == CardOf(rs[i])
  {
    Page(|rs| == 0,
      seq(|rs|, i requires 0 <= i < |rs| => CardOf(rs[i])),
      if |rs| > 0 then Some(Summary(|rs|, Count(rs, Balanced), Count(rs, NeedsAttention))) else None)
  }

  /**
   * A card's colour, its recommendation and the summary band agree: green
   * and no recommendation for a balanced exercise, yellow with "Good
   * Progress" for one that needs attention, red with "Attention Needed" and
   * the advice for a severe one.
   */
  lemma {:induction false} CardMatchesBand(a: Received)
    ensures var c := CardOf(a);
      && (c.percentClass == "text-green-400" <==> Balanced(a))
      && (c.percentClass == "text-yellow-400" <==> NeedsAttention(a))
      && (c.percentClass == "text-red-400" <==> Severe(a))
      && (c.recommendation.None? <==> Balanced(a))
      && (c.recommendation.Some? ==>
            && (c.recommendation.value.heading == AttentionNeeded <==> Severe(a))
            && (c.recommendation.value.advice <==> Severe(a))
            && (c.recommendation.value.alertIcon <==> Severe(a))
            && (c.recommendation.value.boxClass == "bg-red-500/10 border-red-500/20" <==> Severe(a)))
  {
  }

  /** An imbalance and its mirror image get the same colours and percentage and mirrored markers. */
  lemma {:induction false} MirrorSymmetric(x: real)
    ensures ImbalanceColor(Some(x)) == ImbalanceColor(Some(-x))
    ensures ImbalanceBg(Some(x)) == ImbalanceBg(Some(-x))
    ensures Magnitude(Some(x)) == Magnitude(Some(-x))
    ensures Marker(Some(-x)) == 100.0 - Marker(Some(x))
  {
  }

  /** A null imbalance shows as a balanced exercise with the marker in the middle. */
  lemma {:induction false} NullIsBalanced(a: Received)
    requires a.imbalance.None?
    ensures Balanced(a) && CardOf(a).marker == 50.0 && CardOf(a).percent == 0.0
  {
  }

  /** An imbalance within plus or minus 100 places the marker on the bar. */
  lemma {:induction false} MarkerOnBar(imbalance: Option<real>)
    requires Magnitude(imbalance) <= 100.0
    ensures 0.0 <= Marker(imbalance) <= 100.0
    ensures Marker(imbalance) < 50.0 <==> Numeric(imbalance) < 0.0
  {
  }

  /** Every exercise is in exactly one band, so the two counts shown never exceed the number analysed. */
  lemma {:induction false} CountsPartition(rs: seq<Received>)
    ensures Count(rs, Balanced) + Count(rs, NeedsAttention) + Count(rs, Severe) == |rs|
    decreases |rs|
  {
    if rs != [] {
      CountsPartition(rs[..|rs| - 1]);
    }
  }

  /** Counting the page after one more exercise. */
  lemma {:induction false} CountAppend(rs: seq<Received>, a: Received, p: Received -> bool)
    ensures Count(rs + [a], p) == Count(rs, p) + (if p(a) then 1 else 0)
  {
    assert (rs + [a])[..|rs|] == rs;
  }

  /**
   * On the page built from the analysis of workouts with non-negative loads
   * and reps, every marker lies on the bar, and a recommendation, when there
   * is one, names the side whose total work is strictly larger.
   */
  lemma {:induction false} AnalysisCards(ws: seq<UnilateralWorkout>, r: ExerciseResult)
    requires forall i :: 0 <= i < |ws| ==> NonNegative(ws[i])
    requires r in ImbalanceAnalysis(ws)
    ensures 0.0 <= CardOf(Receive(r)).marker <= 100.0
    ensures var t := ExerciseTotals(ws, r.exercise);
      CardOf(Receive(r)).recommendation.Some? ==>
        (CardOf(Receive(r)).recommendation.value.side == "left" && t.leftTotal > t.rightTotal) ||
        (CardOf(Receive(r)).recommendation.value.side == "right" && t.leftTotal < t.rightTotal)
  {
    var t := ExerciseTotals(ws, r.exercise);
    AnalysisNonNegative(ws, r);
    SummarySides(r.exercise, t);
    if t.leftTotal == t.rightTotal && t.leftTotal > 0.0 {
      EqualTotalsBalanced(r.exercise, t);
    }
    MarkerOnBar(Json(r.imbalance));
  }
}
