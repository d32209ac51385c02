/**
 * The request handling of backend/controllers/workoutController.js that does
 * not touch the database: the validation and record building of
 * `createWorkout`, and the grouping and statistics of `getImbalanceAnalysis`.
 *
 * The database is replaced by values: `createWorkout` yields the record it
 * would hand to `Workout.create`, and `getImbalanceAnalysis` takes the
 * unilateral workouts `Workout.find` would return.
 */
module WorkoutController {
  import opened JsNumber
  import opened JsObject

  // ---------------------------------------------------------------------------
  // createWorkout

  /** A JSON value from a request body, as far as the handler tells values apart. */
  datatype JsVal = Undefined | Null | Bool(b: bool) | Num(n: real) | Str(s: string) | Composite

  /** JavaScript truthiness: undefined, null, false, 0 and "" are falsy (JSON has no NaN). */
  predicate Truthy(v: JsVal) {
    match v
    case Undefined => false
    case Null => false
    case Bool(b) => b
    case Num(n) => n != 0.0
    case Str(s) => s != ""
    case Composite => true
  }

  /** `a || b` */
  function Or(a: JsVal, b: JsVal): JsVal {
    if Truthy(a) then a else b
  }

  /** The fields `createWorkout` destructures from `req.body`. */
  datatype RequestBody = RequestBody(
    title: JsVal, load: JsVal, reps: JsVal, sets: JsVal, notes: JsVal, unilateral: JsVal,
    leftLoad: JsVal, rightLoad: JsVal, leftReps: JsVal, rightReps: JsVal)

  /** The per-side fields, present on a record only when it is unilateral. */
  datatype Sides = Sides(leftLoad: JsVal, rightLoad: JsVal, leftReps: JsVal, rightReps: JsVal)

  /** The `workoutData` object handed to `Workout.create`. */
  datatype WorkoutData = WorkoutData(
    title: JsVal, load: JsVal, reps: JsVal, sets: JsVal, notes: JsVal, unilateral: JsVal,
    userId: string, sides: Option<Sides>)

  /** The names `createWorkout` can list in `emptyFields`. */
  datatype EmptyField = Title | Load | Reps | UnilateralFields {
    /** The name as it appears in the reply. */
    function Name(): string {
      match this
      case Title => "title"
      case Load => "load"
      case Reps => "reps"
      case UnilateralFields => "unilateralFields"
    }

    /** The position of the check that reports this field. */
    function Rank(): nat {
      match this
      case Title => 0
      case Load => 1
      case Reps => 2
      case UnilateralFields => 3
    }
  }

  /** A 400 reply listing the empty fields, or the record to store. */
  datatype CreateOutcome = Rejected(error: string, emptyFields: seq<EmptyField>) | Created(data: WorkoutData)

  const MissingFieldsError: string := "Please fill in all required fields"

  /** Some side field of a unilateral request is missing. */
  predicate SideMissing(body: RequestBody) {
    !Truthy(body.leftLoad) || !Truthy(body.rightLoad) || !Truthy(body.leftReps) || !Truthy(body.rightReps)
  }

  /** The request lacks a field it needs: a title, and the side fields or the load and reps. */
  predicate Incomplete(body: RequestBody) {
    !Truthy(body.title) ||
    (if Truthy(body.unilateral) then SideMissing(body) else !Truthy(body.load) || !Truthy(body.reps))
  }

  /** Fields listed in the order of the checks, each at most once. */
  predicate InCheckOrder(fields: seq<EmptyField>) {
    forall i, j :: 0 <= i < j < |fields| ==> fields[i].Rank() < fields[j].Rank()
  }

  /** The `emptyFields` checks of `createWorkout`. */
  method CollectEmptyFields(body: RequestBody) returns (emptyFields: seq<EmptyField>)
    ensures Title in emptyFields <==> !Truthy(body.title)
    ensures Load in emptyFields <==> !Truthy(body.load) && !Truthy(body.unilateral)
    ensures Reps in emptyFields <==> !Truthy(body.reps) && !Truthy(body.unilateral)
    ensures UnilateralFields in emptyFields <==> Truthy(body.unilateral) && SideMissing(body)
    ensures InCheckOrder(emptyFields)
    ensures emptyFields == [] <==> !Incomplete(body)
  {
    emptyFields := [];
    if !Truthy(body.title) {
      emptyFields := emptyFields + [Title];
    }
    if !Truthy(body.load) && !Truthy(body.unilateral) {
      emptyFields := emptyFields + [Load];
    }
    if !Truthy(body.reps) && !Truthy(body.unilateral) {
      emptyFields := emptyFields + [Reps];
    }
    if Truthy(body.unilateral) && SideMissing(body) {
      emptyFields := emptyFields + [UnilateralFields];
    }
    if emptyFields != [] {
      assert emptyFields[0] in emptyFields;
    }
  }

  /** What `createWorkout` stores for an accepted request. */
  predicate Stored(data: WorkoutData, body: RequestBody, userId: string) {
    && data.title == body.title
    && data.sets == Or(body.sets, Num(1.0))
    && data.notes == body.notes
    && data.unilateral == Or(body.unilateral, Bool(false))
    && data.userId == userId
    && (if Truthy(body.unilateral)
        then data.load == Null && data.reps == Null
          && data.sides == Some(Sides(body.leftLoad, body.rightLoad, body.leftReps, body.rightReps))
        else data.load == body.load && data.reps == body.reps && data.sides == None)
  }

  /** `createWorkout`: validates the request, then builds the record to store. */
  method CreateWorkout(body: RequestBody, userId: string) returns (outcome: CreateOutcome)
    ensures outcome.Rejected? <==> Incomplete(body)
    ensures outcome.Rejected? ==> outcome.error == MissingFieldsError && outcome.emptyFields != []
    ensures outcome.Rejected? ==>
      && (Title in outcome.emptyFields <==> !Truthy(body.title))
      && (Load in outcome.emptyFields <==> !Truthy(body.load) && !Truthy(body.unilateral))
      && (Reps in outcome.emptyFields <==> !Truthy(body.reps) && !Truthy(body.unilateral))
      && (UnilateralFields in outcome.emptyFields <==> Truthy(body.unilateral) && SideMissing(body))
      && InCheckOrder(outcome.emptyFields)
    ensures outcome.Created? ==> Stored(outcome.data, body, userId)
  {
    var emptyFields := CollectEmptyFields(body);
    if |emptyFields| > 0 {
      return Rejected(MissingFieldsError, emptyFields);
    }
    var unilateral := Truthy(body.unilateral);
    var data := WorkoutData(
      body.title,
      if unilateral then Null else body.load,
      if unilateral then Null else body.reps,
      Or(body.sets, Num(1.0)),
      body.notes,
      Or(body.unilateral, Bool(false)),
      userId,
      None);
    if unilateral {
      data := data.(sides := Some(Sides(body.leftLoad, body.rightLoad, body.leftReps, body.rightReps)));
    }
    return Created(data);
  }

  /**
   * A stored record passes the checks again: it has a title and a truthy set
   * count, is unilateral exactly when the request was, and carries all four
   * side fields (unilateral) or a load and reps (bilateral).
   */
  lemma {:induction false} StoredRecordComplete(data: WorkoutData, body: RequestBody, userId: string)
    requires Stored(data, body, userId) && !Incomplete(body)
    ensures Truthy(data.title) && Truthy(data.sets)
    ensures Truthy(data.unilateral) <==> Truthy(body.unilateral)
    ensures Truthy(data.unilateral) ==> data.sides.Some? && !data.load.Num? && !data.reps.Num?
    ensures data.sides.Some? ==>
      Truthy(data.sides.value.leftLoad) && Truthy(data.sides.value.rightLoad) &&
      Truthy(data.sides.value.leftReps) && Truthy(data.sides.value.rightReps)
    ensures !Truthy(data.unilateral) ==> data.sides.None? && Truthy(data.load) && Truthy(data.reps)
  {
  }

  // ---------------------------------------------------------------------------
  // getImbalanceAnalysis: grouping

  /** A stored unilateral workout, as far as the analysis reads it. */
  datatype UnilateralWorkout = UnilateralWorkout(
    title: string, leftLoad: real, rightLoad: real, leftReps: real, rightReps: real)

  /** The running sums kept per exercise in `analysis`. */
  datatype Totals = Totals(leftTotal: real, rightTotal: real, leftReps: real, rightReps: real, count: nat)

  const NoTotals: Totals := Totals(0.0, 0.0, 0.0, 0.0, 0)

  /** The five `+=` updates for one workout. */
  function AddWorkout(t: Totals, w: UnilateralWorkout): Totals {
    Totals(t.leftTotal + w.leftLoad * w.leftReps, t.rightTotal + w.rightLoad * w.rightReps,
      t.leftReps + w.leftReps, t.rightReps + w.rightReps, t.count + 1)
  }

  /** The entry of an exercise, or zeros when it has none yet. */
  function TotalsOf(analysis: Dict<string, Totals>, title: string): Totals {
    if title in analysis.vals then analysis.vals[title] else NoTotals
  }

  /**
   * `analysis` after the `forEach`, with an entry created for every title that
   * has no entry of its own yet.
   */
  function Group(ws: seq<UnilateralWorkout>): Dict<string, Totals>
    decreases |ws|
  {
    if ws == [] then Empty()
    else
      var analysis := Group(ws[..|ws| - 1]);
      var w := ws[|ws| - 1];
      Put(analysis, w.title, AddWorkout(TotalsOf(analysis, w.title), w))
  }

  /** The sums over the workouts of one exercise, computed on their own. */
  function ExerciseTotals(ws: seq<UnilateralWorkout>, title: string): Totals
    decreases |ws|
  {
    if ws == [] then NoTotals
    else
      var t := ExerciseTotals(ws[..|ws| - 1], title);
      if ws[|ws| - 1].title == title then AddWorkout(t, ws[|ws| - 1]) else t
  }

  /** The titles of the workouts, in order. */
  function Titles(ws: seq<UnilateralWorkout>): (r: seq<string>)
    ensures |r| == |ws| && forall i :: 0 <= i < |ws| ==> r[i] == ws[i].title
  {
    seq(|ws|, i requires 0 <= i < |ws| => ws[i].title)
  }

  /** The count of an exercise is the number of its workouts. */
  lemma {:induction false} ExerciseCount(ws: seq<UnilateralWorkout>, title: string)
    ensures ExerciseTotals(ws, title).count == multiset(Titles(ws))[title]
    decreases |ws|
  {
    if ws != [] {
      var prefix := ws[..|ws| - 1];
      ExerciseCount(prefix, title);
      assert Titles(ws) == Titles(prefix) + [ws[|ws| - 1].title];
    }
  }

  /** Every workout adds one entry step; the grouping keeps one entry per title. */
  lemma {:induction false} GroupStep(prefix: seq<UnilateralWorkout>, ws: seq<UnilateralWorkout>, w: UnilateralWorkout, analysis: Dict<string, Totals>)
    requires ws == prefix + [w]
    requires analysis == Group(prefix)
    ensures Put(analysis, w.title, AddWorkout(TotalsOf(analysis, w.title), w)) == Group(ws)
  {
    assert ws[..|ws| - 1] == prefix;
    assert ws[|ws| - 1] == w;
  }

  /**
   * The grouping has an entry exactly for the titles that occur, listed once
   * each, and the entry of a title holds the sums over that title's workouts.
   */
  lemma {:induction false} GroupIsPerExercise(ws: seq<UnilateralWorkout>)
    ensures Group(ws).Valid()
    ensures forall t :: t in Group(ws).vals <==> t in Titles(ws)
    ensures forall t :: t in Group(ws).vals ==> Group(ws).vals[t] == ExerciseTotals(ws, t)
    decreases |ws|
  {
    if ws != [] {
      var prefix := ws[..|ws| - 1];
      var w := ws[|ws| - 1];
      GroupIsPerExercise(prefix);
      PutValid(Group(prefix), w.title, AddWorkout(TotalsOf(Group(prefix), w.title), w));
      assert Titles(ws) == Titles(prefix) + [w.title];
      forall t | t !in Titles(prefix)
        ensures ExerciseTotals(prefix, t) == NoTotals
      {
        ExerciseCount(prefix, t);
        ExerciseTotalsEmpty(prefix, t);
      }
    }
  }

  /** A title without workouts has zero sums. */
  lemma {:induction false} ExerciseTotalsEmpty(ws: seq<UnilateralWorkout>, title: string)
    requires ExerciseTotals(ws, title).count == 0
    ensures ExerciseTotals(ws, title) == NoTotals
    decreases |ws|
  {
    if ws != [] {
      ExerciseTotalsEmpty(ws[..|ws| - 1], title);
    }
  }

  /**
   * The `forEach` of `getImbalanceAnalysis`: for each workout, create the
   * exercise's entry when `analysis[title]` is falsy, then add the workout to
   * it. A title naming a member every object inherits finds that member
   * truthy, so no entry is created and the `+=` updates land on the
   * inherited value, leaving the own keys as they were.
   */
  method Accumulate(ws: seq<UnilateralWorkout>) returns (analysis: Dict<string, Totals>)
    ensures analysis == GroupAsWritten(ws)
    ensures analysis == Group(WithoutInherited(ws))
  {
    analysis := Empty();
    var i := 0;
    while i < |ws|
      invariant 0 <= i <= |ws|
      invariant analysis == GroupAsWritten(ws[..i])
    {
      var w := ws[i];
      GroupAsWrittenStep(ws[..i], ws[..i + 1], w, analysis);
      ghost var before := analysis;
      if w.title !in InheritedNames {
        if w.title !in analysis.vals {
          analysis := Put(analysis, w.title, NoTotals);
        }
        var t := analysis.vals[w.title];
        analysis := Put(analysis, w.title, AddWorkout(t, w));
        assert analysis == Put(before, w.title, AddWorkout(TotalsOf(before, w.title), w));
      }
      i := i + 1;
    }
    assert ws[..i] == ws;
    GroupAsWrittenSkipsInherited(ws);
  }

  /** Every key of the grouping has an entry, which counts at least one workout. */
  lemma {:induction false} GroupCountsPositive(ws: seq<UnilateralWorkout>)
    ensures forall t :: t in Group(ws).keys ==> t in Group(ws).vals && Group(ws).vals[t].count >= 1
    decreases |ws|
  {
    if ws != [] {
      GroupCountsPositive(ws[..|ws| - 1]);
    }
  }

  /** With non-negative loads and repetitions, every sum is non-negative. */
  predicate NonNegative(w: UnilateralWorkout) {
    w.leftLoad >= 0.0 && w.rightLoad >= 0.0 && w.leftReps >= 0.0 && w.rightReps >= 0.0
  }

  predicate NonNegativeTotals(t: Totals) {
    t.leftTotal >= 0.0 && t.rightTotal >= 0.0 && t.leftReps >= 0.0 && t.rightReps >= 0.0
  }

  lemma {:induction false} ExerciseTotalsNonNegative(ws: seq<UnilateralWorkout>, title: string)
    requires forall i :: 0 <= i < |ws| ==> NonNegative(ws[i])
    ensures NonNegativeTotals(ExerciseTotals(ws, title))
    decreases |ws|
  {
    if ws != [] {
      var w := ws[|ws| - 1];
      ExerciseTotalsNonNegative(ws[..|ws| - 1], title);
      assert NonNegative(w);
      assert w.leftLoad * w.leftReps >= 0.0 && w.rightLoad * w.rightReps >= 0.0;
    }
  }

  // ---------------------------------------------------------------------------
  // getImbalanceAnalysis: statistics

  datatype Side = Left | Right {
    function Name(): string {
      match this
      case Left => "left"
      case Right => "right"
    }
  }

  /** One element of the response array. */
  datatype ExerciseResult = ExerciseResult(
    exercise: string, leftAvg: real, rightAvg: real, imbalance: Number, strongerSide: Side)

  /** `((leftAvg - rightAvg) / Math.max(leftAvg, rightAvg)) * 100`, unrounded. */
  function Imbalance(leftAvg: real, rightAvg: real): Number {
    Scale(Divide(leftAvg - rightAvg, Max(leftAvg, rightAvg)), 100.0)
  }

  /**
   * The `map` callback for one exercise: its title, each side's average
   * rounded to the nearest hundredth, and an imbalance that is NaN exactly
   * when both totals are 0.
   */
  function Summarize(exercise: string, t: Totals): (r: ExerciseResult)
    requires t.count >= 1
    ensures r.exercise == exercise
    ensures OnGrid(r.leftAvg) && t.leftTotal / t.count as real - 0.005 < r.leftAvg <= t.leftTotal / t.count as real + 0.005
    ensures OnGrid(r.rightAvg) && t.rightTotal / t.count as real - 0.005 < r.rightAvg <= t.rightTotal / t.count as real + 0.005
    ensures r.imbalance.NaN? <==> t.leftTotal == 0.0 && t.rightTotal == 0.0
  {
    var leftAvg := t.leftTotal / t.count as real;
    var rightAvg := t.rightTotal / t.count as real;
    var imbalance := Imbalance(leftAvg, rightAvg);
    ExerciseResult(exercise, Round2(leftAvg), Round2(rightAvg), RoundNumber2(imbalance),
      if IsPositive(imbalance) then Left else Right)
  }

  /**
   * For non-negative averages, the imbalance is positive exactly when the left
   * average is larger; a smaller left average makes it negative; equal
   * positive averages make it zero; two zero averages make it 0/0 (NaN).
   */
  lemma {:induction false} ImbalanceSign(leftAvg: real, rightAvg: real)
    requires leftAvg >= 0.0 && rightAvg >= 0.0
    ensures IsPositive(Imbalance(leftAvg, rightAvg)) <==> leftAvg > rightAvg
    ensures leftAvg < rightAvg ==> Imbalance(leftAvg, rightAvg).Finite? && Imbalance(leftAvg, rightAvg).value < 0.0
    ensures leftAvg == rightAvg > 0.0 ==> Imbalance(leftAvg, rightAvg) == Finite(0.0)
    ensures leftAvg == rightAvg == 0.0 <==> Imbalance(leftAvg, rightAvg).NaN?
  {
    var m := Max(leftAvg, rightAvg);
    if leftAvg > rightAvg {
      assert (leftAvg - rightAvg) / m > 0.0;
    } else if leftAvg < rightAvg {
      assert (leftAvg - rightAvg) / m < 0.0;
    }
  }

  /**
   * For non-negative averages with at least one positive, the imbalance is a
   * finite percentage from -100 to 100, before and after rounding.
   */
  lemma {:induction false} ImbalanceBounds(leftAvg: real, rightAvg: real)
    requires leftAvg >= 0.0 && rightAvg >= 0.0
    ensures leftAvg > 0.0 || rightAvg > 0.0 ==>
      && Imbalance(leftAvg, rightAvg).Finite?
      && -100.0 <= Imbalance(leftAvg, rightAvg).value <= 100.0
      && -100.0 <= RoundNumber2(Imbalance(leftAvg, rightAvg)).value <= 100.0
  {
    if leftAvg > 0.0 || rightAvg > 0.0 {
      ImbalanceWithin(leftAvg, rightAvg);
    }
  }

  lemma {:induction false} ImbalanceWithin(leftAvg: real, rightAvg: real)
    requires leftAvg >= 0.0 && rightAvg >= 0.0 && (leftAvg > 0.0 || rightAvg > 0.0)
    ensures Imbalance(leftAvg, rightAvg).Finite?
    ensures -100.0 <= Imbalance(leftAvg, rightAvg).value <= 100.0
    ensures -100.0 <= RoundNumber2(Imbalance(leftAvg, rightAvg)).value <= 100.0
  {
    var m := Max(leftAvg, rightAvg);
    var q := (leftAvg - rightAvg) / m;
    assert -m <= leftAvg - rightAvg <= m;
    QuotientWithinOne(leftAvg - rightAvg, m);
    Round2Within(q * 100.0, -100.0, 100.0);
  }

  /** A value no larger in size than a positive divisor gives a quotient from -1 to 1. */
  lemma {:induction false} QuotientWithinOne(a: real, m: real)
    requires m > 0.0 && -m <= a <= m
    ensures -1.0 <= a / m <= 1.0
  {
  }

  /** The response: one summary per key of `analysis`, in `Object.keys` order. */
  function Results(analysis: Dict<string, Totals>, keys: seq<string>): (r: seq<ExerciseResult>)
    requires forall k :: k in keys ==> k in analysis.vals && analysis.vals[k].count >= 1
    ensures |r| == |keys|
    ensures forall i :: 0 <= i < |keys| ==> r[i] == Summarize(keys[i], analysis.vals[keys[i]])
  {
    seq(|keys|, i requires 0 <= i < |keys| => Summarize(keys[i], analysis.vals[keys[i]]))
  }

  /**
   * The response `getImbalanceAnalysis` is meant to give for the user's
   * unilateral workouts `ws`: one summary per distinct title, whatever the title.
   */
  function ImbalanceAnalysis(ws: seq<UnilateralWorkout>): seq<ExerciseResult> {
    var analysis := Group(ws);
    GroupCountsPositive(ws);
    Results(analysis, OwnKeyOrder(analysis.keys))
  }

  /** The statistics of `getImbalanceAnalysis`, given the workouts the query returned. */

  /**
   * The response holds one result per distinct title, each title once; the
   * result of a title summarizes exactly that title's workouts, whose number
   * is its count.
   */
  lemma {:induction false} AnalysisPerExercise(ws: seq<UnilateralWorkout>)
    ensures Distinct(ExercisesOf(ImbalanceAnalysis(ws)))
    ensures forall t :: t in ExercisesOf(ImbalanceAnalysis(ws)) <==> t in Titles(ws)
    ensures forall r :: r in ImbalanceAnalysis(ws) ==>
      var t := ExerciseTotals(ws, r.exercise);
      t.count == multiset(Titles(ws))[r.exercise] >= 1 && r == Summarize(r.exercise, t)
  {
    var analysis := Group(ws);
    GroupIsPerExercise(ws);
    GroupCountsPositive(ws);
    OwnKeyOrderSpec(analysis.keys);
    var keys := OwnKeyOrder(analysis.keys);
    var rs := ImbalanceAnalysis(ws);
    assert ExercisesOf(rs) == keys;
    forall r | r in rs
      ensures var t := ExerciseTotals(ws, r.exercise);
        t.count == multiset(Titles(ws))[r.exercise] >= 1 && r == Summarize(r.exercise, t)
    {
      ExerciseCount(ws, r.exercise);
    }
  }

  /** The exercise names of the results, in order. */
  function ExercisesOf(rs: seq<ExerciseResult>): (r: seq<string>)
    ensures |r| == |rs| && forall i :: 0 <= i < |rs| ==> r[i] == rs[i].exercise
  {
    seq(|rs|, i requires 0 <= i < |rs| => rs[i].exercise)
  }

  /**
   * For the sums of one exercise with non-negative loads and repetitions:
   * the averages are non-negative; `strongerSide` is "left" exactly when the
   * left work exceeds the right, so less left work gives "right" and a
   * non-positive imbalance; unless both sides are zero the imbalance is a
   * percentage from -100 to 100.
   */
  lemma {:induction false} SummarySides(exercise: string, t: Totals)
    requires t.count >= 1 && NonNegativeTotals(t)
    ensures 0.0 <= Summarize(exercise, t).leftAvg && 0.0 <= Summarize(exercise, t).rightAvg
    ensures Summarize(exercise, t).strongerSide == Left <==> t.leftTotal > t.rightTotal
    ensures t.leftTotal < t.rightTotal ==>
      Summarize(exercise, t).imbalance.Finite? && Summarize(exercise, t).imbalance.value <= 0.0
    ensures t.leftTotal > 0.0 || t.rightTotal > 0.0 ==>
      Summarize(exercise, t).imbalance.Finite? && -100.0 <= Summarize(exercise, t).imbalance.value <= 100.0
  {
    var n := t.count as real;
    var l, rr := t.leftTotal / n, t.rightTotal / n;
    ImbalanceSign(l, rr);
    assert l > rr <==> t.leftTotal > t.rightTotal;
    assert l == 0.0 <==> t.leftTotal == 0.0;
    assert rr == 0.0 <==> t.rightTotal == 0.0;
    Round2Monotone(0.0, l);
    Round2Monotone(0.0, rr);
    assert Round2(0.0) == 0.0;
    ImbalanceBounds(l, rr);
    NegativeRoundsNonPositive(Imbalance(l, rr));
  }

  /** Equal positive totals give an imbalance of exactly zero. */
  lemma {:induction false} EqualTotalsBalanced(exercise: string, t: Totals)
    requires t.count >= 1 && t.leftTotal == t.rightTotal > 0.0
    ensures Summarize(exercise, t).imbalance == Finite(0.0)
  {
    var n := t.count as real;
    ImbalanceSign(t.leftTotal / n, t.rightTotal / n);
    assert Round2(0.0) == 0.0;
  }

  /** Rounding a negative value gives a value that is not positive. */
  lemma {:induction false} NegativeRoundsNonPositive(v: Number)
    ensures v.Finite? && v.value < 0.0 ==> RoundNumber2(v).value <= 0.0
  {
    if v.Finite? && v.value < 0.0 {
      Round2Monotone(v.value, 0.0);
      assert Round2(0.0) == 0.0;
    }
  }

  /** Every result summarizes a title whose sums are non-negative when the loads and repetitions are. */
  lemma {:induction false} AnalysisNonNegative(ws: seq<UnilateralWorkout>, r: ExerciseResult)
    requires forall i :: 0 <= i < |ws| ==> NonNegative(ws[i])
    requires r in ImbalanceAnalysis(ws)
    ensures ExerciseTotals(ws, r.exercise).count >= 1
    ensures NonNegativeTotals(ExerciseTotals(ws, r.exercise))
    ensures r == Summarize(r.exercise, ExerciseTotals(ws, r.exercise))
  {
    var t := ExerciseTotals(ws, r.exercise);
    AnalysisPerExercise(ws);
    assert t.count >= 1 && r == Summarize(r.exercise, t);
    ExerciseTotalsNonNegative(ws, r.exercise);
  }

  // ---------------------------------------------------------------------------
  // getImbalanceAnalysis as written: titles inherited from Object.prototype

  /**
   * The property names every plain object inherits from Object.prototype.
   * `analysis[title]` is already truthy for these, so no own entry is made.
   */
  const InheritedNames: set<string> := {
    "constructor", "__defineGetter__", "__defineSetter__", "hasOwnProperty",
    "__lookupGetter__", "__lookupSetter__", "isPrototypeOf", "propertyIsEnumerable",
    "toString", "valueOf", "__proto__", "toLocaleString"}

  /**
   * `analysis` after the `forEach` as the code is written: for an inherited
   * name the `+=` updates land on the inherited value, not on an own entry,
   * so the workout leaves no trace among the own keys.
   */
  function GroupAsWritten(ws: seq<UnilateralWorkout>): Dict<string, Totals>
    decreases |ws|
  {
    if ws == [] then Empty()
    else
      var analysis := GroupAsWritten(ws[..|ws| - 1]);
      var w := ws[|ws| - 1];
      if w.title in InheritedNames then analysis
      else Put(analysis, w.title, AddWorkout(TotalsOf(analysis, w.title), w))
  }

  /** One more workout, as the loop of `Accumulate` takes it. */
  lemma {:induction false} GroupAsWrittenStep(prefix: seq<UnilateralWorkout>, ws: seq<UnilateralWorkout>,
                                               w: UnilateralWorkout, analysis: Dict<string, Totals>)
    requires ws == prefix + [w] && analysis == GroupAsWritten(prefix)
    ensures GroupAsWritten(ws) ==
      if w.title in InheritedNames then analysis
      else Put(analysis, w.title, AddWorkout(TotalsOf(analysis, w.title), w))
  {
    assert ws[..|ws| - 1] == prefix;
  }

  /** The workouts whose titles are not inherited names, in order. */
  function WithoutInherited(ws: seq<UnilateralWorkout>): (r: seq<UnilateralWorkout>)
    ensures forall w :: w in r <==> w in ws && w.title !in InheritedNames
    decreases |ws|
  {
    if ws == [] then []
    else
      var w := ws[|ws| - 1];
      assert ws == ws[..|ws| - 1] + [w];
      WithoutInherited(ws[..|ws| - 1]) + (if w.title in InheritedNames then [] else [w])
  }

  /** As written, the grouping is that of the workouts with other titles. */
  lemma {:induction false} GroupAsWrittenSkipsInherited(ws: seq<UnilateralWorkout>)
    ensures GroupAsWritten(ws) == Group(WithoutInherited(ws))
    decreases |ws|
  {
    if ws != [] {
      var prefix := ws[..|ws| - 1];
      var w := ws[|ws| - 1];
      GroupAsWrittenSkipsInherited(prefix);
      if w.title !in InheritedNames {
        GroupStep(WithoutInherited(prefix), WithoutInherited(ws), w, Group(WithoutInherited(prefix)));
      } else {
        assert WithoutInherited(ws) == WithoutInherited(prefix) + [];
        assert WithoutInherited(prefix) + [] == WithoutInherited(prefix);
        assert GroupAsWritten(ws) == GroupAsWritten(prefix);
      }
    }
  }

  /** The response as the code is written. */
  function ImbalanceAnalysisAsWritten(ws: seq<UnilateralWorkout>): seq<ExerciseResult> {
    var analysis := GroupAsWritten(ws);
    GroupAsWrittenSkipsInherited(ws);
    GroupCountsPositive(WithoutInherited(ws));
    Results(analysis, OwnKeyOrder(analysis.keys))
  }

  /**
   * The statistics of `getImbalanceAnalysis`, given the workouts the query
   * returned: the response as the code is written, which is the intended
   * response for the workouts whose titles are not inherited names.
   */
  method GetImbalanceAnalysis(ws: seq<UnilateralWorkout>) returns (result: seq<ExerciseResult>)
    ensures result == ImbalanceAnalysisAsWritten(ws)
    ensures result == ImbalanceAnalysis(WithoutInherited(ws))
  {
    var analysis := Accumulate(ws);
    GroupCountsPositive(WithoutInherited(ws));
    result := Results(analysis, OwnKeyOrder(analysis.keys));
    AsWrittenDropsInheritedTitles(ws);
  }

  /**
   * As written, the response leaves out every exercise whose title is an
   * inherited name, and is otherwise the intended response.
   */
  lemma {:induction false} AsWrittenDropsInheritedTitles(ws: seq<UnilateralWorkout>)
    ensures ImbalanceAnalysisAsWritten(ws) == ImbalanceAnalysis(WithoutInherited(ws))
    ensures forall r :: r in ImbalanceAnalysisAsWritten(ws) ==> r.exercise !in InheritedNames
    ensures (forall i :: 0 <= i < |ws| ==> ws[i].title !in InheritedNames) ==>
      ImbalanceAnalysisAsWritten(ws) == ImbalanceAnalysis(ws)
  {
    GroupAsWrittenSkipsInherited(ws);
    AnalysisPerExercise(WithoutInherited(ws));
    forall r | r in ImbalanceAnalysisAsWritten(ws)
      ensures r.exercise !in InheritedNames
    {
      assert r.exercise in ExercisesOf(ImbalanceAnalysis(WithoutInherited(ws)));
    }
    if forall i :: 0 <= i < |ws| ==> ws[i].title !in InheritedNames {
      NothingInherited(ws);
    }
  }

  lemma {:induction false} NothingInherited(ws: seq<UnilateralWorkout>)
    requires forall i :: 0 <= i < |ws| ==> ws[i].title !in InheritedNames
    ensures WithoutInherited(ws) == ws
    decreases |ws|
  {
    if ws != [] {
      NothingInherited(ws[..|ws| - 1]);
      assert ws == ws[..|ws| - 1] + [ws[|ws| - 1]];
    }
  }

  /**
   * A single bench-press workout titled "toString": the intended response has
   * one result for it, the response as written has none.
   */
  lemma {:induction false} ToStringTitleDropped()
    ensures var ws := [UnilateralWorkout("toString", 50.0, 40.0, 10.0, 10.0)];
      |ImbalanceAnalysis(ws)| == 1 && ImbalanceAnalysisAsWritten(ws) == []
  {
    var ws := [UnilateralWorkout("toString", 50.0, 40.0, 10.0, 10.0)];
    assert ws[..0] == [];
    assert GroupAsWritten(ws) == Empty();
    assert Group(ws).keys == ["toString"];
  }
}
