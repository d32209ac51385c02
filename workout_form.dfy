/**
 * `handleSubmit` of the workout form (frontend/src/components/WorkoutForm.jsx):
 * what the form does with its inputs when submitted, namely refuse without a
 * user, build the request body, flag the empty required fields, and choose
 * the rest the timer starts with after the workout is saved.
 *
 * The form's inputs are strings passed through `parseInt` / `parseFloat`; the
 * model receives the parsed values, with None standing for NaN.
 */
module WorkoutForm {
  import opened JsObject
  import opened JsString

  /** The form's inputs after parsing; None is NaN. */
  datatype Form = Form(
    title: string, sets: Option<int>, notes: string, unilateral: bool,
    load: Option<real>, reps: Option<int>,
    leftLoad: Option<real>, rightLoad: Option<real>, leftReps: Option<int>, rightReps: Option<int>)

  /** The body of the POST request. */
  datatype WorkoutData =
    | Bilateral(title: string, sets: int, notes: string, load: real, reps: int)
    | Unilateral(title: string, sets: int, notes: string,
        leftLoad: real, rightLoad: real, leftReps: int, rightReps: int)

  datatype Field = Title | Load | Reps | LeftLoad | RightLoad | LeftReps | RightReps {
    /** The name pushed onto `emptyFields`. */
    function Name(): string {
      match this
      case Title => "title"
      case Load => "load"
      case Reps => "reps"
      case LeftLoad => "leftLoad"
      case RightLoad => "rightLoad"
      case LeftReps => "leftReps"
      case RightReps => "rightReps"
    }

    /** The position of the field's check in `handleSubmit`. */
    function Rank(): nat {
      match this
      case Title => 0
      case Load => 1
      case Reps => 2
      case LeftLoad => 3
      case RightLoad => 4
      case LeftReps => 5
      case RightReps => 6
    }
  }

  datatype Outcome =
    | NotLoggedIn(error: string)
    | Rejected(error: string, emptyFields: seq<Field>)
    | Sent(data: WorkoutData, restTime: int)

  const LoginError: string := "You must be logged in"
  const FieldsError: string := "Please fill in all required fields"

  /** `parseFloat(x) || 0` and `parseInt(x) || 0`: NaN becomes 0. */
  function RealOrZero(v: Option<real>): real {
    if v.Some? then v.value else 0.0
  }

  function IntOrZero(v: Option<int>): int {
    if v.Some? then v.value else 0
  }

  /** `parseInt(sets) || 1`: NaN and 0 both become 1. */
  function SetsOrOne(v: Option<int>): (n: int)
    ensures n != 0
    ensures v.Some? && v.value != 0 ==> n == v.value
  {
    if v.Some? && v.value != 0 then v.value else 1
  }

  /** The required fields of a record, in the order they are checked. */
  function Required(unilateral: bool): seq<Field> {
    if unilateral then [Title, LeftLoad, RightLoad, LeftReps, RightReps] else [Title, Load, Reps]
  }

  /** A required field of the built record that is falsy: an empty title, or a number that is 0. */
  predicate Falsy(d: WorkoutData, field: Field) {
    match field
    case Title => d.title == []
    case Load => d.Bilateral? && d.load == 0.0
    case Reps => d.Bilateral? && d.reps == 0
    case LeftLoad => d.Unilateral? && d.leftLoad == 0.0
    case RightLoad => d.Unilateral? && d.rightLoad == 0.0
    case LeftReps => d.Unilateral? && d.leftReps == 0
    case RightReps => d.Unilateral? && d.rightReps == 0
  }

  /** No required field of the record is falsy. */
  predicate Complete(d: WorkoutData) {
    forall field :: field in Required(d.Unilateral?) ==> !Falsy(d, field)
  }

  /** Each field appears at most once and in the order of the checks. */
  predicate InCheckOrder(fields: seq<Field>) {
    forall i, j :: 0 <= i < j < |fields| ==> fields[i].Rank() < fields[j].Rank()
  }

  /**
   * The repetitions that decide the rest: for a unilateral record the larger
   * side, NaN (None) unless both sides parsed; otherwise the parsed reps.
   */
  function RepCount(f: Form): (r: Option<int>)
    ensures f.unilateral ==> (r.Some? <==> f.leftReps.Some? && f.rightReps.Some?)
    ensures f.unilateral && r.Some? ==>
      && r.value >= f.leftReps.value && r.value >= f.rightReps.value
      && (r.value == f.leftReps.value || r.value == f.rightReps.value)
    ensures !f.unilateral ==> r == f.reps
  {
    if f.unilateral then
      (if f.leftReps.Some? && f.rightReps.Some? then Some(Max(f.leftReps.value, f.rightReps.value)) else None)
    else f.reps
  }

  function Max(a: int, b: int): (m: int)
    ensures m >= a && m >= b && (m == a || m == b)
  {
    if a >= b then a else b
  }

  /** The rest in seconds: 180 up to 5 repetitions, 90 up to 12, else 60; NaN compares false, so 60. */
  function RestTimeFor(repCount: Option<int>): (t: int)
    ensures t == 60 || t == 90 || t == 180
    ensures repCount.None? ==> t == 60
  {
    if repCount.Some? && repCount.value <= 5 then 180
    else if repCount.Some? && repCount.value <= 12 then 90
    else 60
  }

  /** More repetitions never mean a longer rest. */
  lemma {:induction false} RestTimeNonIncreasing(a: int, b: int)
    requires a <= b
    ensures RestTimeFor(Some(a)) >= RestTimeFor(Some(b))
  {
  }

  /** A number taken from an input: the parsed value, or `zero` when it did not parse. */
  predicate ParsedOrZero<T(==)>(input: Option<T>, x: T, zero: T) {
    if input.Some? then x == input.value else x == zero
  }

  /**
   * The request body the form builds from its inputs: a unilateral record
   * exactly when the box is ticked, the trimmed title, a set count that is
   * never 0 and keeps any other parsed count, the notes as typed, and each
   * number of the record's kind parsed, or 0 when it did not parse.
   */
  function Body(f: Form): (d: WorkoutData)
    ensures d.Unilateral? <==> f.unilateral
    ensures d.title == Trim(f.title) && d.notes == f.notes
    ensures d.sets != 0 && (f.sets.Some? && f.sets.value != 0 ==> d.sets == f.sets.value)
    ensures d.Bilateral? ==> ParsedOrZero(f.load, d.load, 0.0) && ParsedOrZero(f.reps, d.reps, 0)
    ensures d.Unilateral? ==>
      && ParsedOrZero(f.leftLoad, d.leftLoad, 0.0) && ParsedOrZero(f.rightLoad, d.rightLoad, 0.0)
      && ParsedOrZero(f.leftReps, d.leftReps, 0) && ParsedOrZero(f.rightReps, d.rightReps, 0)
  {
    var title := Trim(f.title);
    var sets := SetsOrOne(f.sets);
    if f.unilateral then
      Unilateral(title, sets, f.notes, RealOrZero(f.leftLoad), RealOrZero(f.rightLoad),
        IntOrZero(f.leftReps), IntOrZero(f.rightReps))
    else Bilateral(title, sets, f.notes, RealOrZero(f.load), IntOrZero(f.reps))
  }

  /** The fields of `fields` that are falsy in the record, in the order given. */
  function Flagged(fields: seq<Field>, d: WorkoutData): seq<Field>
    decreases |fields|
  {
    if fields == [] then []
    else
      var last := fields[|fields| - 1];
      Flagged(fields[..|fields| - 1], d) + FlagIf(d, last)
  }

  /**
   * Flagging keeps exactly the falsy fields and, from a list in check order,
   * yields a list in check order.
   */
  lemma {:induction false} FlaggedSpec(fields: seq<Field>, d: WorkoutData)
    requires InCheckOrder(fields)
    ensures forall field :: field in Flagged(fields, d) <==> field in fields && Falsy(d, field)
    ensures InCheckOrder(Flagged(fields, d))
    decreases |fields|
  {
    if fields != [] {
      var front := fields[..|fields| - 1];
      var last := fields[|fields| - 1];
      assert fields == front + [last];
      assert InCheckOrder(front);
      FlaggedSpec(front, d);
      assert forall j :: 0 <= j < |front| ==> front[j].Rank() < last.Rank() by {
        assert forall j :: 0 <= j < |front| ==> fields[j] == front[j];
      }
      FlaggedAppend(front, last, d);
      FlagStep(Flagged(front, d), front, last, d);
    }
  }

  /** Flagging the last field of a list in check order keeps the flagged fields in check order. */
  lemma {:induction false} FlagStep(r: seq<Field>, front: seq<Field>, last: Field, d: WorkoutData)
    requires InCheckOrder(r)
    requires forall field :: field in r <==> field in front && Falsy(d, field)
    requires forall j :: 0 <= j < |front| ==> front[j].Rank() < last.Rank()
    ensures InCheckOrder(r + FlagIf(d, last))
    ensures forall field :: field in r + FlagIf(d, last) <==> field in front + [last] && Falsy(d, field)
  {
    forall i | 0 <= i < |r|
      ensures r[i].Rank() < last.Rank()
    {
      assert r[i] in front;
      var j :| 0 <= j < |front| && front[j] == r[i];
    }
    if Falsy(d, last) {
      assert r + FlagIf(d, last) == r + [last];
    } else {
      assert r + FlagIf(d, last) == r;
    }
  }

  lemma {:induction false} RequiredInCheckOrder(unilateral: bool)
    ensures InCheckOrder(Required(unilateral))
  {
  }

  /** Flagging one more field appends it exactly when it is falsy. */
  lemma {:induction false} FlaggedAppend(fields: seq<Field>, field: Field, d: WorkoutData)
    ensures Flagged(fields + [field], d) == Flagged(fields, d) + FlagIf(d, field)
  {
    assert (fields + [field])[..|fields|] == fields;
  }

  /** The one-field list when the field is falsy, else nothing. */
  function FlagIf(d: WorkoutData, field: Field): seq<Field> {
    if Falsy(d, field) then [field] else []
  }

  /** The required fields of a two-sided record, flagged one check at a time. */
  lemma {:induction false} FlaggedBilateral(d: WorkoutData)
    ensures Flagged(Required(false), d) == FlagIf(d, Title) + FlagIf(d, Load) + FlagIf(d, Reps)
  {
    FlaggedAppend([], Title, d);
    FlaggedAppend([Title], Load, d);
    FlaggedAppend([Title, Load], Reps, d);
    assert [] + [Title] == [Title];
    assert [Title] + [Load] == [Title, Load];
    assert [Title, Load] + [Reps] == Required(false);
  }

  /** The required fields of a one-sided record, flagged one check at a time. */
  lemma {:induction false} FlaggedUnilateral(d: WorkoutData)
    ensures Flagged(Required(true), d) ==
      FlagIf(d, Title) + FlagIf(d, LeftLoad) + FlagIf(d, RightLoad) + FlagIf(d, LeftReps) + FlagIf(d, RightReps)
  {
    FlaggedAppend([], Title, d);
    FlaggedAppend([Title], LeftLoad, d);
    FlaggedAppend([Title, LeftLoad], RightLoad, d);
    FlaggedAppend([Title, LeftLoad, RightLoad], LeftReps, d);
    FlaggedAppend([Title, LeftLoad, RightLoad, LeftReps], RightReps, d);
    assert [] + [Title] == [Title];
    assert [Title] + [LeftLoad] == [Title, LeftLoad];
    assert [Title, LeftLoad] + [RightLoad] == [Title, LeftLoad, RightLoad];
    assert [Title, LeftLoad, RightLoad] + [LeftReps] == [Title, LeftLoad, RightLoad, LeftReps];
    assert [Title, LeftLoad, RightLoad, LeftReps] + [RightReps] == Required(true);
  }

  /** The validation: the required fields that are falsy, in the order they are checked. */
  method CollectEmptyFields(data: WorkoutData) returns (emptyFields: seq<Field>)
    ensures emptyFields == Flagged(Required(data.Unilateral?), data)
  {
    emptyFields := [];
    if data.title == [] {
      emptyFields := emptyFields + [Title];
    }
    ghost var checks := FlagIf(data, Title);
    assert emptyFields == checks;
    if !data.Unilateral? {
      if data.load == 0.0 {
        emptyFields := emptyFields + [Load];
      }
      checks := checks + FlagIf(data, Load);
      assert emptyFields == checks;
      if data.reps == 0 {
        emptyFields := emptyFields + [Reps];
      }
      checks := checks + FlagIf(data, Reps);
      assert emptyFields == checks;
      FlaggedBilateral(data);
    } else {
      if data.leftLoad == 0.0 {
        emptyFields := emptyFields + [LeftLoad];
      }
      checks := checks + FlagIf(data, LeftLoad);
      assert emptyFields == checks;
      if data.rightLoad == 0.0 {
        emptyFields := emptyFields + [RightLoad];
      }
      checks := checks + FlagIf(data, RightLoad);
      assert emptyFields == checks;
      if data.leftReps == 0 {
        emptyFields := emptyFields + [LeftReps];
      }
      checks := checks + FlagIf(data, LeftReps);
      assert emptyFields == checks;
      if data.rightReps == 0 {
        emptyFields := emptyFields + [RightReps];
      }
      checks := checks + FlagIf(data, RightReps);
      assert emptyFields == checks;
      FlaggedUnilateral(data);
    }
  }

  /** `handleSubmit`, up to the request, and the rest time set once the request succeeds. */
  method HandleSubmit(loggedIn: bool, f: Form) returns (outcome: Outcome)
    ensures !loggedIn <==> outcome == NotLoggedIn(LoginError)
    ensures loggedIn ==> (outcome.Rejected? <==> Flagged(Required(f.unilateral), Body(f)) != [])
    ensures outcome.Rejected? ==>
      outcome.error == FieldsError && outcome.emptyFields == Flagged(Required(f.unilateral), Body(f))
    ensures outcome.Sent? <==> loggedIn && Flagged(Required(f.unilateral), Body(f)) == []
    ensures outcome.Sent? ==> outcome.data == Body(f) && outcome.restTime == RestTimeFor(RepCount(f))
  {
    if !loggedIn {
      return NotLoggedIn(LoginError);
    }
    var data := Body(f);
    var emptyFields := CollectEmptyFields(data);
    if |emptyFields| > 0 {
      return Rejected(FieldsError, emptyFields);
    }
    var restTime := 60;
    var repCount := RepCount(f);
    if repCount.Some? && repCount.value <= 5 {
      restTime := 180;
    } else if repCount.Some? && repCount.value <= 12 {
      restTime := 90;
    }
    outcome := Sent(data, restTime);
  }

  /**
   * The fields a submission is rejected for are exactly the required fields
   * that are falsy, each once and in the order of the checks; there are none
   * exactly when the record is complete.
   */
  lemma {:induction false} EmptyFieldsSpec(f: Form)
    ensures var fields := Flagged(Required(f.unilateral), Body(f));
      && InCheckOrder(fields)
      && (forall field :: field in fields <==> field in Required(f.unilateral) && Falsy(Body(f), field))
      && (fields == [] <==> Complete(Body(f)))
  {
    FlaggedFields(Body(f));
  }

  lemma {:induction false} FlaggedFields(d: WorkoutData)
    ensures var fields := Flagged(Required(d.Unilateral?), d);
      && InCheckOrder(fields)
      && (forall field :: field in fields <==> field in Required(d.Unilateral?) && Falsy(d, field))
      && (fields == [] <==> Complete(d))
  {
    var fields := Flagged(Required(d.Unilateral?), d);
    RequiredInCheckOrder(d.Unilateral?);
    FlaggedSpec(Required(d.Unilateral?), d);
    if fields != [] {
      assert fields[0] in fields;
    }
  }

  /**
   * A record that is sent has a non-blank title with no surrounding white
   * space, a non-zero set count, non-zero values in every required number
   * field, and, unilateral, a rest decided by the larger of the two rep counts.
   */
  lemma {:induction false} SentRecordComplete(f: Form)
    requires Complete(Body(f))
    ensures var d := Body(f);
      && d.title != [] && !IsWhiteSpace(d.title[0]) && !IsWhiteSpace(d.title[|d.title| - 1])
      && d.sets != 0
      && (d.Bilateral? ==> d.load != 0.0 && d.reps != 0 && RepCount(f) == Some(d.reps))
      && (d.Unilateral? ==>
            d.leftLoad != 0.0 && d.rightLoad != 0.0 && d.leftReps != 0 && d.rightReps != 0 &&
            RepCount(f) == Some(Max(d.leftReps, d.rightReps)))
  {
    var d := Body(f);
    assert d.Unilateral? == f.unilateral;
    assert !Falsy(d, Title);
    var i, j := TrimIsInnerSlice(f.title);
    if f.unilateral {
      assert !Falsy(d, LeftLoad) && !Falsy(d, RightLoad);
      assert !Falsy(d, LeftReps) && !Falsy(d, RightReps);
    } else {
      assert !Falsy(d, Load) && !Falsy(d, Reps);
    }
  }
}
