/**
 * The training volume a workout card shows (`calculateVolume` in
 * frontend/src/components/WorkoutDetails.jsx): load times reps times sets,
 * where a one-sided workout adds the work of its two sides.
 */
module WorkoutDetails {

  /** A stored workout as the client receives it; numbers are finite. */
  datatype Record = Record(
    unilateral: bool, load: real, reps: real, sets: real,
    leftLoad: real, rightLoad: real, leftReps: real, rightReps: real)

  /**
   * `calculateVolume`. Non-negative fields give a non-negative volume, and
   * no sets give none.
   */
  function Volume(w: Record): (v: real)
    ensures NonNegative(w) ==> v >= 0.0
    ensures w.sets == 0.0 ==> v == 0.0
  {
    assert NonNegative(w) ==>
      w.leftLoad * w.leftReps >= 0.0 && w.rightLoad * w.rightReps >= 0.0 && w.load * w.reps >= 0.0;
    if w.unilateral then (w.leftLoad * w.leftReps + w.rightLoad * w.rightReps) * w.sets
    else w.load * w.reps * w.sets
  }

  /** The record with its left and right fields exchanged. */
  function Swapped(w: Record): Record {
    w.(leftLoad := w.rightLoad, rightLoad := w.leftLoad, leftReps := w.rightReps, rightReps := w.leftReps)
  }

  /** The volume does not depend on which side is called left. */
  lemma {:induction false} SwapKeepsVolume(w: Record)
    ensures Volume(Swapped(w)) == Volume(w)
  {
  }

  /** Every numeric field is at least 0. */
  predicate NonNegative(w: Record) {
    w.load >= 0.0 && w.reps >= 0.0 && w.sets >= 0.0 &&
    w.leftLoad >= 0.0 && w.rightLoad >= 0.0 && w.leftReps >= 0.0 && w.rightReps >= 0.0
  }

  /**
   * A one-sided workout's volume depends only on its side fields and sets,
   * a two-sided workout's only on load, reps and sets.
   */
  lemma {:induction false} VolumeIgnoresOtherFields(w: Record, v: Record)
    requires w.unilateral == v.unilateral && w.sets == v.sets
    ensures (w.unilateral && w.leftLoad == v.leftLoad && w.rightLoad == v.rightLoad &&
             w.leftReps == v.leftReps && w.rightReps == v.rightReps) ==> Volume(w) == Volume(v)
    ensures !w.unilateral && w.load == v.load && w.reps == v.reps ==> Volume(w) == Volume(v)
  {
  }

  /** The volume grows with the sets by the work of one set. */
  lemma {:induction false} VolumePerSet(w: Record)
    ensures Volume(w.(sets := w.sets + 1.0)) == Volume(w) + Volume(w.(sets := 1.0))
  {
    if w.unilateral {
      var s := w.leftLoad * w.leftReps + w.rightLoad * w.rightReps;
      assert s * (w.sets + 1.0) == s * w.sets + s;
    } else {
      var s := w.load * w.reps;
      assert s * (w.sets + 1.0) == s * w.sets + s;
    }
  }
}
