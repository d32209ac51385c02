/**
 * The statistics on the home page (frontend/src/pages/Home.jsx): the number
 * of workouts and their total volume, computed from the list held by the
 * workouts context, which is null until it has been loaded.
 */
module Home {
  import opened JsObject
  import opened JsString
  import opened WorkoutDetails

  /** `workouts?.length || 0`. */
  function TotalWorkouts(workouts: Option<seq<Record>>): (n: nat)
    ensures workouts.None? ==> n == 0
    ensures workouts.Some? ==> n == |workouts.value|
  {
    if workouts.Some? then |workouts.value| else 0
  }

  /** The `reduce` callback's left fold from `sum`. */
  function FoldVolume(ws: seq<Record>, sum: real): real
    decreases |ws|
  {
    if ws == [] then sum else FoldVolume(ws[1..], sum + Volume(ws[0]))
  }

  /**
   * `workouts?.reduce(..., 0) || 0`: 0 for a list not yet loaded, otherwise
   * the sum of the cards' volumes.
   */
  function TotalVolume(workouts: Option<seq<Record>>): (v: real)
    ensures workouts.None? ==> v == 0.0
    ensures workouts.Some? ==> v == SumOfVolumes(workouts.value)
  {
    if workouts.Some? then
      FoldIsSum(workouts.value, 0.0);
      FoldVolume(workouts.value, 0.0)
    else 0.0
  }

  /** The sum of the volumes of a list, last element last. */
  function SumOfVolumes(ws: seq<Record>): real
    decreases |ws|
  {
    if ws == [] then 0.0 else SumOfVolumes(ws[..|ws| - 1]) + Volume(ws[|ws| - 1])
  }

  /** Folding from `sum` adds the sum of the volumes to it. */
  lemma {:induction false} FoldIsSum(ws: seq<Record>, sum: real)
    ensures FoldVolume(ws, sum) == sum + SumOfVolumes(ws)
    decreases |ws|
  {
    if ws != [] {
      FoldIsSum(ws[1..], sum + Volume(ws[0]));
      SumOfVolumesFront(ws);
    }
  }

  /** The sum of a non-empty list is its first volume plus the sum of the rest. */
  lemma {:induction false} SumOfVolumesFront(ws: seq<Record>)
    requires ws != []
    ensures SumOfVolumes(ws) == Volume(ws[0]) + SumOfVolumes(ws[1..])
    decreases |ws|
  {
    if |ws| > 1 {
      var front := ws[..|ws| - 1];
      SumOfVolumesFront(front);
      assert front[1..] == ws[1..][..|ws[1..]| - 1];
      assert front[0] == ws[0];
    } else {
      assert ws[..0] == [];
      assert ws[1..] == [];
    }
  }

  /**
   * An empty list totals 0, and one more workout adds exactly its volume.
   */
  lemma {:induction false} TotalVolumeIsSum(ws: seq<Record>, w: Record)
    ensures TotalVolume(Some([])) == 0.0
    ensures TotalVolume(Some(ws + [w])) == TotalVolume(Some(ws)) + Volume(w)
  {
    assert (ws + [w])[..|ws|] == ws;
  }

  /** Workouts with non-negative fields give a non-negative total. */
  lemma {:induction false} SumNonNegative(ws: seq<Record>)
    requires forall i :: 0 <= i < |ws| ==> WorkoutDetails.NonNegative(ws[i])
    ensures SumOfVolumes(ws) >= 0.0
    decreases |ws|
  {
    if ws != [] {
      SumNonNegative(ws[..|ws| - 1]);
    }
  }

  /** The header line and whether the statistics panel is shown. */
  datatype Header = Header(greeting: string, showStats: bool)

  const Welcome: string := "Ready to start your fitness journey?"

  function HeaderOf(workouts: Option<seq<Record>>): (h: Header)
    ensures h.showStats <==> workouts.Some? && workouts.value != []
    ensures h.greeting == Welcome <==> !h.showStats
  {
    var n := TotalWorkouts(workouts);
    assert ("You've logged " + NatToString(n) + " workouts")[0] == 'Y';
    Header(if n == 0 then Welcome else "You've logged " + NatToString(n) + " workouts", n > 0)
  }
}
