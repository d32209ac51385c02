/**
 * `workoutReducer` of the workouts context (frontend/src/contexts/WorkoutContext.jsx):
 * the client-side list of the user's workouts, replaced, extended, filtered
 * and rewritten by four kinds of action. The list starts out as null and may
 * be set to null again; the three actions that read it then throw a
 * TypeError, which the model makes an explicit outcome.
 */
module WorkoutContext {
  import opened JsObject

  /** A workout as the client holds it; only `_id` is inspected. */
  datatype Workout = Workout(id: string, title: string)

  /** The context state `{ workouts }`: None is null. */
  datatype State = State(workouts: Option<seq<Workout>>)

  datatype Action =
    | SetWorkouts(list: Option<seq<Workout>>)
    | CreateWorkout(created: Workout)
    | DeleteWorkout(deleted: Workout)
    | UpdateWorkout(updated: Workout)
    | UnknownAction

  /** The reducer returns a new state, or throws when it reads a null list. */
  datatype Outcome = Next(state: State) | TypeError

  /** `workouts.filter(w => w._id !== id)`. */
  function Without(ws: seq<Workout>, id: string): (r: seq<Workout>)
    ensures |r| <= |ws|
    decreases |ws|
  {
    if ws == [] then []
    else Without(ws[..|ws| - 1], id) + (if ws[|ws| - 1].id == id then [] else [ws[|ws| - 1]])
  }

  /** `workouts.map(w => w._id === u._id ? u : w)`. */
  function Replace(ws: seq<Workout>, u: Workout): seq<Workout> {
    seq(|ws|, i requires 0 <= i < |ws| => if ws[i].id == u.id then u else ws[i])
  }

  function Reduce(s: State, a: Action): (r: Outcome)
    ensures a.SetWorkouts? ==> r == Next(State(a.list))
    ensures (a.CreateWorkout? || a.DeleteWorkout? || a.UpdateWorkout?) ==> (r.TypeError? <==> s.workouts.None?)
    ensures a.CreateWorkout? && s.workouts.Some? ==>
      r.Next? && r.state.workouts.Some? &&
      var ws := r.state.workouts.value;
      |ws| == |s.workouts.value| + 1 && ws[0] == a.created && ws[1..] == s.workouts.value
    ensures a.DeleteWorkout? && s.workouts.Some? ==>
      r.Next? && r.state.workouts.Some? &&
      forall w :: w in r.state.workouts.value <==> w in s.workouts.value && w.id != a.deleted.id
    ensures a.UpdateWorkout? && s.workouts.Some? ==>
      r.Next? && r.state.workouts.Some? &&
      var ws := r.state.workouts.value;
      |ws| == |s.workouts.value| &&
      forall i :: 0 <= i < |ws| ==>
        (s.workouts.value[i].id == a.updated.id ==> ws[i] == a.updated) &&
        (s.workouts.value[i].id != a.updated.id ==> ws[i] == s.workouts.value[i])
    ensures a.UnknownAction? ==> r == Next(s)
  {
    match a
    case SetWorkouts(list) => Next(State(list))
    case CreateWorkout(w) =>
      if s.workouts.None? then TypeError else Next(State(Some([w] + s.workouts.value)))
    case DeleteWorkout(w) =>
      if s.workouts.None? then TypeError
      else WithoutMembers(s.workouts.value, w.id); Next(State(Some(Without(s.workouts.value, w.id))))
    case UpdateWorkout(w) =>
      if s.workouts.None? then TypeError else Next(State(Some(Replace(s.workouts.value, w))))
    case UnknownAction => Next(s)
  }

  /** Filtering distributes over concatenation, so the survivors keep their order. */
  lemma {:induction false} WithoutAppend(a: seq<Workout>, b: seq<Workout>, id: string)
    ensures Without(a + b, id) == Without(a, id) + Without(b, id)
    decreases |b|
  {
    if b == [] {
      assert a + b == a;
    } else {
      var b' := b[..|b| - 1];
      var last := b[|b| - 1];
      assert (a + b)[..|a + b| - 1] == a + b';
      assert b[..|b| - 1] == b';
      WithoutAppend(a, b', id);
    }
  }

  /** Every copy of a surviving workout survives; every copy with the id is gone. */
  lemma {:induction false} WithoutMultiplicity(ws: seq<Workout>, id: string, w: Workout)
    ensures multiset(Without(ws, id))[w] == if w.id == id then 0 else multiset(ws)[w]
    decreases |ws|
  {
    if ws != [] {
      var prefix, last := ws[..|ws| - 1], ws[|ws| - 1];
      WithoutMultiplicity(prefix, id, w);
      assert ws == prefix + [last];
      var rest := Without(prefix, id);
      if last.id == id {
        assert Without(ws, id) == rest;
      } else {
        assert Without(ws, id) == rest + [last];
        assert multiset(Without(ws, id)) == multiset(rest) + multiset{last};
      }
    }
  }

  /** The survivors are exactly the workouts of another id. */
  lemma {:induction false} WithoutMembers(ws: seq<Workout>, id: string)
    ensures forall w :: w in Without(ws, id) <==> w in ws && w.id != id
  {
    forall w
      ensures w in Without(ws, id) <==> w in ws && w.id != id
    {
      WithoutMultiplicity(ws, id, w);
      assert w in Without(ws, id) <==> w in multiset(Without(ws, id));
      assert w in ws <==> w in multiset(ws);
    }
  }

  /** Deleting a workout whose id is absent leaves the list as it was. */
  lemma {:induction false} WithoutAbsent(ws: seq<Workout>, id: string)
    requires forall i :: 0 <= i < |ws| ==> ws[i].id != id
    ensures Without(ws, id) == ws
    decreases |ws|
  {
    if ws != [] {
      WithoutAbsent(ws[..|ws| - 1], id);
      assert ws == ws[..|ws| - 1] + [ws[|ws| - 1]];
    }
  }

  /** Deleting the same workout twice is deleting it once. */
  lemma {:induction false} DeleteIdempotent(s: State, w: Workout)
    requires s.workouts.Some?
    ensures Reduce(s, DeleteWorkout(w)).Next?
    ensures Reduce(Reduce(s, DeleteWorkout(w)).state, DeleteWorkout(w)) == Reduce(s, DeleteWorkout(w))
  {
    var once := Without(s.workouts.value, w.id);
    WithoutMembers(s.workouts.value, w.id);
    forall i | 0 <= i < |once|
      ensures once[i].id != w.id
    {
      assert once[i] in once;
    }
    WithoutAbsent(once, w.id);
  }

  /** Deleting a workout that is not in the list changes nothing. */
  lemma {:induction false} DeleteAbsent(s: State, w: Workout)
    requires s.workouts.Some?
    requires forall i :: 0 <= i < |s.workouts.value| ==> s.workouts.value[i].id != w.id
    ensures Reduce(s, DeleteWorkout(w)) == Next(s)
  {
    WithoutAbsent(s.workouts.value, w.id);
  }

  /** Updating with an id that is not in the list changes nothing. */
  lemma {:induction false} UpdateAbsent(s: State, w: Workout)
    requires s.workouts.Some?
    requires forall i :: 0 <= i < |s.workouts.value| ==> s.workouts.value[i].id != w.id
    ensures Reduce(s, UpdateWorkout(w)) == Next(s)
  {
    assert Replace(s.workouts.value, w) == s.workouts.value;
  }

  /** Creating and then deleting a workout with a fresh id restores the list. */
  lemma {:induction false} CreateThenDelete(s: State, w: Workout)
    requires s.workouts.Some?
    requires forall i :: 0 <= i < |s.workouts.value| ==> s.workouts.value[i].id != w.id
    ensures Reduce(s, CreateWorkout(w)).Next?
    ensures Reduce(Reduce(s, CreateWorkout(w)).state, DeleteWorkout(w)) == Next(s)
  {
    var ws := s.workouts.value;
    var created := State(Some([w] + ws));
    assert Reduce(s, CreateWorkout(w)) == Next(created);
    assert Reduce(created, DeleteWorkout(w)) == Next(State(Some(Without([w] + ws, w.id))));
    WithoutAppend([w], ws, w.id);
    assert Without([w], w.id) == [] by {
      assert [w][..0] == [];
    }
    WithoutAbsent(ws, w.id);
    assert Without([w] + ws, w.id) == ws;
    assert s == State(Some(ws));
  }
}
