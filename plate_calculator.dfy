/**
 * The barbell plate solver (frontend/src/utils/plateCalculator.js).
 *
 * `calculatePlates` splits the load above the bar between the two sides and
 * fills one side greedily, largest denomination first, rounding the
 * remainder to hundredths after every plate. `formatPlateDisplay` groups the
 * plates into "{count}x{plate}kg" entries, listed in the key order of the
 * JavaScript object that counts them.
 */
module PlateCalculator {
  import opened JsNumber
  import opened JsString
  import opened JsObject

  /** The defaults of `calculatePlates`' parameters; the widget also starts with the 20 kg bar. */
  const DefaultBarWeight: real := 20.0
  const DefaultPlates: seq<real> := [25.0, 20.0, 15.0, 10.0, 5.0, 2.5, 1.25]

  /**
   * Denominations for which the greedy loop ends: each plate taken lowers the
   * remainder by more than rounding to hundredths can add back.
   */
  predicate Terminating(ps: seq<real>) {
    forall i :: 0 <= i < |ps| ==> ps[i] > 1.0 / 200.0
  }

  predicate SortedDesc(s: seq<real>) {
    forall i, j :: 0 <= i < j < |s| ==> s[i] >= s[j]
  }

  // ---------------------------------------------------------------------------
  // `availablePlates.sort((a, b) => b - a)`

  function InsertDesc(x: real, s: seq<real>): (r: seq<real>)
    requires SortedDesc(s)
    ensures SortedDesc(r)
    ensures multiset(r) == multiset(s) + multiset{x}
    ensures |r| == |s| + 1
  {
    if s == [] || x >= s[0] then
      assert forall j :: 0 <= j < |s| ==> x >= s[j] by {
        if s != [] {
          assert forall j :: 0 <= j < |s| ==> s[0] >= s[j];
        }
      }
      ConsDesc(x, s);
      [x] + s
    else
      var rest := InsertDesc(x, s[1..]);
      AboveAll(s[0], x, s[1..], rest);
      ConsDesc(s[0], rest);
      assert s == [s[0]] + s[1..];
      [s[0]] + rest
  }

  /** A number not below any number of a descending list can go in front of it. */
  lemma {:induction false} ConsDesc(head: real, rest: seq<real>)
    requires SortedDesc(rest)
    requires forall j :: 0 <= j < |rest| ==> head >= rest[j]
    ensures SortedDesc([head] + rest)
  {
    var r := [head] + rest;
    forall i, j | 0 <= i < j < |r|
      ensures r[i] >= r[j]
    {
      assert r[j] == rest[j - 1];
      if i > 0 {
        assert r[i] == rest[i - 1];
      }
    }
  }

  /** A number not below `x` nor below any number of `tail` is not below any number of `tail` with `x` added. */
  lemma {:induction false} AboveAll(head: real, x: real, tail: seq<real>, rest: seq<real>)
    requires head >= x
    requires forall j :: 0 <= j < |tail| ==> head >= tail[j]
    requires multiset(rest) == multiset(tail) + multiset{x}
    ensures forall j :: 0 <= j < |rest| ==> head >= rest[j]
  {
    forall j | 0 <= j < |rest|
      ensures head >= rest[j]
    {
      assert rest[j] in multiset(rest);
      if rest[j] != x {
        assert rest[j] in multiset(tail);
        var i :| 0 <= i < |tail| && tail[i] == rest[j];
      }
    }
  }

  /** The denominations, largest first. */
  function SortDesc(s: seq<real>): (r: seq<real>)
    ensures SortedDesc(r)
    ensures multiset(r) == multiset(s)
    ensures |r| == |s|
  {
    if s == [] then []
    else
      assert s == [s[0]] + s[1..];
      InsertDesc(s[0], SortDesc(s[1..]))
  }

  /**
   * There is only one descending arrangement of a collection of numbers, so
   * `SortDesc` is what any correct sort with the comparator `b - a` leaves in
   * the array.
   */
  lemma {:induction false} SortedPermutationUnique(a: seq<real>, b: seq<real>)
    requires SortedDesc(a) && SortedDesc(b)
    requires multiset(a) == multiset(b)
    ensures a == b
  {
    if a == [] {
      assert |multiset(b)| == 0;
    } else {
      SameHead(a, b);
      SameTailMembers(a, b);
      SortedPermutationUnique(a[1..], b[1..]);
      assert a == [a[0]] + a[1..];
      assert b == [b[0]] + b[1..];
    }
  }

  /** Two descending arrangements of one collection start with the same, largest, number. */
  lemma {:induction false} SameHead(a: seq<real>, b: seq<real>)
    requires SortedDesc(a) && SortedDesc(b) && a != []
    requires multiset(a) == multiset(b)
    ensures b != [] && a[0] == b[0]
  {
    assert a[0] in multiset(b);
    assert b != [];
    assert b[0] in multiset(a);
    LargestFirst(a, b[0]);
    LargestFirst(b, a[0]);
  }

  /** Taking the same first number from one collection leaves one collection. */
  lemma {:induction false} SameTailMembers(a: seq<real>, b: seq<real>)
    requires a != [] && b != [] && a[0] == b[0]
    requires multiset(a) == multiset(b)
    ensures multiset(a[1..]) == multiset(b[1..])
  {
    assert a == [a[0]] + a[1..];
    assert b == [b[0]] + b[1..];
    assert multiset(a) == multiset{a[0]} + multiset(a[1..]);
    assert multiset(b) == multiset{b[0]} + multiset(b[1..]);
    assert multiset(a[1..]) == multiset(a) - multiset{a[0]};
    assert multiset(b[1..]) == multiset(b) - multiset{b[0]};
  }

  lemma {:induction false} LargestFirst(s: seq<real>, x: real)
    requires SortedDesc(s) && x in s
    ensures s[0] >= x
  {
    var i :| 0 <= i < |s| && s[i] == x;
    if i > 0 {
      assert s[0] >= s[i];
    }
  }

  lemma {:induction false} SameMembers(a: seq<real>, b: seq<real>)
    requires multiset(a) == multiset(b)
    ensures forall x :: x in a <==> x in b
  {
    forall x
      ensures x in a <==> x in b
    {
      assert x in a <==> x in multiset(a);
      assert x in b <==> x in multiset(b);
    }
  }

  lemma {:induction false} TerminatingSorted(s: seq<real>)
    requires Terminating(s)
    ensures Terminating(SortDesc(s))
  {
    var r := SortDesc(s);
    forall i | 0 <= i < |r|
      ensures r[i] > 1.0 / 200.0
    {
      assert r[i] in multiset(r);
      assert r[i] in s;
    }
  }

  // ---------------------------------------------------------------------------
  // The greedy loop

  /** The plates put on one side, and the weight per side still left over. */
  datatype Loading = Loading(plates: seq<real>, remainder: real)

  /** The number of whole hundredths in w, rounded up: the measure the loop lowers. */
  function CeilHundredths(w: real): int {
    -((-100.0 * w).Floor)
  }

  lemma {:induction false} CeilHundredthsOfRounded(x: real)
    ensures CeilHundredths(Round2(x)) == (100.0 * x + 0.5).Floor
  {
    var n := (100.0 * x + 0.5).Floor;
    assert -100.0 * Round2(x) == (-n) as real;
  }

  /** `while (weightPerSide >= plate) { plates.push(plate); weightPerSide = round2(weightPerSide - plate) }` */
  function Fill(w: real, p: real): (r: Loading)
    requires p > 1.0 / 200.0
    ensures forall i :: 0 <= i < |r.plates| ==> r.plates[i] == p
    ensures r.remainder < p && r.remainder <= w
    ensures w >= 0.0 ==> r.remainder >= 0.0
    decreases CeilHundredths(w)
  {
    if w >= p then
      var next := Round2(w - p);
      CeilHundredthsOfRounded(w - p);
      assert (100.0 * (w - p) + 0.5).Floor as real <= 100.0 * (w - p) + 0.5;
      var rest := Fill(next, p);
      Loading([p] + rest.plates, rest.remainder)
    else Loading([], w)
  }

  /** The forEach over the denominations, in the order given. */
  function Greedy(w: real, ps: seq<real>): (r: Loading)
    requires Terminating(ps)
    ensures forall x :: x in r.plates ==> x in ps
    ensures r.remainder <= w
    ensures w >= 0.0 ==> r.remainder >= 0.0
    ensures forall p :: p in ps ==> r.remainder < p
    decreases |ps|
  {
    if ps == [] then Loading([], w)
    else
      assert ps[0] in ps;
      assert forall p :: p in ps[1..] ==> p in ps;
      var first := Fill(w, ps[0]);
      var rest := Greedy(first.remainder, ps[1..]);
      assert forall x :: x in first.plates ==> x == ps[0];
      assert forall p :: p in ps ==> p == ps[0] || p in ps[1..];
      Loading(first.plates + rest.plates, rest.remainder)
  }

  /** The inner loop takes a plate of the first denomination while it fits, rounding what is left. */
  lemma {:induction false} GreedyTake(w: real, p: real, ps: seq<real>)
    requires Terminating(ps) && ps != [] && p == ps[0] && w >= p
    ensures CeilHundredths(Round2(w - p)) < CeilHundredths(w)
    ensures Greedy(w, ps).plates == [p] + Greedy(Round2(w - p), ps).plates
    ensures Greedy(w, ps).remainder == Greedy(Round2(w - p), ps).remainder
  {
    assert p in ps;
    CeilHundredthsOfRounded(w - p);
    assert (100.0 * (w - p) + 0.5).Floor as real <= 100.0 * (w - p) + 0.5;
    var next := Round2(w - p);
    assert Fill(w, p).plates == [p] + Fill(next, p).plates;
    assert forall q :: q in ps[1..] ==> q in ps;
  }

  /** Once the first denomination no longer fits, the loop moves on to the next. */
  lemma {:induction false} GreedySkip(w: real, ps: seq<real>)
    requires Terminating(ps) && ps != [] && w < ps[0]
    ensures Terminating(ps[1..])
    ensures Greedy(w, ps) == Greedy(w, ps[1..])
  {
    assert ps[0] in ps;
    assert forall q :: q in ps[1..] ==> q in ps;
  }

  /** When no denomination fits, the loop takes nothing. */
  lemma {:induction false} NothingFits(w: real, ps: seq<real>)
    requires Terminating(ps)
    requires forall p :: p in ps ==> w < p
    ensures Greedy(w, ps) == Loading([], w)
    decreases |ps|
  {
    if ps != [] {
      assert ps[0] in ps;
      assert forall p :: p in ps[1..] ==> p in ps;
      NothingFits(w, ps[1..]);
    }
  }

  /** The load on each side of the bar. */
  function PerSide(totalWeight: real, barWeight: real): real {
    (totalWeight - barWeight) / 2.0
  }

  /** What `calculatePlates(totalWeight, barWeight, availablePlates)` returns. */
  function PlatesFor(totalWeight: real, barWeight: real, availablePlates: seq<real>): seq<real>
    requires totalWeight > barWeight ==> Terminating(availablePlates)
  {
    if totalWeight <= barWeight then []
    else
      var sorted := SortDesc(availablePlates);
      TerminatingSorted(availablePlates);
      Greedy(PerSide(totalWeight, barWeight), sorted).plates
  }

  /** The weight per side left unloaded by `calculatePlates`. */
  function RemainderFor(totalWeight: real, barWeight: real, availablePlates: seq<real>): real
    requires totalWeight > barWeight ==> Terminating(availablePlates)
  {
    if totalWeight <= barWeight then 0.0
    else
      var sorted := SortDesc(availablePlates);
      TerminatingSorted(availablePlates);
      Greedy(PerSide(totalWeight, barWeight), sorted).remainder
  }

  /** `a.sort((x, y) => y - x)`: the array is left holding its numbers largest first. */
  method SortDescending(a: array<real>)
    modifies a
    ensures a[..] == SortDesc(old(a[..]))
  {
    var sorted := SortDesc(a[..]);
    forall k | 0 <= k < a.Length {
      a[k] := sorted[k];
    }
  }

  /**
   * The `forEach` over the sorted denominations with its inner `while`: it
   * returns the plates the greedy fill takes from `weightPerSide`.
   */
  method LoadSide(weightPerSide: real, availablePlates: array<real>) returns (plates: seq<real>)
    requires Terminating(availablePlates[..])
    ensures plates == Greedy(weightPerSide, availablePlates[..]).plates
  {
    var w := weightPerSide;
    plates := [];
    ghost var ps := availablePlates[..];
    ghost var total := Greedy(w, ps);
    var i := 0;
    while i < availablePlates.Length
      invariant 0 <= i <= availablePlates.Length
      invariant plates + Greedy(w, ps[i..]).plates == total.plates
      invariant Greedy(w, ps[i..]).remainder == total.remainder
    {
      var plate := availablePlates[i];
      assert plate == ps[i];
      while w >= plate
        invariant plates + Greedy(w, ps[i..]).plates == total.plates
        invariant Greedy(w, ps[i..]).remainder == total.remainder
        decreases CeilHundredths(w)
      {
        GreedyTake(w, plate, ps[i..]);
        plates := plates + [plate];
        w := Round2(w - plate);
      }
      GreedySkip(w, ps[i..]);
      assert ps[i..][1..] == ps[i + 1..];
      i := i + 1;
    }
    assert ps[i..] == [];
  }

  /**
   * `calculatePlates`: returns the plates for one side. When there is load
   * above the bar it first sorts the caller's `availablePlates` in place,
   * largest first; otherwise it leaves the array alone.
   */
  method CalculatePlates(totalWeight: real, barWeight: real, availablePlates: array<real>)
    returns (plates: seq<real>)
    requires totalWeight > barWeight ==> Terminating(availablePlates[..])
    modifies availablePlates
    ensures plates == PlatesFor(totalWeight, barWeight, old(availablePlates[..]))
    ensures totalWeight <= barWeight ==> availablePlates[..] == old(availablePlates[..])
    ensures totalWeight > barWeight ==> availablePlates[..] == SortDesc(old(availablePlates[..]))
  {
    if totalWeight <= barWeight {
      return [];
    }
    TerminatingSorted(availablePlates[..]);
    SortDescending(availablePlates);
    plates := LoadSide(PerSide(totalWeight, barWeight), availablePlates);
  }

  /**
   * `calculatePlates(load, barWeight)` as the plate calculator widget calls
   * it: the bar the user picked and a fresh array of the default plates.
   */
  method CalculatePlatesWithDefaults(totalWeight: real, barWeight: real) returns (plates: seq<real>)
    ensures plates == PlatesFor(totalWeight, barWeight, DefaultPlates)
  {
    var availablePlates := new real[7] [25.0, 20.0, 15.0, 10.0, 5.0, 2.5, 1.25];
    assert availablePlates[..] == DefaultPlates;
    plates := CalculatePlates(totalWeight, barWeight, availablePlates);
  }

  // ---------------------------------------------------------------------------
  // Properties of the solver

  /** No load above the bar: no plates. */
  lemma {:induction false} BarOnly(totalWeight: real, barWeight: real, availablePlates: seq<real>)
    requires totalWeight <= barWeight
    ensures PlatesFor(totalWeight, barWeight, availablePlates) == []
  {
  }

  /**
   * Every plate returned is one of the available denominations, the list is
   * largest first, and the weight left per side is never negative and below
   * every denomination.
   */
  lemma {:induction false} PlatesWellFormed(totalWeight: real, barWeight: real, availablePlates: seq<real>)
    requires totalWeight > barWeight ==> Terminating(availablePlates)
    ensures var plates := PlatesFor(totalWeight, barWeight, availablePlates);
      (forall x :: x in plates ==> x in availablePlates) && SortedDesc(plates)
    ensures var rest := RemainderFor(totalWeight, barWeight, availablePlates);
      0.0 <= rest && (totalWeight > barWeight ==> forall p :: p in availablePlates ==> rest < p)
  {
    if totalWeight > barWeight {
      var sorted := SortDesc(availablePlates);
      TerminatingSorted(availablePlates);
      SameMembers(availablePlates, sorted);
      GreedyNonIncreasing(PerSide(totalWeight, barWeight), sorted);
    }
  }

  /** With denominations taken largest first, the plates come out largest first. */
  lemma {:induction false} GreedyNonIncreasing(w: real, ps: seq<real>)
    requires Terminating(ps) && SortedDesc(ps)
    ensures SortedDesc(Greedy(w, ps).plates)
    decreases |ps|
  {
    if ps != [] {
      assert ps[0] in ps;
      assert forall p :: p in ps[1..] ==> p in ps;
      var first := Fill(w, ps[0]);
      var rest := Greedy(first.remainder, ps[1..]);
      GreedyNonIncreasing(first.remainder, ps[1..]);
      assert forall x :: x in rest.plates ==> x in ps[1..] && ps[0] >= x;
      var r := first.plates + rest.plates;
      forall i, j | 0 <= i < j < |r|
        ensures r[i] >= r[j]
      {
        if j >= |first.plates| && i < |first.plates| {
          assert r[j] == rest.plates[j - |first.plates|];
          assert r[j] in rest.plates;
        }
      }
    }
  }

  function Sum(s: seq<real>): real {
    if s == [] then 0.0 else s[0] + Sum(s[1..])
  }

  lemma {:induction false} SumAppend(a: seq<real>, b: seq<real>)
    ensures Sum(a + b) == Sum(a) + Sum(b)
  {
    if a != [] {
      assert (a + b)[0] == a[0];
      assert (a + b)[1..] == a[1..] + b;
      SumAppend(a[1..], b);
      calc {
        Sum(a + b);
        a[0] + Sum(a[1..] + b);
        a[0] + Sum(a[1..]) + Sum(b);
      }
    } else {
      assert a + b == b;
    }
  }

  lemma {:induction false} OnGridDifference(x: real, y: real)
    requires OnGrid(x) && OnGrid(y)
    ensures OnGrid(x - y)
  {
    var m := (100.0 * x).Floor;
    var n := (100.0 * y).Floor;
    assert 100.0 * (x - y) == (m - n) as real;
  }

  /** On the hundredths grid rounding never interferes: the plates plus the remainder give back w. */
  lemma {:induction false} FillExact(w: real, p: real)
    requires p > 1.0 / 200.0 && OnGrid(w) && OnGrid(p)
    ensures Sum(Fill(w, p).plates) + Fill(w, p).remainder == w
    ensures OnGrid(Fill(w, p).remainder)
    decreases CeilHundredths(w)
  {
    if w >= p {
      OnGridDifference(w, p);
      Round2OnGrid(w - p);
      CeilHundredthsOfRounded(w - p);
      assert (100.0 * (w - p) + 0.5).Floor as real <= 100.0 * (w - p) + 0.5;
      FillExact(w - p, p);
      var rest := Fill(w - p, p);
      assert Fill(w, p).plates == [p] + rest.plates;
      assert ([p] + rest.plates)[1..] == rest.plates;
    }
  }

  lemma {:induction false} GreedyExact(w: real, ps: seq<real>)
    requires Terminating(ps) && OnGrid(w)
    requires forall p :: p in ps ==> OnGrid(p)
    ensures Sum(Greedy(w, ps).plates) + Greedy(w, ps).remainder == w
    decreases |ps|
  {
    if ps != [] {
      assert ps[0] in ps;
      assert forall p :: p in ps[1..] ==> p in ps;
      FillExact(w, ps[0]);
      var first := Fill(w, ps[0]);
      GreedyExact(first.remainder, ps[1..]);
      SumAppend(first.plates, Greedy(first.remainder, ps[1..]).plates);
    }
  }

  /**
   * When the load per side and every denomination are whole hundredths, the
   * rounding is the identity and the plates plus the remainder make up
   * exactly the load per side.
   */
  lemma {:induction false} PlatesAccountForLoad(totalWeight: real, barWeight: real, availablePlates: seq<real>)
    requires totalWeight > barWeight && Terminating(availablePlates)
    requires OnGrid(PerSide(totalWeight, barWeight))
    requires forall p :: p in availablePlates ==> OnGrid(p)
    ensures Sum(PlatesFor(totalWeight, barWeight, availablePlates))
      + RemainderFor(totalWeight, barWeight, availablePlates) == PerSide(totalWeight, barWeight)
  {
    var sorted := SortDesc(availablePlates);
    TerminatingSorted(availablePlates);
    SameMembers(availablePlates, sorted);
    GreedyExact(PerSide(totalWeight, barWeight), sorted);
  }

  /** Sorting an already descending list changes nothing. */
  lemma {:induction false} SortDescOfSorted(s: seq<real>)
    requires SortedDesc(s)
    ensures SortDesc(s) == s
  {
    SortedPermutationUnique(SortDesc(s), s);
  }

  lemma {:induction false} DefaultPlatesDescending()
    ensures SortedDesc(DefaultPlates) && Terminating(DefaultPlates)
  {
  }

  lemma {:induction false} DefaultPlatesSorted()
    ensures SortDesc(DefaultPlates) == DefaultPlates
    ensures Terminating(DefaultPlates)
  {
    DefaultPlatesDescending();
    SortDescOfSorted(DefaultPlates);
  }

  /** On denominations that are already largest first, the sort changes nothing. */
  lemma {:induction false} PlatesForSorted(totalWeight: real, barWeight: real, ps: seq<real>)
    requires totalWeight > barWeight && Terminating(ps) && SortedDesc(ps)
    ensures PlatesFor(totalWeight, barWeight, ps) == Greedy(PerSide(totalWeight, barWeight), ps).plates
  {
    SortDescOfSorted(ps);
  }

  /** 15 kg per side skips the 25 and the 20 and takes one 15. */
  lemma {:induction false} DefaultFifteen()
    ensures Terminating(DefaultPlates)
    ensures Greedy(15.0, DefaultPlates).plates == [15.0]
  {
    var d := DefaultPlates;
    DefaultPlatesDescending();
    Round2OnGrid(0.0);
    NothingFits(0.0, d[2..]);
    GreedyTake(15.0, 15.0, d[2..]);
    assert Greedy(15.0, d[2..]).plates == [15.0];
    GreedySkip(15.0, d[1..]);
    assert d[1..][1..] == d[2..];
    GreedySkip(15.0, d);
  }

  /** 100 kg on the default bar is 40 kg per side: one 25 and one 15. */
  lemma {:induction false} DefaultHundred()
    ensures PlatesFor(100.0, 20.0, DefaultPlates) == [25.0, 15.0]
  {
    var d := DefaultPlates;
    DefaultPlatesDescending();
    DefaultFifteen();
    Round2OnGrid(15.0);
    GreedyTake(40.0, 25.0, d);
    assert Greedy(40.0, d).plates == [25.0, 15.0];
    assert PerSide(100.0, 20.0) == 40.0;
    PlatesForSorted(100.0, 20.0, d);
  }

  /** 60 kg on the default bar is 20 kg per side: a single 20. */
  lemma {:induction false} DefaultSixty()
    ensures PlatesFor(60.0, 20.0, DefaultPlates) == [20.0]
  {
    var d := DefaultPlates;
    DefaultPlatesDescending();
    Round2OnGrid(0.0);
    NothingFits(0.0, d[1..]);
    GreedyTake(20.0, 20.0, d[1..]);
    assert Greedy(20.0, d[1..]).plates == [20.0];
    GreedySkip(20.0, d);
    assert PerSide(60.0, 20.0) == 20.0;
    PlatesForSorted(60.0, 20.0, d);
  }
}
