/**
 * `formatPlateDisplay` (frontend/src/utils/plateCalculator.js): the plates
 * for one side are counted in a plain object keyed by the plate's printed
 * weight, and the object's entries are rendered as "{count}x{plate}kg" and
 * joined with " + ". An empty list reads "Just the bar".
 *
 * Because the counter is a plain object, its entries come out in the order
 * of section 10.1.11.1 of ECMA-262: whole-number weights first, in ascending
 * order, then the fractional weights in the order they were first counted.
 * For the largest-first output of the solver this puts 15 before 25.
 * `LargestFirstText` is the display with the entries in the order
 * the plates were first seen, which for solver output is largest first.
 */
module PlateDisplay {
  import opened JsNumber
  import opened JsString
  import opened JsObject
  import opened PlateCalculator

  const JustTheBar: string := "Just the bar"
  const Separator: string := " + "

  // ---------------------------------------------------------------------------
  // Counting

  /**
   * `counts[k] = (counts[k] || 0) + 1` for every k of s in turn: one key per
   * distinct element, listed in the order of first occurrence, whose count is
   * the number of occurrences.
   */
  function Tally<K(==)>(s: seq<K>): (d: Dict<K, nat>)
    decreases |s|
  {
    if s == [] then Empty()
    else
      var d := Tally(s[..|s| - 1]);
      var k := s[|s| - 1];
      Put(d, k, CountOf(d, k) + 1)
  }

  /** `counts[k] || 0`: a missing key reads as undefined, which `|| 0` turns into 0. */
  function CountOf<K(==)>(counts: Dict<K, nat>, k: K): (n: nat)
    ensures k !in counts.vals ==> n == 0
    ensures k in counts.vals ==> n == counts.vals[k]
  {
    if k in counts.vals then counts.vals[k] else 0
  }

  /** Every key is listed once and has a count. */
  lemma {:induction false} TallyValid<K>(s: seq<K>)
    ensures Tally(s).Valid()
    decreases |s|
  {
    if s != [] {
      var prefix := s[..|s| - 1];
      TallyValid(prefix);
      PutValid(Tally(prefix), s[|s| - 1], CountOf(Tally(prefix), s[|s| - 1]) + 1);
    }
  }

  /** Counting one more element on top of the counts of a prefix. */
  lemma {:induction false} TallyStep<K>(prefix: seq<K>, s: seq<K>, k: K, counts: Dict<K, nat>)
    requires s == prefix + [k]
    requires counts == Tally(prefix)
    ensures Put(counts, k, CountOf(counts, k) + 1) == Tally(s)
  {
    assert s[..|s| - 1] == prefix;
    assert s[|s| - 1] == k;
  }

  /** The keys are the distinct elements, and each count is the number of occurrences. */
  lemma {:induction false} TallyCounts<K(!new)>(s: seq<K>)
    ensures forall k :: k in Tally(s).vals <==> k in s
    ensures forall k :: k in Tally(s).vals ==> Tally(s).vals[k] == multiset(s)[k]
    decreases |s|
  {
    if s != [] {
      var prefix := s[..|s| - 1];
      var k := s[|s| - 1];
      TallyCounts(prefix);
      assert s == prefix + [k];
      assert multiset(s) == multiset(prefix) + multiset{k};
    }
  }

  /** The keys are listed in the order of their first occurrence. */
  lemma {:induction false} TallyOrder<K(!new)>(s: seq<K>)
    ensures forall i :: 0 <= i < |Tally(s).keys| ==> Tally(s).keys[i] in s
    ensures forall i, j :: 0 <= i < j < |Tally(s).keys| ==>
      FirstIndex(s, Tally(s).keys[i]) < FirstIndex(s, Tally(s).keys[j])
    decreases |s|
  {
    if s != [] {
      var prefix := s[..|s| - 1];
      var k := s[|s| - 1];
      TallyOrder(prefix);
      TallyCounts(prefix);
      TallyLast(s);
      assert s == prefix + [k];
      OrderStep(prefix, k, Tally(prefix), Tally(s));
    }
  }

  /** A key counted for the first time is listed after the keys already there. */
  lemma {:induction false} OrderStep<K>(prefix: seq<K>, k: K, d: Dict<K, nat>, r: Dict<K, nat>)
    requires r == Put(d, k, CountOf(d, k) + 1)
    requires forall x :: x in d.vals <==> x in prefix
    requires forall i :: 0 <= i < |d.keys| ==> d.keys[i] in prefix
    requires forall i, j :: 0 <= i < j < |d.keys| ==>
      FirstIndex(prefix, d.keys[i]) < FirstIndex(prefix, d.keys[j])
    ensures forall i :: 0 <= i < |r.keys| ==> r.keys[i] in prefix + [k]
    ensures forall i, j :: 0 <= i < j < |r.keys| ==>
      FirstIndex(prefix + [k], r.keys[i]) < FirstIndex(prefix + [k], r.keys[j])
  {
    FirstIndexInPrefix(prefix, k);
    var s := prefix + [k];
    forall i, j | 0 <= i < j < |r.keys|
      ensures FirstIndex(s, r.keys[i]) < FirstIndex(s, r.keys[j])
    {
      assert r.keys[i] == d.keys[i];
      if j < |d.keys| {
        assert r.keys[j] == d.keys[j];
      } else {
        assert r.keys[j] == k && k !in prefix;
        assert FirstIndex(prefix, d.keys[i]) < |prefix|;
      }
    }
  }

  /** Extending a sequence moves no first occurrence, and a new element comes last. */
  lemma {:induction false} FirstIndexInPrefix<K>(prefix: seq<K>, k: K)
    ensures forall x :: x in prefix ==> FirstIndex(prefix + [k], x) == FirstIndex(prefix, x)
    ensures k !in prefix ==> FirstIndex(prefix + [k], k) == |prefix|
  {
    var s := prefix + [k];
    forall x | x in prefix
      ensures FirstIndex(s, x) == FirstIndex(prefix, x)
    {
      var i, j := FirstIndex(s, x), FirstIndex(prefix, x);
      assert s[j] == x;
      assert i <= j;
      assert prefix[i] == s[i];
    }
    if k !in prefix {
      var i := FirstIndex(s, k);
      assert forall j :: 0 <= j < |prefix| ==> s[j] != k;
    }
  }

  /** The sum of the counts of the keys ks (a key without a count adds nothing). */
  function SumCounts<K(==)>(ks: seq<K>, counts: map<K, nat>): nat {
    if ks == [] then 0
    else SumCounts(ks[..|ks| - 1], counts) + (if ks[|ks| - 1] in counts then counts[ks[|ks| - 1]] else 0)
  }

  lemma {:induction false} SumCountsOther<K>(ks: seq<K>, counts: map<K, nat>, k: K, v: nat)
    requires k !in ks
    ensures SumCounts(ks, counts[k := v]) == SumCounts(ks, counts)
  {
    if ks != [] {
      assert ks[..|ks| - 1] + [ks[|ks| - 1]] == ks;
      SumCountsOther(ks[..|ks| - 1], counts, k, v);
    }
  }

  lemma {:induction false} SumCountsIncrement<K>(ks: seq<K>, counts: map<K, nat>, k: K)
    requires Distinct(ks) && k in ks && k in counts
    ensures SumCounts(ks, counts[k := counts[k] + 1]) == SumCounts(ks, counts) + 1
  {
    var prefix := ks[..|ks| - 1];
    assert prefix + [ks[|ks| - 1]] == ks;
    if ks[|ks| - 1] == k {
      assert k !in prefix;
      SumCountsOther(prefix, counts, k, counts[k] + 1);
    } else {
      assert k in prefix;
      SumCountsIncrement(prefix, counts, k);
    }
  }

  /** The counts add up to the number of elements counted. */
  lemma {:induction false} TallyTotal<K(!new)>(s: seq<K>)
    ensures SumCounts(Tally(s).keys, Tally(s).vals) == |s|
    decreases |s|
  {
    if s != [] {
      TallyTotal(s[..|s| - 1]);
      TallyTotalStep(s);
    }
  }

  lemma {:induction false} TallyTotalStep<K>(s: seq<K>)
    requires s != []
    ensures SumCounts(Tally(s).keys, Tally(s).vals) ==
      SumCounts(Tally(s[..|s| - 1]).keys, Tally(s[..|s| - 1]).vals) + 1
  {
    TallyValid(s[..|s| - 1]);
    TallyLast(s);
    CountOneMore(Tally(s[..|s| - 1]), s[|s| - 1], Tally(s));
  }

  lemma {:induction false} TallyLast<K>(s: seq<K>)
    requires s != []
    ensures Tally(s) == Put(Tally(s[..|s| - 1]), s[|s| - 1], CountOf(Tally(s[..|s| - 1]), s[|s| - 1]) + 1)
  {
  }

  /** Counting one more element adds one to the sum of the counts. */
  lemma {:induction false} CountOneMore<K>(d: Dict<K, nat>, k: K, r: Dict<K, nat>)
    requires d.Valid() && r == Put(d, k, CountOf(d, k) + 1)
    ensures SumCounts(r.keys, r.vals) == SumCounts(d.keys, d.vals) + 1
  {
    if k in d.vals {
      assert k in d.keys;
      SumCountsIncrement(d.keys, d.vals, k);
    } else {
      assert k !in d.keys;
      SumCountsOther(d.keys, d.vals, k, 1);
      assert r.keys[..|r.keys| - 1] == d.keys;
    }
  }

  // ---------------------------------------------------------------------------
  // Rendering

  /** A joined list starts like its first part. */
  lemma {:induction false} JoinStartsWithFirstPart(parts: seq<string>, sep: string)
    requires |parts| > 0 && |parts[0]| > 0
    ensures |Join(parts, sep)| > 0 && Join(parts, sep)[0] == parts[0][0]
  {
  }

  /** `${count}x${plate}kg` */
  function Render(plate: string, count: nat): string {
    NatToString(count) + "x" + plate + "kg"
  }

  /** An entry starts with the digits of its count. */
  lemma {:induction false} RenderStartsWithDigit(plate: string, count: nat)
    ensures |Render(plate, count)| > 0 && IsDigit(Render(plate, count)[0])
  {
    var digits := NatToString(count);
    assert Render(plate, count)[0] == digits[0];
  }

  /** `parts.join(sep)` */
  function Join(parts: seq<string>, sep: string): (r: string)
    ensures |parts| == 1 ==> r == parts[0]
    ensures |parts| > 1 ==> r == parts[0] + sep + Join(parts[1..], sep)
  {
    if parts == [] then ""
    else if |parts| == 1 then parts[0]
    else parts[0] + sep + Join(parts[1..], sep)
  }

  /** `Object.entries(counts).map(([plate, count]) => ...)` over the keys in the order given. */
  function RenderEntries(keys: seq<string>, counts: map<string, nat>): (r: seq<string>)
    requires forall i :: 0 <= i < |keys| ==> keys[i] in counts
    ensures |r| == |keys|
    ensures forall i :: 0 <= i < |keys| ==> r[i] == Render(keys[i], counts[keys[i]])
  {
    if keys == [] then [] else [Render(keys[0], counts[keys[0]])] + RenderEntries(keys[1..], counts)
  }

  predicate AllPrintable(plates: seq<real>) {
    forall i :: 0 <= i < |plates| ==> Printable(plates[i])
  }

  /** The property key `plateCounts[plate]` uses for each plate: the printed weight. */
  function PropertyKeys(plates: seq<real>): (r: seq<string>)
    requires AllPrintable(plates)
    ensures |r| == |plates|
  {
    if plates == [] then []
    else PropertyKeys(plates[..|plates| - 1]) + [NumberToString(plates[|plates| - 1])]
  }

  /** The key of each plate is its printed weight. */
  lemma {:induction false} PropertyKeysAt(plates: seq<real>)
    requires AllPrintable(plates)
    ensures forall i :: 0 <= i < |plates| ==> PropertyKeys(plates)[i] == NumberToString(plates[i])
  {
    if plates != [] {
      var prefix := plates[..|plates| - 1];
      PropertyKeysAt(prefix);
      var keys := PropertyKeys(plates);
      assert keys == PropertyKeys(prefix) + [NumberToString(plates[|plates| - 1])];
      forall i | 0 <= i < |plates|
        ensures keys[i] == NumberToString(plates[i])
      {
        if i < |prefix| {
          assert keys[i] == PropertyKeys(prefix)[i] && prefix[i] == plates[i];
        }
      }
    }
  }

  lemma {:induction false} PropertyKeysStep(plates: seq<real>, i: nat)
    requires AllPrintable(plates) && i < |plates|
    ensures PropertyKeys(plates[..i + 1]) == PropertyKeys(plates[..i]) + [NumberToString(plates[i])]
  {
    assert plates[..i + 1][..i] == plates[..i];
  }

  /** The counter object of `formatPlateDisplay`: one property per printed weight. */
  function DisplayCounts(plates: seq<real>): (d: Dict<string, nat>)
    requires AllPrintable(plates)
    ensures d.Valid()
  {
    TallyValid(PropertyKeys(plates));
    Tally(PropertyKeys(plates))
  }

  /** `Object.entries(plateCounts)` lists the keys in the order of section 10.1.11.1 of ECMA-262. */
  function DisplayKeys(plates: seq<real>): seq<string>
    requires AllPrintable(plates)
  {
    OwnKeyOrder(DisplayCounts(plates).keys)
  }

  /** What `formatPlateDisplay(plates)` returns. */
  function DisplayText(plates: seq<real>): string
    requires AllPrintable(plates)
  {
    if plates == [] then JustTheBar
    else Join(RenderEntries(DisplayKeys(plates), DisplayCounts(plates).vals), Separator)
  }

  /**
   * The `forEach` of `formatPlateDisplay`: `counts[key] = (counts[key] || 0) + 1`
   * for the property key of each plate in turn.
   */
  method CountOccurrences<K>(keys: seq<K>) returns (counts: Dict<K, nat>)
    ensures counts == Tally(keys)
  {
    counts := Empty();
    var i := 0;
    while i < |keys|
      invariant 0 <= i <= |keys|
      invariant counts == Tally(keys[..i])
    {
      var key := keys[i];
      TallyStep(keys[..i], keys[..i + 1], key, counts);
      var count := CountOf(counts, key);
      counts := Put(counts, key, count + 1);
      i := i + 1;
    }
    assert keys[..i] == keys;
  }

  /** `formatPlateDisplay`: the counted entries, rendered and joined. */
  method FormatPlateDisplay(plates: seq<real>) returns (display: string)
    requires AllPrintable(plates)
    ensures display == DisplayText(plates)
  {
    if |plates| == 0 {
      return JustTheBar;
    }
    var plateCounts := CountOccurrences(PropertyKeys(plates));
    TallyValid(PropertyKeys(plates));
    display := Join(RenderEntries(OwnKeyOrder(plateCounts.keys), plateCounts.vals), Separator);
  }

  // ---------------------------------------------------------------------------
  // What the display says

  /** An empty side reads "Just the bar", and only an empty side does. */
  lemma {:induction false} JustTheBarOnlyWhenEmpty(plates: seq<real>)
    requires AllPrintable(plates)
    ensures DisplayText(plates) == JustTheBar <==> plates == []
  {
    if plates != [] {
      DisplayKeysNotEmpty(plates);
      DisplayTextEntries(plates);
      EntriesStartWithDigit(DisplayKeys(plates), DisplayCounts(plates).vals);
      assert !IsDigit(JustTheBar[0]);
    }
  }

  /** A side with plates lists at least one key. */
  lemma {:induction false} DisplayKeysNotEmpty(plates: seq<real>)
    requires AllPrintable(plates) && plates != []
    ensures DisplayKeys(plates) != []
  {
    var keys := PropertyKeys(plates);
    TallyCounts(keys);
    TallyValid(keys);
    assert keys[0] in keys;
    assert keys[0] in Tally(keys).vals;
    assert keys[0] in Tally(keys).keys;
  }

  /** Joined entries start with the first digit of the first count. */
  lemma {:induction false} EntriesStartWithDigit(ks: seq<string>, vals: map<string, nat>)
    requires ks != [] && forall k :: k in ks ==> k in vals
    ensures |Join(RenderEntries(ks, vals), Separator)| > 0
    ensures IsDigit(Join(RenderEntries(ks, vals), Separator)[0])
  {
    var parts := RenderEntries(ks, vals);
    RenderStartsWithDigit(ks[0], vals[ks[0]]);
    JoinStartsWithFirstPart(parts, Separator);
  }

  /** A side with plates: every listed key has a count, and the text joins the rendered entries. */
  lemma {:induction false} DisplayTextEntries(plates: seq<real>)
    requires AllPrintable(plates) && plates != []
    ensures forall k :: k in DisplayKeys(plates) ==> k in DisplayCounts(plates).vals
    ensures DisplayText(plates) ==
      Join(RenderEntries(DisplayKeys(plates), DisplayCounts(plates).vals), Separator)
  {
  }

  lemma {:induction false} JoinTwo(x: string, y: string, sep: string)
    ensures Join([x, y], sep) == x + sep + y
  {
    assert [x, y][1..] == [y];
  }

  /** Plates of different weights print differently, so a key counts the plates of one weight. */
  lemma {:induction false} PropertyKeysMultiplicity(plates: seq<real>, x: real)
    requires AllPrintable(plates) && Printable(x)
    ensures multiset(PropertyKeys(plates))[NumberToString(x)] == multiset(plates)[x]
    decreases |plates|
  {
    if plates != [] {
      var prefix := plates[..|plates| - 1];
      var last := plates[|plates| - 1];
      assert plates == prefix + [last];
      PropertyKeysMultiplicity(prefix, x);
      if NumberToString(last) == NumberToString(x) {
        NumberToStringInjective(last, x);
      }
    }
  }

  /** A plate's key first appears where the plate first appears. */
  lemma {:induction false} PropertyKeysFirstIndex(plates: seq<real>, x: real)
    requires AllPrintable(plates) && x in plates
    ensures NumberToString(x) in PropertyKeys(plates)
    ensures FirstIndex(PropertyKeys(plates), NumberToString(x)) == FirstIndex(plates, x)
  {
    var keys := PropertyKeys(plates);
    var i := FirstIndex(plates, x);
    PropertyKeysAt(plates);
    forall j | 0 <= j < i
      ensures keys[j] != NumberToString(x)
    {
      if keys[j] == NumberToString(x) {
        NumberToStringInjective(plates[j], x);
      }
    }
    FirstIndexAt(keys, NumberToString(x), i);
  }

  /** The count of one weight: present exactly when a plate has it, and how many do. */
  lemma {:induction false} DisplayCountOf(plates: seq<real>, x: real)
    requires AllPrintable(plates) && Printable(x)
    ensures NumberToString(x) in DisplayCounts(plates).vals <==> x in plates
    ensures x in plates ==> DisplayCounts(plates).vals[NumberToString(x)] == multiset(plates)[x]
  {
    TallyCounts(PropertyKeys(plates));
    PropertyKeysMultiplicity(plates, x);
  }

  /**
   * The counter has a property for the printed weight of every plate and for
   * nothing else, and its value is the number of plates of that weight.
   */
  lemma {:induction false} DisplayCountsAreMultiplicities(plates: seq<real>)
    requires AllPrintable(plates)
    ensures forall x :: Printable(x) ==> (NumberToString(x) in DisplayCounts(plates).vals <==> x in plates)
    ensures forall x :: x in plates ==> DisplayCounts(plates).vals[NumberToString(x)] == multiset(plates)[x]
  {
    forall x | Printable(x)
      ensures NumberToString(x) in DisplayCounts(plates).vals <==> x in plates
      ensures x in plates ==> DisplayCounts(plates).vals[NumberToString(x)] == multiset(plates)[x]
    {
      DisplayCountOf(plates, x);
    }
  }

  /** Every property of the counter is the printed weight of some plate. */
  lemma {:induction false} DisplayCountsOnlyPlates(plates: seq<real>)
    requires AllPrintable(plates)
    ensures forall k :: k in DisplayCounts(plates).vals ==> exists x :: x in plates && k == NumberToString(x)
  {
    var keys := PropertyKeys(plates);
    TallyCounts(keys);
    PropertyKeysAt(plates);
    forall k | k in DisplayCounts(plates).vals
      ensures exists x :: x in plates && k == NumberToString(x)
    {
      var i :| 0 <= i < |keys| && keys[i] == k;
      assert plates[i] in plates;
    }
  }

  /** Every printed weight is listed once, and the counts add up to the number of plates. */
  lemma {:induction false} DisplayListsEachWeightOnce(plates: seq<real>)
    requires AllPrintable(plates)
    ensures Distinct(DisplayKeys(plates))
    ensures forall k :: k in DisplayKeys(plates) <==> k in DisplayCounts(plates).vals
    ensures SumCounts(DisplayCounts(plates).keys, DisplayCounts(plates).vals) == |plates|
  {
    OwnKeyOrderSpec(DisplayCounts(plates).keys);
    TallyTotal(PropertyKeys(plates));
  }

  /** Keys listed in first-seen order stay in that order. */
  lemma {:induction false} TallyFirstSeen<K(!new)>(s: seq<K>, a: K, b: K)
    requires a in s && b in s && FirstIndex(s, a) < FirstIndex(s, b)
    ensures a in Tally(s).keys && b in Tally(s).keys
    ensures FirstIndex(Tally(s).keys, a) < FirstIndex(Tally(s).keys, b)
  {
    TallyCounts(s);
    TallyValid(s);
    TallyOrder(s);
  }

  /** Where the entry for a plate's weight appears in the display. */
  function DisplayPosition(plates: seq<real>, x: real): (i: nat)
    requires AllPrintable(plates) && x in plates
    ensures i < |DisplayKeys(plates)| && DisplayKeys(plates)[i] == NumberToString(x)
  {
    DisplayCountOf(plates, x);
    FirstIndex(DisplayKeys(plates), NumberToString(x))
  }

  /** Whole-number weights are listed in ascending order. */
  lemma {:induction false} WholeWeightsAscending(plates: seq<real>, x: real, y: real)
    requires AllPrintable(plates) && x in plates && y in plates
    requires IsIndexNumber(x) && IsIndexNumber(y) && x < y
    ensures DisplayPosition(plates, x) < DisplayPosition(plates, y)
  {
    var ks := DisplayCounts(plates).keys;
    var r := DisplayKeys(plates);
    var n := |IndexKeys(ks)|;
    OwnKeyOrderSpec(ks);
    var i, j := DisplayPosition(plates, x), DisplayPosition(plates, y);
    NumberKeyIsIndex(x);
    NumberKeyIsIndex(y);
    assert i < n && j < n;
    AscendingPositions(r[..n], i, j);
  }

  /** Whole-number weights come before all others. */
  lemma {:induction false} WholeWeightsFirst(plates: seq<real>, x: real, y: real)
    requires AllPrintable(plates) && x in plates && y in plates
    requires IsIndexNumber(x) && !IsIndexNumber(y)
    ensures DisplayPosition(plates, x) < DisplayPosition(plates, y)
  {
    var ks := DisplayCounts(plates).keys;
    var r := DisplayKeys(plates);
    var n := |IndexKeys(ks)|;
    OwnKeyOrderSpec(ks);
    var i, j := DisplayPosition(plates, x), DisplayPosition(plates, y);
    NumberKeyIsIndex(x);
    NumberKeyIsIndex(y);
    assert i < n;
    OtherKeyAfterIndices(r, n, j);
  }

  /** The other weights follow in the order their first plate appears. */
  lemma {:induction false} OtherWeightsInFirstSeenOrder(plates: seq<real>, x: real, y: real)
    requires AllPrintable(plates) && x in plates && y in plates
    requires !IsIndexNumber(x) && !IsIndexNumber(y)
    requires FirstIndex(plates, x) < FirstIndex(plates, y)
    ensures DisplayPosition(plates, x) < DisplayPosition(plates, y)
  {
    var keys := PropertyKeys(plates);
    var ks := DisplayCounts(plates).keys;
    var r := DisplayKeys(plates);
    var n := |IndexKeys(ks)|;
    var a, b := NumberToString(x), NumberToString(y);
    OwnKeyOrderSpec(ks);
    NumberKeyIsIndex(x);
    NumberKeyIsIndex(y);
    PropertyKeysFirstIndex(plates, x);
    PropertyKeysFirstIndex(plates, y);
    TallyFirstSeen(keys, a, b);
    OtherKeysOrder(ks, a, b);
    assert r == r[..n] + OtherKeys(ks);
    FirstIndexAfter(r[..n], OtherKeys(ks), a);
    FirstIndexAfter(r[..n], OtherKeys(ks), b);
  }

  // ---------------------------------------------------------------------------
  // Largest plate first

  /** Each weight printed and rendered with its count, in the order given. */
  function RenderWeights(weights: seq<real>, counts: map<real, nat>): (r: seq<string>)
    requires forall i :: 0 <= i < |weights| ==> weights[i] in counts && Printable(weights[i])
    ensures |r| == |weights|
    ensures forall i :: 0 <= i < |weights| ==> r[i] == Render(NumberToString(weights[i]), counts[weights[i]])
  {
    if weights == [] then []
    else [Render(NumberToString(weights[0]), counts[weights[0]])] + RenderWeights(weights[1..], counts)
  }

  /**
   * The display with one entry per weight, in the order the weights first
   * appear among the plates, as a counter that keeps insertion order (a
   * `Map`) would list them.
   */
  function LargestFirstText(plates: seq<real>): string
    requires AllPrintable(plates)
  {
    if plates == [] then JustTheBar
    else
      var counts := Tally(plates);
      TallyCounts(plates);
      TallyOrder(plates);
      Join(RenderWeights(counts.keys, counts.vals), Separator)
  }

  /**
   * For plates listed largest first, the entries are the distinct weights in
   * strictly decreasing order, each with the number of plates of that weight.
   */
  lemma {:induction false} LargestFirstEntries(plates: seq<real>)
    requires SortedDesc(plates)
    ensures forall i, j :: 0 <= i < j < |Tally(plates).keys| ==> Tally(plates).keys[i] > Tally(plates).keys[j]
    ensures forall x :: x in Tally(plates).vals <==> x in plates
    ensures forall x :: x in Tally(plates).vals ==> Tally(plates).vals[x] == multiset(plates)[x]
  {
    var keys := Tally(plates).keys;
    TallyCounts(plates);
    TallyOrder(plates);
    TallyValid(plates);
    forall i, j | 0 <= i < j < |keys|
      ensures keys[i] > keys[j]
    {
      var p, q := FirstIndex(plates, keys[i]), FirstIndex(plates, keys[j]);
      assert p < q;
      assert plates[p] >= plates[q];
      assert keys[i] != keys[j];
    }
  }

  /** The plates the calculator loads on one side read largest first. */
  lemma {:induction false} LargestFirstForLoad(totalWeight: real, barWeight: real, availablePlates: seq<real>)
    requires totalWeight > barWeight ==> Terminating(availablePlates)
    ensures var keys := Tally(PlatesFor(totalWeight, barWeight, availablePlates)).keys;
      forall i, j :: 0 <= i < j < |keys| ==> keys[i] > keys[j]
  {
    PlatesWellFormed(totalWeight, barWeight, availablePlates);
    LargestFirstEntries(PlatesFor(totalWeight, barWeight, availablePlates));
  }

  // ---------------------------------------------------------------------------
  // 100 kg on a 20 kg bar with the default plates

  lemma {:induction false} PrintedWeights()
    ensures Printable(25.0) && NumberToString(25.0) == "25"
    ensures Printable(15.0) && NumberToString(15.0) == "15"
  {
    assert Hundredths(25.0) == 2500;
    assert NatToString(25) == "25" by {
      assert NatToString(2) == "2";
    }
    assert FractionDigits(0) == "";
    assert Hundredths(15.0) == 1500;
    assert NatToString(15) == "15" by {
      assert NatToString(1) == "1";
    }
  }

  lemma {:induction false} TwentyFiveFifteenCounts()
    ensures AllPrintable([25.0, 15.0])
    ensures PropertyKeys([25.0, 15.0]) == ["25", "15"]
    ensures DisplayCounts([25.0, 15.0]).keys == ["25", "15"]
    ensures DisplayCounts([25.0, 15.0]).vals["25"] == 1 && DisplayCounts([25.0, 15.0]).vals["15"] == 1
  {
    PrintedWeights();
    var plates := [25.0, 15.0];
    assert plates[..1] == [25.0];
    assert plates[..1][..0] == [];
    assert PropertyKeys(plates) == ["25", "15"];
    var keys: seq<string> := ["25", "15"];
    assert keys[..1] == ["25"];
    assert keys[..1][..0] == [];
    var first := Tally(keys[..1]);
    assert first == Dict(["25"], map["25" := 1]);
    assert "15" != "25" by {
      assert "15"[0] != "25"[0];
    }
    assert Tally(keys) == Put(first, "15", CountOf(first, "15") + 1);
  }

  /** "25" and "15" are the canonical decimals of 25 and 15. */
  lemma {:induction false} IndexKeysTwentyFiveFifteen()
    ensures IsArrayIndex("25") && ArrayIndexValue("25") == 25
    ensures IsArrayIndex("15") && ArrayIndexValue("15") == 15
  {
    assert NatToString(25) == "25" by {
      assert NatToString(2) == "2";
    }
    assert NatToString(15) == "15" by {
      assert NatToString(1) == "1";
    }
  }

  /** The keys "25" and "15" are array indices, so `Object.keys` lists "15" first. */
  lemma {:induction false} FifteenBeforeTwentyFive()
    ensures OwnKeyOrder(["25", "15"]) == ["15", "25"]
  {
    IndexKeysTwentyFiveFifteen();
    var keys: seq<string> := ["25", "15"];
    assert keys[1..] == ["15"];
    assert IndexKeys(keys) == keys;
    assert OtherKeys(keys) == [];
    assert SortIndexKeys(["15"]) == ["15"];
    assert SortIndexKeys(keys) == ["15", "25"];
  }

  /** As written, 25 kg and 15 kg a side read smallest first. */
  lemma {:induction false} DisplayTwentyFiveFifteen()
    ensures AllPrintable([25.0, 15.0])
    ensures DisplayText([25.0, 15.0]) == Render("15", 1) + Separator + Render("25", 1)
  {
    TwentyFiveFifteenCounts();
    FifteenBeforeTwentyFive();
    assert DisplayKeys([25.0, 15.0]) == ["15", "25"];
    TwoEntries([25.0, 15.0], "15", "25");
  }

  lemma {:induction false} TwoEntries(plates: seq<real>, a: string, b: string)
    requires AllPrintable(plates) && plates != []
    requires DisplayKeys(plates) == [a, b]
    ensures a in DisplayCounts(plates).vals && b in DisplayCounts(plates).vals
    ensures DisplayText(plates) ==
      Render(a, DisplayCounts(plates).vals[a]) + Separator + Render(b, DisplayCounts(plates).vals[b])
  {
    DisplayTextEntries(plates);
    JoinTwoEntries([a, b], DisplayCounts(plates).vals, a, b);
  }

  lemma {:induction false} JoinTwoEntries(ks: seq<string>, vals: map<string, nat>, a: string, b: string)
    requires ks == [a, b] && a in vals && b in vals
    ensures Join(RenderEntries(ks, vals), Separator) == Render(a, vals[a]) + Separator + Render(b, vals[b])
  {
    var parts := RenderEntries(ks, vals);
    assert parts == [Render(a, vals[a]), Render(b, vals[b])];
    JoinTwo(parts[0], parts[1], Separator);
  }

  /** With the entries in first-seen order, 25 kg and 15 kg a side read largest first. */
  lemma {:induction false} LargestFirstTwentyFiveFifteen()
    ensures AllPrintable([25.0, 15.0])
    ensures LargestFirstText([25.0, 15.0]) == Render("25", 1) + Separator + Render("15", 1)
  {
    PrintedWeights();
    var plates := [25.0, 15.0];
    assert plates[..1] == [25.0];
    assert plates[..1][..0] == [];
    var first := Tally(plates[..1]);
    assert first == Dict([25.0], map[25.0 := 1]);
    var counts := Tally(plates);
    assert counts == Put(first, 15.0, CountOf(first, 15.0) + 1);
    assert counts.keys == [25.0, 15.0];
    assert counts.vals[25.0] == 1 && counts.vals[15.0] == 1;
    var parts := RenderWeights(counts.keys, counts.vals);
    assert parts[1..] == [parts[1]];
  }
}
