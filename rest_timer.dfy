/**
 * What the rest timer widget (frontend/src/components/RestTimer.jsx) shows for
 * a timer state: nothing while the timer is inactive; otherwise the time left
 * as `m:ss`, a text and a bar colour that turn from green to yellow to red as
 * the rest runs out, the share of the rest already taken as a progress
 * percentage, and one of two messages near and at the end.
 */
module RestTimer {
  import opened JsNumber
  import opened JsObject
  import opened JsString
  import opened RestTimerContext

  /** The rendered widget. `progress` is the bar width in percent. */
  datatype View = View(
    clock: string, timerColor: string, progressColor: string,
    progress: Number, almostReady: bool, timesUp: bool)

  /** `Math.floor(timeLeft / 60)`: Dafny's division by a positive divisor already rounds down. */
  function Minutes(timeLeft: int): int {
    timeLeft / 60
  }

  /** `timeLeft % 60`: JavaScript's remainder takes the sign of the dividend. */
  function Seconds(timeLeft: int): int {
    if timeLeft >= 0 then timeLeft % 60 else -((-timeLeft) % 60)
  }

  /**
   * `${minutes}:${seconds.toString().padStart(2, '0')}`. For a time that is
   * not negative it is canonical minutes, a colon and two digits of seconds
   * below 60, and it reads back as that time.
   */
  function Clock(timeLeft: int): (c: string)
    ensures timeLeft >= 0 ==> ReadsAs(c, timeLeft)
  {
    var c := IntToString(Minutes(timeLeft)) + ":" + PadStart(IntToString(Seconds(timeLeft)), 2, '0');
    if timeLeft >= 0 then
      MinutesAndSeconds(timeLeft);
      JoinedReadsAs(c, Minutes(timeLeft), Seconds(timeLeft), timeLeft);
      c
    else c
  }

  /** The three colour bands of the time left. */
  datatype Band = Green | Yellow | Red {
    function Name(): string {
      match this
      case Green => "green"
      case Yellow => "yellow"
      case Red => "red"
    }
  }

  /** `getTimerColor`: the text colour of the time's band. */
  function TimerColor(timeLeft: int): (c: string)
    ensures c == "text-" + BandOf(timeLeft).Name() + "-400"
  {
    if timeLeft > 60 then "text-green-400"
    else if timeLeft > 30 then "text-yellow-400"
    else "text-red-400"
  }

  /** `getProgressColor`: the bar colour of the time's band. */
  function ProgressColor(timeLeft: int): (c: string)
    ensures c == "bg-" + BandOf(timeLeft).Name() + "-400"
  {
    if timeLeft > 60 then "bg-green-400"
    else if timeLeft > 30 then "bg-yellow-400"
    else "bg-red-400"
  }

  /** The band a time falls in: above a minute, above half a minute, or the last thirty seconds. */
  function BandOf(timeLeft: int): (b: Band)
    ensures b == Green <==> timeLeft > 60
    ensures b == Yellow <==> 30 < timeLeft <= 60
    ensures b == Red <==> timeLeft <= 30
  {
    if timeLeft > 60 then Green else if timeLeft > 30 then Yellow else Red
  }

  /**
   * `((duration - timeLeft) / duration) * 100`: a finite percentage in
   * [0, 100] for a timer in range with a positive duration; NaN for zero of
   * zero seconds, and infinite for any other time over a zero duration.
   */
  function Progress(s: State): (p: Number)
    ensures InRange(s) && s.duration > 0 ==> p.Finite? && 0.0 <= p.value <= 100.0
    ensures s.duration == 0 ==> (p.NaN? <==> s.timeLeft == 0) && (p.Infinity? <==> s.timeLeft != 0)
  {
    assert InRange(s) && s.duration > 0 ==>
      0.0 <= (s.duration - s.timeLeft) as real / s.duration as real <= 1.0;
    Scale(Divide((s.duration - s.timeLeft) as real, s.duration as real), 100.0)
  }

  function Render(s: State): (v: Option<View>)
    ensures v.None? <==> !s.isActive
    ensures v.Some? ==> v.value.clock == Clock(s.timeLeft) && v.value.progress == Progress(s)
    ensures v.Some? ==> v.value.timerColor == TimerColor(s.timeLeft) && v.value.progressColor == ProgressColor(s.timeLeft)
    ensures v.Some? ==> (v.value.almostReady <==> 0 < s.timeLeft <= 10) && (v.value.timesUp <==> s.timeLeft == 0)
  {
    if !s.isActive then None
    else
      Some(View(Clock(s.timeLeft), TimerColor(s.timeLeft), ProgressColor(s.timeLeft), Progress(s),
        s.timeLeft <= 10 && s.timeLeft > 0, s.timeLeft == 0))
  }

  /** For a time that is not negative, the minutes and seconds shown make up the time left. */
  lemma {:induction false} MinutesAndSeconds(timeLeft: int)
    requires timeLeft >= 0
    ensures Minutes(timeLeft) >= 0 && 0 <= Seconds(timeLeft) < 60
    ensures Minutes(timeLeft) * 60 + Seconds(timeLeft) == timeLeft
  {
  }

  /** Below a minute, the padded seconds are exactly two digits that read as the seconds. */
  lemma {:induction false} SecondsField(sec: int)
    requires 0 <= sec < 60
    ensures var field := PadStart(IntToString(sec), 2, '0');
      |field| == 2 && AllDigits(field) && DigitsValue(field) == sec
  {
    if sec < 10 {
      OneDigitField(sec);
      TwoDigitsValue(0, sec);
    } else {
      TwoDigitField(sec);
      TwoDigitsValue(sec / 10, sec % 10);
    }
  }

  lemma {:induction false} OneDigitField(sec: int)
    requires 0 <= sec < 10
    ensures PadStart(IntToString(sec), 2, '0') == [DigitChar(0), DigitChar(sec)]
  {
    assert IntToString(sec) == [DigitChar(sec)];
  }

  lemma {:induction false} TwoDigitField(sec: int)
    requires 10 <= sec < 100
    ensures PadStart(IntToString(sec), 2, '0') == [DigitChar(sec / 10), DigitChar(sec % 10)]
  {
    assert NatToString(sec) == NatToString(sec / 10) + [DigitChar(sec % 10)];
    assert NatToString(sec / 10) == [DigitChar(sec / 10)];
  }

  lemma {:induction false} TwoDigitsValue(hi: nat, lo: nat)
    requires hi < 10 && lo < 10
    ensures AllDigits([DigitChar(hi), DigitChar(lo)])
    ensures DigitsValue([DigitChar(hi), DigitChar(lo)]) == 10 * hi + lo
  {
    var s := [DigitChar(hi), DigitChar(lo)];
    assert s[..1] == [DigitChar(hi)];
    assert DigitsValue(s[..1]) == hi by {
      assert s[..1][..0] == [];
    }
  }

  /**
   * A clock text that reads as `t` seconds: a decimal count of minutes, a
   * colon, and two digits of seconds below 60, with minutes times 60 plus
   * seconds equal to `t`.
   */
  predicate ReadsAs(c: string, t: int) {
    |c| >= 4 && c[|c| - 3] == ':' && ReadParts(c[..|c| - 3], c[|c| - 2..], t)
  }

  /** Minutes and a two-digit seconds field that together read as `t` seconds. */
  predicate ReadParts(minutes: string, field: string, t: int) {
    && Canonical(minutes) && |field| == 2 && AllDigits(field)
    && DigitsValue(field) < 60
    && DigitsValue(minutes) * 60 + DigitsValue(field) == t
  }

  lemma {:induction false} JoinedReadsAs(c: string, minutes: nat, sec: int, t: int)
    requires 0 <= sec < 60 && t == minutes * 60 + sec
    requires c == IntToString(minutes) + ":" + PadStart(IntToString(sec), 2, '0')
    ensures ReadsAs(c, t)
  {
    var m := NatToString(minutes);
    var field := PadStart(IntToString(sec), 2, '0');
    PartsRead(minutes, sec, t);
    SplitAtColon(m, field);
  }

  lemma {:induction false} PartsRead(minutes: nat, sec: int, t: int)
    requires 0 <= sec < 60 && t == minutes * 60 + sec
    ensures ReadParts(NatToString(minutes), PadStart(IntToString(sec), 2, '0'), t)
  {
    SecondsField(sec);
  }

  /** A string joined at a colon with a two-character field splits back at the third character from the end. */
  lemma {:induction false} SplitAtColon(m: string, field: string)
    requires |field| == 2
    ensures var c := m + ":" + field;
      |c| == |m| + 3 && c[|c| - 3] == ':' && c[..|c| - 3] == m && c[|c| - 2..] == field
  {
  }

  /** As the time runs out the colours never turn greener: text and bar go from green to yellow to red. */
  lemma {:induction false} ColorsAgree(timeLeft: int, later: int)
    requires later <= timeLeft
    ensures BandOf(timeLeft) == Red ==> BandOf(later) == Red
    ensures BandOf(timeLeft) == Yellow ==> BandOf(later) != Green
    ensures BandOf(later) == Green ==> TimerColor(timeLeft) == "text-green-400"
  {
  }

  /**
   * For a timer in range with a positive duration, the bar is at 0 exactly
   * when nothing has elapsed and at 100 exactly when no time is left, and
   * each tick adds the same share.
   */
  lemma {:induction false} ProgressBounds(s: State)
    requires InRange(s) && s.duration > 0
    ensures Progress(s).Finite?
    ensures Progress(s).value == 0.0 <==> s.timeLeft == s.duration
    ensures Progress(s).value == 100.0 <==> s.timeLeft == 0
    ensures Progress(Reduce(s, Tick)).Finite?
    ensures Progress(Reduce(s, Tick)).value == Progress(s).value + 100.0 / s.duration as real
  {
    var d := s.duration as real;
    var e := (s.duration - s.timeLeft) as real;
    assert Progress(s) == Finite(e / d * 100.0);
    assert 0.0 <= e / d <= 1.0 by {
      assert e <= d;
    }
    assert Progress(Reduce(s, Tick)) == Finite((e + 1.0) / d * 100.0);
    assert (e + 1.0) / d * 100.0 == e / d * 100.0 + 100.0 / d;
    if e / d * 100.0 == 100.0 {
      assert e == d;
    }
  }

  /** A started timer of zero seconds renders, before the effect stops it, with a NaN bar width. */
  lemma {:induction false} ZeroDurationProgress(s: State)
    ensures Progress(Reduce(s, StartTimer(0))) == NaN
  {
  }

  /** The two end messages never show together, and "almost ready" only in the red band. */
  lemma {:induction false} MessagesExclusive(s: State)
    requires s.isActive
    ensures !(Render(s).value.almostReady && Render(s).value.timesUp)
    ensures Render(s).value.almostReady ==> Render(s).value.timerColor == "text-red-400"
  {
  }

  /**
   * Over a rest of `d > 0` seconds the widget shows the last ten seconds as
   * "almost ready", "time's up" in the round before the timer stops, and
   * nothing after it.
   */
  lemma {:induction false} CountdownMessages(s: State, d: int, k: nat)
    requires d > 0 && k <= d
    ensures var v := Render(Run(Reduce(s, StartTimer(d)), k));
      v.Some? && (v.value.almostReady <==> d - 10 <= k < d) && (v.value.timesUp <==> k == d)
    ensures Render(Run(Reduce(s, StartTimer(d)), d + 1)).None?
  {
    assert Reduce(s, StartTimer(d)) == Reduce(Initial, StartTimer(d));
    CountsDown(d, k);
    var r := Run(Reduce(s, StartTimer(d)), k);
    assert r == State(true, d - k, d);
    var v := Render(r);
    assert v.value.almostReady <==> 0 < d - k <= 10;
    StartRunsToStop(s, d, 0);
    assert Run(Reduce(s, StartTimer(d)), d + 1) == Initial;
  }
}
