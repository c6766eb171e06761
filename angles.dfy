/**
 * Integer hand angles and the formulas that place the hands of an analog
 * clock.  A paper.js path is rotated about the centre of its view; here a
 * hand's angle is a whole number of degrees that accumulates every rotation,
 * and its position on the dial is that angle modulo 360.
 */
module Angles {
  import opened Wrappers

  /** An angle on the dial, in degrees clockwise from twelve o'clock. */
  type Degrees = x: int | 0 <= x < 360

  /** The position on the dial reached by a rotation of `a` degrees from twelve. */
  function Normalize(a: int): (r: Degrees)
    ensures (a - r) % 360 == 0
  {
    a % 360
  }

  /** Rotating by `d1` and then by `d2` lands where one rotation by `d1 + d2` does. */
  lemma RotationsCompose(a: int, d1: int, d2: int)
    ensures Normalize(Normalize(a + d1) + d2) == Normalize(a + d1 + d2)
  {
    var k := (a + d1) / 360;
    assert a + d1 == 360 * k + Normalize(a + d1);
  }

  /**
   * The local wall-clock reading of one clock: `hour` is the 12-hour value
   * (1 to 12) of moment's format('h'), `minute` and `second` as moment gives them.
   */
  datatype LocalTime = LocalTime(hour: int, minute: int, second: int)

  predicate ValidTime(t: LocalTime)
  {
    1 <= t.hour <= 12 && 0 <= t.minute < 60 && 0 <= t.second < 60
  }

  /** JavaScript's `seconds + isResize`: the boolean counts as 0 or 1. */
  function ResizeBonus(isResize: bool): int
  {
    if isResize then 1 else 0
  }

  /** The rotation setCurrentTime gives the second hand. */
  function SecondRotation(second: int, isResize: bool): int
  {
    (second + ResizeBonus(isResize)) * 6
  }

  /** The rotation setCurrentTime gives the minute hand. */
  function MinuteRotation(minute: int): int
  {
    minute * 6
  }

  /**
   * The rotation setCurrentTime gives the hour hand.  With a positive divisor,
   * Dafny's `/` rounds down, as `Math.floor(minutes / 2)` does.
   */
  function HourRotation(hour: int, minute: int): int
  {
    hour * 30 + minute / 2
  }

  /**
   * The immediate rotation one tick gives the hour hand: 1 degree when the
   * minute read differs from the cached one and is even, otherwise none.
   * `None` stands for a cache that was never written (`undefined`).
   */
  function HourNudge(cached: Option<int>, minute: int): int
  {
    if cached != Some(minute) && minute % 2 == 0 then 1 else 0
  }

  /** The hour and minute one minute after `hour`:`minute` on a 12-hour dial. */
  function NextMinute(hour: int, minute: int): (int, int)
  {
    if minute == 59 then (hour % 12 + 1, 0) else (hour, minute + 1)
  }

  /**
   * Starting from twelve, the second hand set at second `s` points at
   * `s * 6` degrees, one second further on when resizing.
   */
  lemma SecondFromTwelve(t: LocalTime, isResize: bool)
    requires ValidTime(t)
    ensures Normalize(SecondRotation(t.second, isResize))
            == ((t.second + ResizeBonus(isResize)) % 60) * 6
  {
  }

  /** Starting from twelve, the minute hand set at minute `m` points at `m * 6` degrees. */
  lemma MinuteFromTwelve(t: LocalTime)
    requires ValidTime(t)
    ensures Normalize(MinuteRotation(t.minute)) == t.minute * 6
  {
  }

  /**
   * Starting from twelve, the hour hand points at 30 degrees per hour of the
   * 12-hour dial plus half a degree per minute, rounded down; hour 12 counts as 0.
   */
  lemma HourFromTwelve(t: LocalTime)
    requires ValidTime(t)
    ensures Normalize(HourRotation(t.hour, t.minute)) == (t.hour % 12) * 30 + t.minute / 2
    ensures t.hour == 12 ==> Normalize(HourRotation(t.hour, t.minute)) == t.minute / 2
  {
  }

  /**
   * The resize correction: the second hand is set exactly 6 degrees further
   * than it would be at the same instant without resize; the other two hands
   * do not depend on the flag at all.
   */
  lemma ResizeSkew(second: int)
    ensures SecondRotation(second, true) == SecondRotation(second, false) + 6
    ensures Normalize(SecondRotation(second, true)) == Normalize(SecondRotation(second, false) + 6)
  {
  }

  /** A 6-degree batch moves the second hand from second `s` to second `s + 1`. */
  lemma SecondStep(s: int)
    requires 0 <= s < 60
    ensures Normalize(SecondRotation(s, false) + 6) == Normalize(SecondRotation((s + 1) % 60, false))
  {
  }

  /** A 6-degree batch moves the minute hand from `hour`:`minute` to the next minute. */
  lemma MinuteStep(hour: int, minute: int)
    requires 0 <= minute < 60
    ensures Normalize(MinuteRotation(minute) + 6) == Normalize(MinuteRotation(NextMinute(hour, minute).1))
  {
  }

  /**
   * The hour nudge of a tick that sees the minute advance keeps the hour hand
   * on the setCurrentTime formula: it equals the growth of `floor(minute / 2)`,
   * and at 59 -> 0 it is what remains of the 30 degrees of the next hour.
   */
  lemma HourNudgeStep(hour: int, minute: int)
    requires 1 <= hour <= 12 && 0 <= minute < 60
    ensures var (h, m) := NextMinute(hour, minute);
            Normalize(HourRotation(hour, minute) + HourNudge(Some(minute), m)) == Normalize(HourRotation(h, m))
  {
    var (h, m) := NextMinute(hour, minute);
    if minute == 59 {
      assert HourRotation(hour, minute) + HourNudge(Some(minute), m) == hour * 30 + 30;
      if hour == 12 {
        assert HourRotation(h, m) == 30;
      } else {
        assert HourRotation(h, m) == hour * 30 + 30;
      }
    } else {
      assert HourNudge(Some(minute), m) == (minute + 1) / 2 - minute / 2;
    }
  }

  /** Reading `b` at a tick after `a`: the same minute again, or the next one. */
  predicate Follows(a: LocalTime, b: LocalTime)
  {
    ValidTime(b) && ((b.hour, b.minute) == (a.hour, a.minute) || (b.hour, b.minute) == NextMinute(a.hour, a.minute))
  }

  /** `readings` are the times seen by successive ticks after `start`. */
  predicate Chain(start: LocalTime, readings: seq<LocalTime>)
    decreases |readings|
  {
    readings == [] || (Follows(start, readings[0]) && Chain(readings[0], readings[1..]))
  }

  function Last(start: LocalTime, readings: seq<LocalTime>): LocalTime
  {
    if readings == [] then start else readings[|readings| - 1]
  }

  /**
   * The rotation of the hour hand after a run of ticks, each reading
   * `readings[k]`: every tick adds its nudge and leaves that minute in the cache.
   */
  function TickHour(angle: int, cached: Option<int>, readings: seq<LocalTime>): int
    decreases |readings|
  {
    if readings == [] then angle
    else TickHour(angle + HourNudge(cached, readings[0].minute), Some(readings[0].minute), readings[1..])
  }

  /**
   * One tick: an hour hand on the formula at `start` is still on it at the
   * following reading `next`, once the tick's nudge is added.
   */
  lemma NudgeKeepsFormula(start: LocalTime, next: LocalTime, angle: int)
    requires ValidTime(start) && Follows(start, next)
    requires Normalize(angle) == Normalize(HourRotation(start.hour, start.minute))
    ensures Normalize(angle + HourNudge(Some(start.minute), next.minute)) == Normalize(HourRotation(next.hour, next.minute))
  {
    var nudge := HourNudge(Some(start.minute), next.minute);
    var formula := HourRotation(start.hour, start.minute);
    RotationsCompose(angle, 0, nudge);
    RotationsCompose(formula, 0, nudge);
    if (next.hour, next.minute) != (start.hour, start.minute) {
      HourNudgeStep(start.hour, start.minute);
    }
  }

  /**
   * The invariant that links the per-second tick to setCurrentTime: an hour
   * hand placed where the formula says at `start`, with the minute of `start`
   * cached, still points where the formula says after any run of ticks whose
   * readings advance at most one minute at a time.
   */
  lemma {:induction false} HourTracksClock(start: LocalTime, readings: seq<LocalTime>, angle: int)
    requires ValidTime(start)
    requires Normalize(angle) == Normalize(HourRotation(start.hour, start.minute))
    requires Chain(start, readings)
    ensures var end := Last(start, readings);
            Normalize(TickHour(angle, Some(start.minute), readings)) == Normalize(HourRotation(end.hour, end.minute))
    decreases |readings|
  {
    if readings != [] {
      var next := readings[0];
      NudgeKeepsFormula(start, next, angle);
      HourTracksClock(next, readings[1..], angle + HourNudge(Some(start.minute), next.minute));
      assert Last(next, readings[1..]) == Last(start, readings);
    }
  }

  /**
   * Minute readings 5, 6, 6, 7 after a cached 5: only the first tick at
   * minute 6 nudges the hour hand (7 is odd, and 6 is not counted twice).
   */
  lemma NudgeScenario(angle: int)
    ensures TickHour(angle, Some(5), [LocalTime(1, 5, 0), LocalTime(1, 6, 0), LocalTime(1, 6, 0), LocalTime(1, 7, 0)])
            == angle + 1
  {
    var t5, t6, t7 := LocalTime(1, 5, 0), LocalTime(1, 6, 0), LocalTime(1, 7, 0);
    assert TickHour(angle + 1, Some(6), [t7]) == angle + 1;
    assert TickHour(angle + 1, Some(6), [t6, t7]) == angle + 1;
    assert TickHour(angle, Some(5), [t6, t6, t7]) == angle + 1;
    assert [t5, t6, t6, t7][1..] == [t6, t6, t7];
  }

  /** 3:45:30 local time puts the hands at 112, 270 and 180 degrees. */
  lemma ThreeFortyFiveScenario()
    ensures Normalize(HourRotation(3, 45)) == 112
    ensures Normalize(MinuteRotation(45)) == 270
    ensures Normalize(SecondRotation(30, false)) == 180
  {
  }
}
