/**
 * The clocks and the controller that sets their hands from the local time
 * and moves them on every second.
 */
module Clocks {
  import opened Wrappers
  import opened Angles
  import opened Animation

  /**
   * One clock of the page.  `items` are the first three items of its hands
   * group, in the order they were drawn: hour, minute and second hand (the
   * fourth item, the centre dot, never moves).
   */
  class Clock {
    const canvasSelector: string
    const timezone: string
    const items: seq<Hand>

    /** A clock with its three hands freshly drawn at twelve. */
    constructor (canvasSelector: string, timezone: string)
      ensures this.canvasSelector == canvasSelector && this.timezone == timezone
      ensures |items| == 3 && fresh(items[0]) && fresh(items[1]) && fresh(items[2])
      ensures items[0] != items[1] && items[0] != items[2] && items[1] != items[2]
      ensures forall p :: 0 <= p < 3 ==> items[p].angle == 0 && items[p].cachedMinute == None
    {
      this.canvasSelector := canvasSelector;
      this.timezone := timezone;
      var hour := new Hand();
      var minute := new Hand();
      var second := new Hand();
      items := [hour, minute, second];
    }

    function HourHand(): Hand
      requires |items| == 3
    {
      items[0]
    }

    function MinuteHand(): Hand
      requires |items| == 3
    {
      items[1]
    }

    function SecondHand(): Hand
      requires |items| == 3
    {
      items[2]
    }

    /** Three distinct hands. */
    predicate Valid()
    {
      |items| == 3 && items[0] != items[1] && items[0] != items[2] && items[1] != items[2]
    }

    /** The hands of this clock. */
    ghost function Repr(): set<Hand>
      requires Valid()
    {
      {items[0], items[1], items[2]}
    }

    /**
     * What setting this clock from time `t` does to its hands: each is turned by
     * its formula, the minute is cached, the other caches are left alone.
     */
    twostate predicate WasSet(t: LocalTime, isResize: bool)
      requires Valid()
      reads Repr()
    {
      && SecondHand().angle == old(SecondHand().angle) + SecondRotation(t.second, isResize)
      && MinuteHand().angle == old(MinuteHand().angle) + MinuteRotation(t.minute)
      && HourHand().angle == old(HourHand().angle) + HourRotation(t.hour, t.minute)
      && MinuteHand().cachedMinute == Some(t.minute)
      && SecondHand().cachedMinute == old(SecondHand().cachedMinute)
      && HourHand().cachedMinute == old(HourHand().cachedMinute)
    }

    /** The part of setCurrentTime that sets this clock from its local time `t`. */
    method SetTime(t: LocalTime, isResize: bool)
      requires Valid()
      modifies SecondHand()`angle, MinuteHand(), HourHand()`angle
      ensures WasSet(t, isResize)
    {
      var seconds := t.second + ResizeBonus(isResize);
      SecondHand().Rotate(seconds * 6);

      var minutes := t.minute;
      MinuteHand().cachedMinute := Some(minutes);
      MinuteHand().Rotate(minutes * 6);

      var hours := t.hour;
      HourHand().Rotate(hours * 30 + minutes / 2);
    }

    /**
     * The hands of this clock one tick queues when it reads `minute` with
     * `cached` in its minute hand's cache: the second hand, then the minute
     * hand if the minute changed.
     */
    function Queued(cached: Option<int>, minute: int): seq<Hand>
      requires Valid()
    {
      [SecondHand()] + (if cached != Some(minute) then [MinuteHand()] else [])
    }

    /** None of the three hands has turned or changed its cache since the old state. */
    twostate predicate Unchanged()
      requires Valid()
      reads Repr()
    {
      forall p :: 0 <= p < 3 ==> items[p].angle == old(items[p].angle) && items[p].cachedMinute == old(items[p].cachedMinute)
    }

    /**
     * What one tick reading `minute` does to this clock's hands: the minute is
     * cached, the hour hand gets its nudge, nothing else moves.
     */
    twostate predicate Ticked(minute: int)
      requires Valid()
      reads Repr()
    {
      && MinuteHand().cachedMinute == Some(minute)
      && HourHand().angle == old(HourHand().angle) + HourNudge(old(MinuteHand().cachedMinute), minute)
      && MinuteHand().angle == old(MinuteHand().angle)
      && SecondHand().angle == old(SecondHand().angle)
      && SecondHand().cachedMinute == old(SecondHand().cachedMinute)
      && HourHand().cachedMinute == old(HourHand().cachedMinute)
    }

    /**
     * Where the hands of a clock set from `t` on hands drawn at twelve point:
     * the second hand at its second (one more when resizing), the minute hand
     * at its minute, the hour hand on the 12-hour dial with half a degree per
     * minute; the minute is cached.
     */
    predicate Shows(t: LocalTime, isResize: bool)
      requires Valid()
      reads Repr()
    {
      && SecondHand().Position() == ((t.second + ResizeBonus(isResize)) % 60) * 6
      && MinuteHand().Position() == t.minute * 6
      && HourHand().Position() == (t.hour % 12) * 30 + t.minute / 2
      && MinuteHand().cachedMinute == Some(t.minute)
    }

    /**
     * What a tick reading `minute` and the frames of its batch do together: the
     * second hand turns 6 degrees, the minute hand 6 degrees if the minute
     * changed, the hour hand only its nudge; the minute is cached.
     */
    twostate predicate Settled(minute: int)
      requires Valid()
      reads Repr()
    {
      && SecondHand().angle == old(SecondHand().angle) + 6
      && MinuteHand().angle == old(MinuteHand().angle) + (if old(MinuteHand().cachedMinute) != Some(minute) then 6 else 0)
      && HourHand().angle == old(HourHand().angle) + HourNudge(old(MinuteHand().cachedMinute), minute)
      && MinuteHand().cachedMinute == Some(minute)
      && SecondHand().cachedMinute == old(SecondHand().cachedMinute)
      && HourHand().cachedMinute == old(HourHand().cachedMinute)
    }

    /** The part of the per-second tick that handles this clock, reading `minute`. */
    method TickHands(animator: ClockHandAnimationManager, minute: int)
      requires Valid()
      modifies animator`hands, HourHand()`angle, MinuteHand()`cachedMinute
      ensures animator.hands == old(animator.hands) + Queued(old(MinuteHand().cachedMinute), minute)
      ensures HourHand().angle == old(HourHand().angle) + HourNudge(old(MinuteHand().cachedMinute), minute)
      ensures MinuteHand().cachedMinute == Some(minute)
    {
      var secondHand := SecondHand();
      var minuteHand := MinuteHand();
      var hourHand := HourHand();

      animator.Add(secondHand);

      if Some(minute) != minuteHand.cachedMinute {
        animator.Add(minuteHand);

        if minute % 2 == 0 {
          hourHand.Rotate(1);
        }

        minuteHand.cachedMinute := Some(minute);
      }
    }
  }

  /**
   * The controller: the clocks of the page and the animation scheduler their
   * moving hands are queued on.
   */
  class ClockManager {
    var clocks: seq<Clock>
    const animator: ClockHandAnimationManager
    /** The hands of all clocks. */
    ghost var Repr: set<Hand>

    /** Every clock has three distinct hands, and no hand belongs to two clocks. */
    ghost predicate Valid()
      reads this
    {
      && (forall i :: 0 <= i < |clocks| ==> clocks[i].Valid() && clocks[i].Repr() <= Repr)
      && (forall i, j :: 0 <= i < |clocks| && 0 <= j < |clocks| && i != j ==>
            clocks[i].Repr() !! clocks[j].Repr())
    }

    /**
     * The three configured clocks (New York, Kyiv, Moscow) with their hands
     * drawn at twelve and no minute cached yet.
     */
    constructor (animator: ClockHandAnimationManager)
      ensures this.animator == animator && Valid() && |clocks| == 3
      ensures clocks[0].timezone == "America/New_York" && clocks[0].canvasSelector == "#clock_new_york canvas"
      ensures clocks[1].timezone == "Europe/Kiev" && clocks[1].canvasSelector == "#clock_kyiv canvas"
      ensures clocks[2].timezone == "Europe/Moscow" && clocks[2].canvasSelector == "#clock_moscow canvas"
      ensures forall i, p :: 0 <= i < 3 && 0 <= p < 3 ==>
                clocks[i].items[p].angle == 0 && clocks[i].items[p].cachedMinute == None
      ensures Repr == clocks[0].Repr() + clocks[1].Repr() + clocks[2].Repr() && fresh(Repr)
    {
      this.animator := animator;
      var newYork := new Clock("#clock_new_york canvas", "America/New_York");
      var kyiv := new Clock("#clock_kyiv canvas", "Europe/Kiev");
      var moscow := new Clock("#clock_moscow canvas", "Europe/Moscow");
      assert newYork.Repr() !! kyiv.Repr() && newYork.Repr() !! moscow.Repr() && kyiv.Repr() !! moscow.Repr();
      clocks := [newYork, kyiv, moscow];
      Repr := newYork.Repr() + kyiv.Repr() + moscow.Repr();
    }

    /**
     * Sets every clock from its local time `times[i]`, by rotations relative to
     * where the hands are: the second hand by `seconds * 6` (one second more
     * when resizing), the minute hand by `minutes * 6`, the hour hand by
     * `hours * 30 + floor(minutes / 2)`; the minute is cached on the minute hand.
     */
    method SetCurrentTime(times: seq<LocalTime>, isResize: bool)
      requires Valid() && |times| == |clocks|
      modifies Repr
      ensures forall i :: 0 <= i < |clocks| ==> clocks[i].WasSet(times[i], isResize)
    {
      for i := 0 to |clocks|
        invariant forall j :: 0 <= j < i ==> clocks[j].WasSet(times[j], isResize)
        invariant forall j :: i <= j < |clocks| ==> clocks[j].Unchanged()
      {
        clocks[i].SetTime(times[i], isResize);
      }
    }

    /**
     * The hands one tick queues for the first `n` clocks: each clock's second
     * hand, then its minute hand when the minute read differs from the cached one.
     */
    ghost function Batch(n: nat, minutes: seq<int>): seq<Hand>
      requires Valid() && n <= |clocks| && |minutes| == |clocks|
      reads this, Repr
    {
      if n == 0 then []
      else
        var c := clocks[n - 1];
        Batch(n - 1, minutes) + c.Queued(c.MinuteHand().cachedMinute, minutes[n - 1])
    }

    /**
     * In the hands one tick queues for the first `n` clocks, the second hand
     * of clock `i` appears once, its minute hand once exactly when the minute
     * read differs from the cached one, and its hour hand never.
     */
    lemma {:induction false} BatchCounts(n: nat, minutes: seq<int>, i: nat)
      requires Valid() && i < n <= |clocks| && |minutes| == |clocks|
      ensures var c := clocks[i];
              && Occurrences(Batch(n, minutes), c.SecondHand()) == 1
              && Occurrences(Batch(n, minutes), c.MinuteHand())
                 == (if c.MinuteHand().cachedMinute != Some(minutes[i]) then 1 else 0)
              && Occurrences(Batch(n, minutes), c.HourHand()) == 0
    {
      var c := clocks[i];
      var changed := c.MinuteHand().cachedMinute != Some(minutes[i]);
      var rest := if changed then [c.MinuteHand()] else [];
      var q := c.Queued(c.MinuteHand().cachedMinute, minutes[i]);
      assert q == [c.SecondHand()] + rest;
      assert [c.SecondHand()][..0] == [];
      OccurrencesAppend([c.SecondHand()], rest, c.SecondHand());
      OccurrencesAppend([c.SecondHand()], rest, c.MinuteHand());
      OccurrencesAppend([c.SecondHand()], rest, c.HourHand());
      if changed {
        assert rest[..0] == [];
      }
      CountOf(n, minutes, i, c.SecondHand(), 1);
      CountOf(n, minutes, i, c.MinuteHand(), if changed then 1 else 0);
      CountOf(n, minutes, i, c.HourHand(), 0);
    }

    /**
     * A hand of clock `i` appears in the hands one tick queues for the first
     * `n` clocks as often as in what clock `i` itself queues.
     */
    lemma {:induction false} CountOf(n: nat, minutes: seq<int>, i: nat, x: Hand, k: nat)
      requires Valid() && i < n <= |clocks| && |minutes| == |clocks|
      requires x in clocks[i].Repr()
      requires k == Occurrences(clocks[i].Queued(clocks[i].MinuteHand().cachedMinute, minutes[i]), x)
      ensures Occurrences(Batch(n, minutes), x) == k
    {
      var last := clocks[n - 1];
      var step := last.Queued(last.MinuteHand().cachedMinute, minutes[n - 1]);
      assert Batch(n, minutes) == Batch(n - 1, minutes) + step;
      OccurrencesAppend(Batch(n - 1, minutes), step, x);
      if i < n - 1 {
        CountOf(n - 1, minutes, i, x, k);
        assert last.Repr() !! clocks[i].Repr();
        assert x !in step;
      } else {
        NotQueuedBefore(n - 1, minutes, i);
        assert x !in Batch(n - 1, minutes);
      }
    }

    /** A tick queues no hand of clock `i` before it reaches clock `i`. */
    lemma {:induction false} NotQueuedBefore(k: nat, minutes: seq<int>, i: nat)
      requires Valid() && k <= i < |clocks| && |minutes| == |clocks|
      ensures forall h :: h in Batch(k, minutes) ==> h !in clocks[i].Repr()
    {
      if k > 0 {
        NotQueuedBefore(k - 1, minutes, i);
        var last := clocks[k - 1];
        assert last.Repr() !! clocks[i].Repr();
        assert Batch(k, minutes) == Batch(k - 1, minutes) + last.Queued(last.MinuteHand().cachedMinute, minutes[k - 1]);
      }
    }

    /**
     * The body of the per-second interval, with `minutes[i]` the minute clock
     * `i` reads now: queue every second hand; where the minute changed, queue
     * the minute hand, nudge the hour hand by one degree if the new minute is
     * even, and cache the minute; then start a 6-degree batch.
     */
    method Tick(minutes: seq<int>)
      requires Valid() && |minutes| == |clocks|
      modifies animator, Repr
      ensures animator.hands == old(animator.hands) + old(Batch(|clocks|, minutes))
      ensures animator.degree == 6 && animator.degreeRotated == 0 && animator.subscribed
      ensures forall i :: 0 <= i < |clocks| ==> clocks[i].Ticked(minutes[i])
    {
      for i := 0 to |clocks|
        invariant animator.hands == old(animator.hands) + old(Batch(i, minutes))
        invariant forall j :: 0 <= j < i ==> clocks[j].Ticked(minutes[j])
        invariant forall j :: i <= j < |clocks| ==> clocks[j].Unchanged()
      {
        ghost var queued := animator.hands;
        ghost var step := clocks[i].Queued(clocks[i].MinuteHand().cachedMinute, minutes[i]);
        assert old(Batch(i + 1, minutes)) == old(Batch(i, minutes)) + step by {
          assert clocks[i].Unchanged();
        }
        clocks[i].TickHands(animator, minutes[i]);
        assert animator.hands == old(animator.hands) + old(Batch(i + 1, minutes)) by {
          assert animator.hands == queued + step;
          assert queued + step == old(animator.hands) + (old(Batch(i, minutes)) + step);
        }
      }

      animator.Run(6);
    }

    /** The minute of each reading. */
    function NextMinutes(next: seq<LocalTime>): seq<int>
    {
      seq(|next|, i requires 0 <= i < |next| => next[i].minute)
    }

    /**
     * The tick keeps the hour hands on the setCurrentTime formula: when every
     * clock's hour hand points where the formula says for its reading
     * `times[i]`, with that minute cached, a tick whose readings `next[i]` are
     * the same or the next minute leaves every hour hand where the formula says
     * for `next[i]`, with the new minute cached.
     */
    method TickKeepsHourFormula(times: seq<LocalTime>, next: seq<LocalTime>)
      requires Valid() && |times| == |clocks| && |next| == |clocks|
      requires forall i :: 0 <= i < |clocks| ==> ValidTime(times[i]) && Follows(times[i], next[i])
      requires forall i :: 0 <= i < |clocks| ==>
                 && clocks[i].HourHand().Position() == Normalize(HourRotation(times[i].hour, times[i].minute))
                 && clocks[i].MinuteHand().cachedMinute == Some(times[i].minute)
      modifies animator, Repr
      ensures forall i :: 0 <= i < |clocks| ==>
                && clocks[i].HourHand().Position() == Normalize(HourRotation(next[i].hour, next[i].minute))
                && clocks[i].MinuteHand().cachedMinute == Some(next[i].minute)
      ensures forall i :: 0 <= i < |clocks| ==> clocks[i].Ticked(next[i].minute)
      ensures animator.hands == old(animator.hands) + old(Batch(|clocks|, NextMinutes(next)))
      ensures animator.degree == 6 && animator.degreeRotated == 0 && animator.subscribed
    {
      var minutes := NextMinutes(next);
      label Before:
      Tick(minutes);
      forall i | 0 <= i < |clocks|
        ensures clocks[i].HourHand().Position() == Normalize(HourRotation(next[i].hour, next[i].minute))
      {
        var c := clocks[i];
        assert c.Ticked@Before(minutes[i]);
        NudgeKeepsFormula(times[i], next[i], old@Before(c.HourHand().angle));
      }
    }

    /** Every hand one tick queues belongs to some clock. */
    lemma {:induction false} BatchInRepr(n: nat, minutes: seq<int>)
      requires Valid() && n <= |clocks| && |minutes| == |clocks|
      ensures forall h :: h in Batch(n, minutes) ==> h in Repr
    {
      if n > 0 {
        BatchInRepr(n - 1, minutes);
        var last := clocks[n - 1];
        assert Batch(n, minutes) == Batch(n - 1, minutes) + last.Queued(last.MinuteHand().cachedMinute, minutes[n - 1]);
      }
    }

    /**
     * The hands one tick queues for all clocks: each clock's second hand once,
     * its minute hand once exactly when its minute changed, its hour hand
     * never, and no hand from outside the clocks.
     */
    lemma WholeBatch(minutes: seq<int>)
      requires Valid() && |minutes| == |clocks|
      ensures forall i :: 0 <= i < |clocks| ==>
                var c := clocks[i];
                && Occurrences(Batch(|clocks|, minutes), c.SecondHand()) == 1
                && Occurrences(Batch(|clocks|, minutes), c.MinuteHand())
                   == (if c.MinuteHand().cachedMinute != Some(minutes[i]) then 1 else 0)
                && Occurrences(Batch(|clocks|, minutes), c.HourHand()) == 0
      ensures forall h :: h in Batch(|clocks|, minutes) ==> h in Repr
    {
      forall i | 0 <= i < |clocks|
        ensures var c := clocks[i];
                && Occurrences(Batch(|clocks|, minutes), c.SecondHand()) == 1
                && Occurrences(Batch(|clocks|, minutes), c.MinuteHand())
                   == (if c.MinuteHand().cachedMinute != Some(minutes[i]) then 1 else 0)
                && Occurrences(Batch(|clocks|, minutes), c.HourHand()) == 0
      {
        BatchCounts(|clocks|, minutes, i);
      }
      BatchInRepr(|clocks|, minutes);
    }

    /**
     * One tick followed by the frames of its batch, with nothing else queued:
     * seven frame events, after which every clock has settled one second on
     * and the queue is empty again.
     */
    method TickAndSettle(minutes: seq<int>) returns (frames: nat)
      requires Valid() && |minutes| == |clocks| && animator.hands == []
      modifies animator, Repr
      ensures frames == 7 && animator.hands == [] && !animator.subscribed
      ensures animator.degree == 6 && animator.degreeRotated == 6
      ensures forall i :: 0 <= i < |clocks| ==> clocks[i].Settled(minutes[i])
    {
      ghost var batch := Batch(|clocks|, minutes);
      WholeBatch(minutes);
      Tick(minutes);
      assert animator.hands == batch;
      frames := animator.PlayFrames();
      forall i | 0 <= i < |clocks|
        ensures clocks[i].Settled(minutes[i])
      {
        var c := clocks[i];
        assert c.SecondHand() in batch && c.HourHand() !in batch;
      }
    }
  }

  /**
   * Drawing the three clocks at twelve and setting them from their local times
   * `times`, as start-up does (and the resize handler, with `isResize`): every
   * hand then points where its clock's reading says.
   */
  method Start(times: seq<LocalTime>, isResize: bool) returns (manager: ClockManager)
    requires |times| == 3 && forall i :: 0 <= i < 3 ==> ValidTime(times[i])
    ensures manager.Valid() && |manager.clocks| == 3
    ensures forall i :: 0 <= i < 3 ==> manager.clocks[i].Shows(times[i], isResize)
    ensures fresh(manager) && fresh(manager.animator) && fresh(manager.Repr)
    ensures manager.animator.hands == [] && !manager.animator.subscribed
    ensures manager.animator.degree == 0 && manager.animator.degreeRotated == 0
    ensures manager.clocks[0].timezone == "America/New_York" && manager.clocks[0].canvasSelector == "#clock_new_york canvas"
    ensures manager.clocks[1].timezone == "Europe/Kiev" && manager.clocks[1].canvasSelector == "#clock_kyiv canvas"
    ensures manager.clocks[2].timezone == "Europe/Moscow" && manager.clocks[2].canvasSelector == "#clock_moscow canvas"
  {
    var animator := new ClockHandAnimationManager();
    manager := new ClockManager(animator);
    label Drawn:
    manager.SetCurrentTime(times, isResize);
    forall i | 0 <= i < 3
      ensures manager.clocks[i].Shows(times[i], isResize)
    {
      assert manager.clocks[i].WasSet@Drawn(times[i], isResize);
      SecondFromTwelve(times[i], isResize);
      MinuteFromTwelve(times[i]);
      HourFromTwelve(times[i]);
    }
  }
}
