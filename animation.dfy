/**
 * The hands and the scheduler that turns a tick's movement into a run of
 * one-degree steps, one per rendered frame.
 */
module Animation {
  import opened Wrappers
  import opened Angles

  /** How many entries of `q` are `x`. */
  function Occurrences<T(==)>(q: seq<T>, x: T): (n: nat)
    ensures n <= |q|
    ensures n > 0 <==> x in q
  {
    if q == [] then 0
    else Occurrences(q[..|q| - 1], x) + (if q[|q| - 1] == x then 1 else 0)
  }

  /** The count agrees with the multiplicity of `x` in the multiset of `q`. */
  lemma {:induction false} OccurrencesIsMultiplicity<T>(q: seq<T>, x: T)
    ensures Occurrences(q, x) == multiset(q)[x]
  {
    if q != [] {
      assert q == q[..|q| - 1] + [q[|q| - 1]];
      OccurrencesIsMultiplicity(q[..|q| - 1], x);
    }
  }

  /** Counting over a concatenation adds the counts of the two parts. */
  lemma {:induction false} OccurrencesAppend<T>(a: seq<T>, b: seq<T>, x: T)
    ensures Occurrences(a + b, x) == Occurrences(a, x) + Occurrences(b, x)
    decreases |b|
  {
    if b == [] {
      assert a + b == a;
    } else {
      var front, back := b[..|b| - 1], b[|b| - 1];
      assert (a + b)[..|a + b| - 1] == a + front;
      assert Occurrences(a + b, x) == Occurrences(a + front, x) + (if back == x then 1 else 0);
      OccurrencesAppend(a, front, x);
    }
  }

  /** `k + 1` rounds of `c` degrees are one round more than `k` rounds. */
  lemma ExtraRound(k: int, c: int)
    ensures (k + 1) * c == k * c + c
  {
  }

  /**
   * One hand of a clock (a paper.js path).  `angle` is the rotation, in
   * degrees, it has accumulated about the view centre since it was drawn
   * pointing at twelve; its position on the dial is that angle modulo 360.
   * `cachedMinute` is its `data.now`, written only on minute hands, `None`
   * while still undefined.
   */
  class Hand {
    var angle: int
    var cachedMinute: Option<int>

    /** A freshly drawn hand points at twelve and has nothing cached. */
    constructor ()
      ensures angle == 0 && cachedMinute == None && Position() == 0
    {
      angle := 0;
      cachedMinute := None;
    }

    /** Where the hand points on the dial. */
    function Position(): Degrees
      reads this
    {
      Normalize(angle)
    }

    /**
     * `hand.rotate(degree, view.center)`: a rotation relative to the current
     * one, so the new position is the old one turned by `degree`.
     */
    method Rotate(degree: int)
      modifies this`angle
      ensures angle == old(angle) + degree
      ensures Position() == Normalize(old(Position()) + degree)
    {
      RotationsCompose(angle, 0, degree);
      angle := angle + degree;
    }
  }

  /**
   * The animation scheduler: a queue of hands, a target number of degrees,
   * the degrees rotated so far in this batch, and whether its frame handler
   * is subscribed to the view's frame event.
   */
  class ClockHandAnimationManager {
    var hands: seq<Hand>
    var degree: int
    var degreeRotated: int
    var subscribed: bool

    /** Progress lies between no step and the target. */
    predicate InBounds()
      reads this
    {
      0 <= degreeRotated <= degree
    }

    constructor ()
      ensures hands == [] && degree == 0 && degreeRotated == 0 && !subscribed
      ensures InBounds()
    {
      hands := [];
      degree := 0;
      degreeRotated := 0;
      subscribed := false;
    }

    /** Queues `hand`; a hand queued twice is kept twice. */
    method Add(hand: Hand)
      modifies this`hands
      ensures hands == old(hands) + [hand]
    {
      hands := hands + [hand];
    }

    /**
     * Starts a batch of `d` degrees: the queue is kept as it is, so hands of an
     * unfinished batch go on turning in this one.
     */
    method Run(d: int)
      modifies this`degree, this`degreeRotated, this`subscribed
      ensures degree == d && degreeRotated == 0 && subscribed
      ensures InBounds() <==> d >= 0
    {
      degree := d;
      degreeRotated := 0;
      subscribed := true;
    }

    /** Empties the queue and unsubscribes the frame handler. */
    method Stop()
      modifies this`hands, this`subscribed
      ensures hands == [] && !subscribed
    {
      hands := [];
      subscribed := false;
    }

    /** Turns the hand of every queued entry by one degree, in queue order. */
    method TurnQueued()
      modifies hands
      ensures forall h :: h in hands ==> h.angle == old(h.angle) + Occurrences(hands, h)
      ensures forall h :: h in hands ==> h.cachedMinute == old(h.cachedMinute)
    {
      var i := 0;
      while i < |hands|
        invariant 0 <= i <= |hands|
        invariant forall h :: h in hands ==> h.angle == old(h.angle) + Occurrences(hands[..i], h)
        invariant forall h :: h in hands ==> h.cachedMinute == old(h.cachedMinute)
      {
        var turned := hands[i];
        assert hands[..i + 1][..i] == hands[..i];
        turned.Rotate(1);
        i := i + 1;
      }
      assert hands[..|hands|] == hands;
    }

    /**
     * One frame event.  A finished batch stops without rotating anything;
     * otherwise every queued entry turns its hand by one degree, so a hand
     * queued k times turns k degrees, and progress rises by one.
     */
    method FrameHandler()
      requires subscribed
      modifies this, hands
      ensures degree == old(degree)
      ensures old(degreeRotated) == old(degree) ==>
                hands == [] && !subscribed && degreeRotated == old(degreeRotated)
                && forall h :: h in old(hands) ==> h.angle == old(h.angle)
      ensures old(degreeRotated) != old(degree) ==>
                hands == old(hands) && subscribed && degreeRotated == old(degreeRotated) + 1
                && forall h :: h in old(hands) ==> h.angle == old(h.angle) + Occurrences(old(hands), h)
      ensures forall h :: h in old(hands) ==> h.cachedMinute == old(h.cachedMinute)
      ensures old(InBounds()) ==> InBounds()
    {
      if degreeRotated == degree {
        Stop();
        return;
      }
      TurnQueued();
      degreeRotated := degreeRotated + 1;
    }

    /**
     * Frame events from a running batch until the handler unsubscribes, with no
     * `add` or `run` in between: the `degree - degreeRotated` frames still due
     * each turn every queued entry's hand by one degree, and the next one stops.
     */
    method PlayFrames() returns (frames: nat)
      requires subscribed && InBounds()
      modifies this, hands
      ensures frames == old(degree - degreeRotated) + 1
      ensures hands == [] && !subscribed && degree == old(degree) && degreeRotated == degree
      ensures forall h :: h in old(hands) ==>
                h.angle == old(h.angle) + old(degree - degreeRotated) * Occurrences(old(hands), h)
      ensures forall h :: h in old(hands) ==> h.cachedMinute == old(h.cachedMinute)
    {
      ghost var start := degreeRotated;
      frames := 0;
      while subscribed
        invariant degree == old(degree) && start <= degreeRotated <= degree
        invariant subscribed ==> hands == old(hands) && frames == degreeRotated - start
        invariant !subscribed ==> hands == [] && frames == degree - start + 1 && degreeRotated == degree
        invariant forall h :: h in old(hands) ==>
                    h.angle == old(h.angle) + (degreeRotated - start) * Occurrences(old(hands), h)
        invariant forall h :: h in old(hands) ==> h.cachedMinute == old(h.cachedMinute)
        decreases degree - degreeRotated + (if subscribed then 1 else 0)
      {
        ghost var before := degreeRotated - start;
        FrameHandler();
        forall h | h in old(hands)
          ensures h.angle == old(h.angle) + (degreeRotated - start) * Occurrences(old(hands), h)
        {
          var c := Occurrences(old(hands), h);
          if degreeRotated - start != before {
            ExtraRound(before, c);
          }
        }
        frames := frames + 1;
      }
    }

    /**
     * `run(d)` followed by frame events until the handler unsubscribes, with no
     * `add` or `run` in between: exactly `d` frames rotate and the next one
     * stops, so each queued entry has turned its hand by `d` degrees.
     */
    method RunToCompletion(d: nat) returns (frames: nat)
      modifies this, hands
      ensures frames == d + 1
      ensures hands == [] && !subscribed && degree == d && degreeRotated == d
      ensures forall h :: h in old(hands) ==> h.angle == old(h.angle) + d * Occurrences(old(hands), h)
      ensures forall h :: h in old(hands) ==>
                h.Position() == Normalize(old(h.Position()) + d * Occurrences(old(hands), h))
      ensures forall h :: h in old(hands) ==> h.cachedMinute == old(h.cachedMinute)
    {
      Run(d);
      frames := PlayFrames();
      forall h | h in old(hands)
        ensures h.Position() == Normalize(old(h.Position()) + d * Occurrences(old(hands), h))
      {
        RotationsCompose(old(h.angle), 0, d * Occurrences(old(hands), h));
      }
    }
  }

  /**
   * run(6) over hands A, B and A again (add does not deduplicate): seven frame
   * events, after which A has turned 12 degrees, B 6 degrees, and the queue is empty.
   */
  method DuplicateHandScenario() returns (a: Hand, b: Hand, frames: nat, queued: seq<Hand>)
    ensures frames == 7 && queued == []
    ensures a.angle == 12 && b.angle == 6
  {
    var scheduler := new ClockHandAnimationManager();
    a := new Hand();
    b := new Hand();
    scheduler.Add(a);
    scheduler.Add(b);
    scheduler.Add(a);
    var q := scheduler.hands;
    assert q == [a, b, a] && q[..2] == [a, b] && q[..2][..1] == [a] && [a][..0] == [];
    assert Occurrences([a], a) == 1 && Occurrences([a], b) == 0;
    assert Occurrences([a, b], a) == 1 && Occurrences([a, b], b) == 1;
    assert Occurrences(q, a) == 2 && Occurrences(q, b) == 1;
    frames := scheduler.RunToCompletion(6);
    queued := scheduler.hands;
  }
}
