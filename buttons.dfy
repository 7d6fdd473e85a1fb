/**
 * The push button classifier: fed with the button level at each poll, it
 * reports push, hold (first and repeated), release and pressed (a release
 * before the hold threshold) from the time elapsed since the push.
 */
module Buttons {
  import opened GoTypes

  const Millisecond: int := 1_000_000
  const DefHoldThreshold: int := 500 * Millisecond
  const DefHoldCallRate: int := 100 * Millisecond

  /** The callbacks, in the order they are made; a consumer without a handler ignores them. */
  datatype Event = Push | Release | Pressed | Hold(first: bool)

  /** The fields Process updates: the push time and the last hold call (unset is Go's zero time) and the holding flag. */
  datatype Press = Press(pushTime: Option<int>, lastHoldCall: Option<int>, isHolding: bool)

  const Idle: Press := Press(None, None, false)

  /** The new fields and the callbacks made by one call of Process. */
  datatype Outcome = Outcome(press: Press, out: seq<Event>)

  /**
   * At least `d` has passed since `t`. From the zero time Go's Sub saturates
   * at its largest duration, so an unset time counts as long enough ago.
   */
  predicate Elapsed(now: int, t: Option<int>, d: int)
  {
    t.None? || now - t.value >= d
  }

  /** Process(buttonDown) at clock `now`, on values. */
  function Step(threshold: int, rate: int, p: Press, down: bool, now: int): Outcome
  {
    if down then
      if p.pushTime.None? then Outcome(p.(pushTime := Some(now)), [Push])
      else
        var first := !p.isHolding && Elapsed(now, p.pushTime, threshold);
        var p1 := if first then p.(isHolding := true, lastHoldCall := Some(now)) else p;
        var again := p1.isHolding && Elapsed(now, p1.lastHoldCall, rate);
        var p2 := if again then p1.(lastHoldCall := Some(now)) else p1;
        Outcome(p2, (if first then [Hold(true)] else []) + (if again then [Hold(false)] else []))
    else if p.pushTime.Some? then
      Outcome(Idle, [Release] + (if !Elapsed(now, p.pushTime, threshold) then [Pressed] else []))
    else Outcome(p, [])
  }

  /**
   * What one call reports: a push exactly on a down sample with no push
   * pending; a release exactly on an up sample with one pending, together
   * with pressed exactly when the hold threshold was not reached; the first
   * hold exactly when a pending push reaches the threshold while not yet
   * holding; an up sample always ends the press.
   */
  lemma StepEvents(threshold: int, rate: int, p: Press, down: bool, now: int)
    ensures var o := Step(threshold, rate, p, down, now);
      && (Push in o.out <==> down && p.pushTime.None?)
      && (Release in o.out <==> !down && p.pushTime.Some?)
      && (Pressed in o.out <==> !down && p.pushTime.Some? && now - p.pushTime.value < threshold)
      && (Hold(true) in o.out <==> down && p.pushTime.Some? && !p.isHolding && now - p.pushTime.value >= threshold)
      && (!down ==> o.press == Idle || (p.pushTime.None? && o.press == p && o.out == []))
  {
  }

  /**
   * The repeated hold: while holding, a down sample reports hold(false) exactly
   * when the hold call rate has passed since the last hold call, and then
   * records `now` as that call; the sample that starts holding records the
   * first hold call at `now`, so it repeats at once only for a rate of zero
   * or less.
   */
  lemma HoldRepeats(threshold: int, rate: int, p: Press, now: int)
    requires p.pushTime.Some?
    ensures var o := Step(threshold, rate, p, true, now);
      && (p.isHolding ==>
            && (Hold(false) in o.out <==> Elapsed(now, p.lastHoldCall, rate))
            && o.press.lastHoldCall == if Hold(false) in o.out then Some(now) else p.lastHoldCall)
      && (!p.isHolding ==>
            && (Hold(false) in o.out <==> now - p.pushTime.value >= threshold && rate <= 0)
            && (o.press.isHolding ==> o.press.lastHoldCall == Some(now)))
  {
  }

  /** Every time recorded in `p` is at or before `now`: the clock does not run backwards. */
  predicate NotAfter(p: Press, now: int)
  {
    (p.pushTime.Some? ==> p.pushTime.value <= now) && (p.lastHoldCall.Some? ==> p.lastHoldCall.value <= now)
  }

  /**
   * The fields agree: holding implies a push is pending, a hold call was
   * made, and it was made at or after the threshold; not holding implies no
   * hold call is recorded.
   */
  predicate Consistent(threshold: int, p: Press)
  {
    if p.isHolding then
      p.pushTime.Some? && p.lastHoldCall.Some? && p.lastHoldCall.value - p.pushTime.value >= threshold
    else p.lastHoldCall.None?
  }

  /** Process keeps the fields consistent as long as the clock does not run backwards. */
  lemma StepConsistent(threshold: int, rate: int, p: Press, down: bool, now: int)
    requires Consistent(threshold, p) && NotAfter(p, now)
    ensures var o := Step(threshold, rate, p, down, now);
      Consistent(threshold, o.press) && NotAfter(o.press, now)
  {
  }

  /** Releasing a button that is holding reports the release only, never pressed. */
  lemma NoPressedWhileHolding(threshold: int, rate: int, p: Press, now: int)
    requires Consistent(threshold, p) && NotAfter(p, now) && p.isHolding
    ensures Step(threshold, rate, p, false, now).out == [Release]
  {
  }

  /** One poll: the level and the clock. */
  datatype Sample = Sample(down: bool, now: int)

  /** Process called for each sample in turn. */
  function Feed(threshold: int, rate: int, p: Press, samples: seq<Sample>): Outcome
    decreases |samples|
  {
    if samples == [] then Outcome(p, [])
    else
      var o := Step(threshold, rate, p, samples[0].down, samples[0].now);
      var rest := Feed(threshold, rate, o.press, samples[1..]);
      Outcome(rest.press, o.out + rest.out)
  }

  /** Feeding two runs of samples is feeding the first and then the second from where it left off. */
  lemma {:induction false} FeedAppend(threshold: int, rate: int, p: Press, a: seq<Sample>, b: seq<Sample>)
    ensures var oa := Feed(threshold, rate, p, a);
      var ob := Feed(threshold, rate, oa.press, b);
      Feed(threshold, rate, p, a + b) == Outcome(ob.press, oa.out + ob.out)
    decreases |a|
  {
    if a == [] {
      assert a + b == b;
    } else {
      var o := Step(threshold, rate, p, a[0].down, a[0].now);
      assert (a + b)[1..] == a[1..] + b;
      FeedAppend(threshold, rate, o.press, a[1..], b);
      var oa := Feed(threshold, rate, o.press, a[1..]);
      var ob := Feed(threshold, rate, oa.press, b);
      assert o.out + (oa.out + ob.out) == (o.out + oa.out) + ob.out;
    }
  }

  /** Down samples, in clock order, none before `t0`. */
  predicate HeldFrom(samples: seq<Sample>, t0: int)
  {
    && (forall i :: 0 <= i < |samples| ==> samples[i].down && t0 <= samples[i].now)
    && (forall i, j :: 0 <= i < j < |samples| ==> samples[i].now <= samples[j].now)
  }

  /** The clock of the last sample, or `t0` when there is none. */
  function LastTime(t0: int, samples: seq<Sample>): int
  {
    if samples == [] then t0 else samples[|samples| - 1].now
  }

  /**
   * While the button stays down after its push: the push time stays, only
   * hold events are reported, the first hold at most once and exactly when
   * holding begins, and holding once begun goes on.
   */
  lemma {:induction false} HeldDown(threshold: int, rate: int, p: Press, samples: seq<Sample>, t0: int)
    requires p.pushTime.Some? && Consistent(threshold, p) && NotAfter(p, t0) && HeldFrom(samples, t0)
    ensures var o := Feed(threshold, rate, p, samples);
      && o.press.pushTime == p.pushTime
      && Consistent(threshold, o.press) && NotAfter(o.press, LastTime(t0, samples))
      && (forall e :: e in o.out ==> e.Hold?)
      && multiset(o.out)[Hold(true)] == (if o.press.isHolding && !p.isHolding then 1 else 0)
      && (p.isHolding ==> o.press.isHolding)
    decreases |samples|
  {
    if samples != [] {
      var s := samples[0];
      var o1 := Step(threshold, rate, p, s.down, s.now);
      HeldStep(threshold, rate, p, s.now, t0);
      assert HeldFrom(samples[1..], s.now);
      HeldDown(threshold, rate, o1.press, samples[1..], s.now);
      assert LastTime(s.now, samples[1..]) == LastTime(t0, samples);
    }
  }

  /** One down sample after the push: HeldDown for a single poll. */
  lemma HeldStep(threshold: int, rate: int, p: Press, now: int, t0: int)
    requires p.pushTime.Some? && Consistent(threshold, p) && NotAfter(p, t0) && t0 <= now
    ensures var o := Step(threshold, rate, p, true, now);
      && o.press.pushTime == p.pushTime
      && Consistent(threshold, o.press) && NotAfter(o.press, now)
      && (forall e :: e in o.out ==> e.Hold?)
      && multiset(o.out)[Hold(true)] == (if o.press.isHolding && !p.isHolding then 1 else 0)
      && (p.isHolding ==> o.press.isHolding)
  {
    StepConsistent(threshold, rate, p, true, now);
  }

  /**
   * One whole press from idle: a push, down samples, and a release, in
   * clock order. It reports one push first and one release; the first hold
   * at most once; pressed exactly when released before the threshold; and
   * never both pressed and a hold. The button is idle again afterwards.
   */
  lemma OnePress(threshold: int, rate: int, push: int, held: seq<Sample>, up: int)
    requires HeldFrom(held, push) && LastTime(push, held) <= up
    ensures var o := Feed(threshold, rate, Idle, [Sample(true, push)] + held + [Sample(false, up)]);
      && o.press == Idle
      && o.out != [] && o.out[0] == Push
      && multiset(o.out)[Push] == 1 && multiset(o.out)[Release] == 1
      && multiset(o.out)[Hold(true)] <= 1
      && (Pressed in o.out <==> up - push < threshold)
      && !(Pressed in o.out && Hold(true) in o.out)
  {
    var p1 := Press(Some(push), None, false);
    assert Step(threshold, rate, Idle, true, push) == Outcome(p1, [Push]);
    assert Feed(threshold, rate, Idle, [Sample(true, push)]) == Outcome(p1, [Push]);
    FeedAppend(threshold, rate, Idle, [Sample(true, push)], held);
    var oh := Feed(threshold, rate, p1, held);
    HeldDown(threshold, rate, p1, held, push);
    FeedAppend(threshold, rate, Idle, [Sample(true, push)] + held, [Sample(false, up)]);
    ReleaseStep(threshold, rate, oh.press, push, up);
    var pressed := up - push < threshold;
    assert Feed(threshold, rate, oh.press, [Sample(false, up)])
      == Outcome(Idle, [Release] + (if pressed then [Pressed] else []));
    PressEvents(oh.out, oh.press.isHolding, pressed);
  }

  /** Releasing after a push at `push`: idle again, a release, and pressed exactly before the threshold, which a holding button has passed. */
  lemma ReleaseStep(threshold: int, rate: int, q: Press, push: int, up: int)
    requires q.pushTime == Some(push) && Consistent(threshold, q) && NotAfter(q, up)
    ensures Step(threshold, rate, q, false, up)
      == Outcome(Idle, [Release] + (if up - push < threshold then [Pressed] else []))
    ensures q.isHolding ==> up - push >= threshold
  {
  }

  /** The counts of a press's events: a push, holds with at most one first hold, a release and maybe pressed. */
  lemma PressEvents(holds: seq<Event>, holding: bool, pressed: bool)
    requires forall e :: e in holds ==> e.Hold?
    requires multiset(holds)[Hold(true)] == (if holding then 1 else 0)
    requires holding ==> !pressed
    ensures var out := [Push] + holds + ([Release] + (if pressed then [Pressed] else []));
      && out != [] && out[0] == Push
      && multiset(out)[Push] == 1 && multiset(out)[Release] == 1
      && multiset(out)[Hold(true)] <= 1
      && (Pressed in out <==> pressed)
      && !(Pressed in out && Hold(true) in out)
  {
    var out := [Push] + holds + ([Release] + (if pressed then [Pressed] else []));
    assert Push !in holds && Release !in holds && Pressed !in holds;
    assert multiset(holds)[Push] == 0 && multiset(holds)[Release] == 0;
    assert Hold(true) in out ==> Hold(true) in holds;
  }

  /** Go's Button with its callbacks reduced to the reported events. */
  class Button {
    var holdThreshold: int
    var holdCallRate: int
    var pushTime: Option<int>
    var lastHoldCall: Option<int>
    var isHolding: bool
    var events: seq<Event>

    /** A zero Button. */
    constructor ()
      ensures holdThreshold == 0 && holdCallRate == 0 && Fields() == Idle && events == []
    {
      holdThreshold, holdCallRate := 0, 0;
      pushTime, lastHoldCall, isHolding := None, None, false;
      events := [];
    }

    /** The fields Process updates, as a value. */
    function Fields(): Press
      reads this
    {
      Press(pushTime, lastHoldCall, isHolding)
    }

    /** Configure: a zero threshold becomes 500 ms and a zero hold call rate 100 ms; the press state is kept. */
    method Configure(threshold: int, rate: int)
      modifies this
      ensures holdThreshold == if threshold == 0 then DefHoldThreshold else threshold
      ensures holdCallRate == if rate == 0 then DefHoldCallRate else rate
      ensures Fields() == old(Fields()) && events == old(events)
    {
      holdThreshold := if threshold == 0 then DefHoldThreshold else threshold;
      holdCallRate := if rate == 0 then DefHoldCallRate else rate;
    }

    /** Process with the button level and the clock reading `now`, truncated to milliseconds by the caller. */
    method Process(buttonDown: bool, now: int)
      modifies this
      ensures var o := Step(holdThreshold, holdCallRate, old(Fields()), buttonDown, now);
        Fields() == o.press && events == old(events) + o.out
      ensures holdThreshold == old(holdThreshold) && holdCallRate == old(holdCallRate)
    {
      if buttonDown {
        if pushTime.None? {
          pushTime := Some(now);
          events := events + [Push];
        } else {
          if !isHolding && Elapsed(now, pushTime, holdThreshold) {
            events := events + [Hold(true)];
            isHolding := true;
            lastHoldCall := Some(now);
          }
          if isHolding && Elapsed(now, lastHoldCall, holdCallRate) {
            events := events + [Hold(false)];
            lastHoldCall := Some(now);
          }
        }
      } else {
        if pushTime.Some? {
          events := events + [Release];
          if !Elapsed(now, pushTime, holdThreshold) {
            events := events + [Pressed];
          }
          pushTime := None;
          lastHoldCall := None;
          isHolding := false;
        }
      }
    }
  }
}
