/**
 * A push button wired to its own digital pin: the pin level, read by the
 * caller at each poll, is turned into "down" according to the wiring
 * (active high or active low) and handed to the button classifier.
 */
module ButtonSolos {
  import opened Buttons

  const DefButtonPollRate: int := 10 * Millisecond

  /** Whether a pin level means "pressed": the level equals the active level. */
  function IsDown(activeHigh: bool, level: bool): (down: bool)
    ensures down <==> (activeHigh && level) || (!activeHigh && !level)
  {
    level == activeHigh
  }

  /** Of the two pin levels exactly one means pressed, whichever the wiring. */
  lemma OneLevelDown(activeHigh: bool)
    ensures IsDown(activeHigh, true) != IsDown(activeHigh, false)
    ensures IsDown(activeHigh, true) == activeHigh
  {
  }

  /** Inverting the wiring inverts the reading of every level. */
  lemma WiringInverts(activeHigh: bool, level: bool)
    ensures IsDown(!activeHigh, level) == !IsDown(activeHigh, level)
    ensures IsDown(!activeHigh, !level) == IsDown(activeHigh, level)
  {
  }

  class ButtonSolo {
    /** The embedded button, which keeps its identity. */
    const button: Button
    var pollRate: int
    var activeHigh: bool

    /** A zero ButtonSolo: active low wiring (the zero flag) and a zero button. */
    constructor ()
      ensures fresh(button) && pollRate == 0 && !activeHigh
      ensures button.Fields() == Idle && button.events == []
    {
      button := new Button();
      pollRate := 0;
      activeHigh := false;
    }

    /**
     * Configure: a zero poll rate becomes 10 ms; the wiring is active high
     * unless `activeLow`; the button gets the hold settings, each defaulted
     * when zero.
     */
    method Configure(rate: int, activeLow: bool, holdThreshold: int, holdCallRate: int)
      modifies this, button
      ensures pollRate == if rate == 0 then DefButtonPollRate else rate
      ensures activeHigh == !activeLow
      ensures button.holdThreshold == if holdThreshold == 0 then DefHoldThreshold else holdThreshold
      ensures button.holdCallRate == if holdCallRate == 0 then DefHoldCallRate else holdCallRate
      ensures button.Fields() == old(button.Fields()) && button.events == old(button.events)
    {
      pollRate := if rate == 0 then DefButtonPollRate else rate;
      activeHigh := !activeLow;
      button.Configure(holdThreshold, holdCallRate);
    }

    /** Tick with the pin level `level` read at clock `now`. */
    method Tick(level: bool, now: int)
      modifies button
      ensures var o := Step(button.holdThreshold, button.holdCallRate, old(button.Fields()), IsDown(activeHigh, level), now);
        button.Fields() == o.press && button.events == old(button.events) + o.out
      ensures button.holdThreshold == old(button.holdThreshold) && button.holdCallRate == old(button.holdCallRate)
    {
      if (activeHigh && level) || (!activeHigh && !level) {
        button.Process(true, now);
      } else {
        button.Process(false, now);
      }
    }
  }
}
