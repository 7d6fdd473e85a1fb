/**
 * The incremental rotary encoder: an interrupt handler that decodes the two
 * quadrature lines through a 16-entry transition table into a position, and
 * a periodic reporter that turns every four position units into a detent.
 */
module Encoders {
  import opened GoTypes

  const Millisecond: int := 1_000_000
  const DefEncoderPollRate: int := 30 * Millisecond

  datatype Direction = CCW | CW | Unspecified

  /** One report to the rotation callback. */
  datatype Rotation = Rotation(dir: Direction, steps: int)

  /** The table index: the previous levels in bits 0 and 1, line A in bit 2, line B in bit 3. */
  function Code(state: bv8, a: bool, b: bool): (s: bv8)
    ensures s < 16 && s & 3 == state & 3
    ensures (s & 4 != 0 <==> a) && (s & 8 != 0 <==> b)
  {
    (state & 0x03) | (if a then 0x04 else 0) | (if b then 0x08 else 0)
  }

  /** The transition table of newIsr. */
  function Delta(s: bv8): int
  {
    if s == 1 || s == 7 || s == 8 || s == 14 then 1
    else if s == 2 || s == 4 || s == 11 || s == 13 then -1
    else if s == 3 || s == 12 then 2
    else if s == 6 || s == 9 then -2
    else 0
  }

  /**
   * Where two line levels (A in bit 0, B in bit 1) stand in the Gray cycle
   * 00, 10, 11, 01 of (A, B).
   */
  function Phase(levels: bv8): (p: int)
    requires levels < 4
    ensures 0 <= p < 4
  {
    if levels == 0 then 0 else if levels == 1 then 1 else if levels == 3 then 2 else 3
  }

  /**
   * The table steps against the Gray cycle: a move forward one phase counts
   * -1, back one +1, two phases (a missed transition) counts 2 either way,
   * and no change counts 0; so a step never exceeds 2.
   */
  lemma DeltaFollowsPhase(s: bv8)
    requires s < 16
    ensures var turn := (Phase(s >> 2) - Phase(s & 3)) % 4;
      && -2 <= Delta(s) <= 2
      && (turn == 0 <==> Delta(s) == 0)
      && (turn == 1 <==> Delta(s) == -1)
      && (turn == 3 <==> Delta(s) == 1)
      && (turn == 2 <==> (Delta(s) == 2 || Delta(s) == -2))
  {
  }

  /** Levels that did not change leave the position where it was. */
  lemma SteadyLevels(state: bv8, a: bool, b: bool)
    requires state < 4 && (state & 1 != 0 <==> a) && (state & 2 != 0 <==> b)
    ensures Delta(Code(state, a, b)) == 0
  {
  }

  /** One interrupt on a state and position, as values. */
  function Isr(state: bv8, position: int, a: bool, b: bool): (r: (bv8, int))
    ensures r.0 < 4 && (r.0 & 1 != 0 <==> a) && (r.0 & 2 != 0 <==> b)
  {
    var s := Code(state, a, b);
    (s >> 2, position + Delta(s))
  }

  /** A series of interrupts with the given line levels. */
  function Walk(state: bv8, position: int, levels: seq<(bool, bool)>): (bv8, int)
    decreases |levels|
  {
    if levels == [] then (state, position)
    else
      var r := Isr(state, position, levels[0].0, levels[0].1);
      Walk(r.0, r.1, levels[1..])
  }

  /** Position plus phase is the same modulo 4 after any series of interrupts. */
  lemma {:induction false} PhaseInvariant(state: bv8, position: int, levels: seq<(bool, bool)>)
    requires state < 4
    ensures var r := Walk(state, position, levels);
      r.0 < 4 && (r.1 + Phase(r.0)) % 4 == (position + Phase(state)) % 4
    decreases |levels|
  {
    if levels != [] {
      var r := Isr(state, position, levels[0].0, levels[0].1);
      IsrKeepsPhase(state, position, levels[0].0, levels[0].1);
      PhaseInvariant(r.0, r.1, levels[1..]);
    }
  }

  /** One interrupt keeps position plus phase modulo 4. */
  lemma IsrKeepsPhase(state: bv8, position: int, a: bool, b: bool)
    requires state < 4
    ensures var r := Isr(state, position, a, b);
      (r.1 + Phase(r.0)) % 4 == (position + Phase(state)) % 4
  {
    var s := Code(state, a, b);
    DeltaFollowsPhase(s);
    assert s >> 2 == Isr(state, position, a, b).0 && s & 3 == state;
  }

  /** One clean Gray cycle of (A, B) from 00 through 10, 11, 01 back to 00 moves the position by -4; the reverse cycle by +4. */
  lemma GrayCycles(position: int)
    ensures Walk(0, position, [(true, false), (true, true), (false, true), (false, false)]) == (0, position - 4)
    ensures Walk(0, position, [(false, true), (true, true), (true, false), (false, false)]) == (0, position + 4)
  {
  }

  /** A double transition and its reverse: each jumps 2, so going there and back moves the position by 4. */
  lemma DoubleTransitionRoundTrip(position: int)
    ensures Walk(0, position, [(true, true), (false, false)]) == (0, position + 4)
  {
  }

  /** The detent report for a movement of `moved` position units, if any: four units per step, the quotient truncated. */
  function Report(moved: int): (r: Option<Rotation>)
    ensures r.Some? <==> Abs(moved) >= 4
    ensures r.Some? ==> r.value.steps == Abs(moved) / 4 && (r.value.dir == CCW <==> moved > 0) && r.value.dir != Unspecified
  {
    var diff := Quot(moved, 4);
    QuotOfMagnitude(moved);
    if diff == 0 then None
    else if diff > 0 then Some(Rotation(CCW, diff))
    else Some(Rotation(CW, -diff))
  }

  lemma QuotOfMagnitude(moved: int)
    ensures Quot(moved, 4) == if moved >= 0 then moved / 4 else -((-moved) / 4)
  {
    if moved >= 0 {
      QuotOfNatural(moved, 4);
    } else {
      QuotOfNegative(moved, 4);
    }
  }

  /** Go's Encoder with its pins reduced to the levels passed to the handler. */
  class Encoder {
    var pollRate: int
    var position: int
    var oldPosition: int
    var state: bv8
    /** The rotation reports, in order; a consumer without a callback ignores them. */
    var events: seq<Rotation>

    /** A zero Encoder. */
    constructor ()
      ensures pollRate == 0 && position == 0 && oldPosition == 0 && state == 0 && events == []
    {
      pollRate, position, oldPosition, state, events := 0, 0, 0, 0, [];
    }

    /** Configure: a zero poll rate becomes 30 ms. */
    method Configure(pollRate: int)
      modifies this
      ensures this.pollRate == if pollRate == 0 then DefEncoderPollRate else pollRate
      ensures position == old(position) && oldPosition == old(oldPosition) && state == old(state) && events == old(events)
    {
      this.pollRate := if pollRate == 0 then DefEncoderPollRate else pollRate;
    }

    /** newIsr with the current levels of line A and line B. */
    method NewIsr(a: bool, b: bool)
      modifies this
      ensures (state, position) == Isr(old(state), old(position), a, b)
      ensures oldPosition == old(oldPosition) && events == old(events) && pollRate == old(pollRate)
    {
      var s := state & 0x03;
      if a {
        s := s | 0x04;
      }
      if b {
        s := s | 0x08;
      }
      if s == 1 || s == 7 || s == 8 || s == 14 {
        position := position + 1;
      } else if s == 2 || s == 4 || s == 11 || s == 13 {
        position := position - 1;
      } else if s == 3 || s == 12 {
        position := position + 2;
      } else if s == 6 || s == 9 {
        position := position - 2;
      }
      state := s >> 2;
    }

    /**
     * Tick: a movement of four units or more since the last report is
     * reported and the position becomes the new reference; the remainder
     * below four units is dropped with it. A smaller movement changes nothing.
     */
    method Tick()
      modifies this
      ensures var r := Report(old(position) - old(oldPosition));
        && events == old(events) + (if r.Some? then [r.value] else [])
        && oldPosition == (if r.Some? then old(position) else old(oldPosition))
      ensures position == old(position) && state == old(state) && pollRate == old(pollRate)
    {
      var pos := position;
      if pos == oldPosition {
        return;
      }
      var diff := Quot(pos - oldPosition, 4);
      if diff == 0 {
        return;
      }
      if diff > 0 {
        events := events + [Rotation(CCW, diff)];
      } else {
        events := events + [Rotation(CW, -diff)];
      }
      oldPosition := pos;
    }
  }
}
