/**
 * The dimmable LED: an 8-bit brightness that is written to a PWM channel as
 * a duty cycle proportional to the counter's top value. The PWM peripheral
 * is reduced to its top value and the last duty written.
 */
module Leds {
  import opened GoTypes

  /** Go's FadeDir: In is 0, Out is 1; any other value fades nowhere. */
  const In: int := 0
  const Out: int := 1

  /** The duty `top * val / 255` in uint32 arithmetic: the product wraps at 2^32. */
  function Duty(top: uint32, val: uint8): uint32
  {
    ((top * val) % Uint32Limit) / 255
  }

  /** Off is a zero duty and full brightness the whole period, as long as `top * 255` fits 32 bits. */
  lemma DutyBounds(top: uint32, val: uint8)
    requires top * 255 < Uint32Limit
    ensures Duty(top, val) <= top
    ensures Duty(top, 0) == 0 && Duty(top, 255) == top
  {
    ProductFits(top, val);
    DivideBelow(top * val, 255, top);
    ProductFits(top, 255);
    DivideMultiple(top, 255);
  }

  lemma ProductFits(top: nat, val: nat)
    requires top * 255 < Uint32Limit && val <= 255
    ensures top * val <= 255 * top && (top * val) % Uint32Limit == top * val
  {
    MultiplyMonotone(val, 255, top);
  }

  /** Toggle: a bright LED (above 128) goes off, any other goes fully on. */
  function Toggled(val: uint8): (r: uint8)
  {
    if val > 128 then 0 else 255
  }

  /** Toggling always lands on off or full, and from then on alternates between the two. */
  lemma ToggleAlternates(val: uint8)
    ensures Toggled(val) == 0 || Toggled(val) == 255
    ensures Toggled(Toggled(val)) == 255 - Toggled(val)
  {
  }

  /**
   * Fade: In brightens by one below full; Out, as written, also adds one
   * when the LED is not off, so full brightness wraps to off; any other
   * direction leaves the value.
   */
  function Faded(val: uint8, dir: int): uint8
  {
    if dir == In then (if val < 255 then val + 1 else val)
    else if dir == Out then (if val > 0 then (val + 1) % Uint8Limit else val)
    else val
  }

  /** `n` fades in one direction. */
  function FadedTimes(val: uint8, dir: int, n: nat): uint8
    decreases n
  {
    if n == 0 then val else FadedTimes(Faded(val, dir), dir, n - 1)
  }

  /** Fading in `n` times brightens by `n` and stops at full; it never wraps. */
  lemma {:induction false} FadeInSaturates(val: uint8, n: nat)
    ensures FadedTimes(val, In, n) == if val + n < 255 then val + n else 255
    decreases n
  {
    if n > 0 {
      FadeInSaturates(Faded(val, In), n - 1);
    }
  }

  /** Fading out from a lit LED brightens it until it wraps to off, after `256 - val` steps, and it stays off. */
  lemma {:induction false} FadeOutWrapsToOff(val: uint8, n: nat)
    requires 0 < val
    ensures n < Uint8Limit - val ==> FadedTimes(val, Out, n) == val + n
    ensures n >= Uint8Limit - val ==> FadedTimes(val, Out, n) == 0
    decreases n
  {
    if n > 0 {
      if val == 255 {
        StaysOff(n - 1);
      } else {
        FadeOutWrapsToOff(val + 1, n - 1);
      }
    }
  }

  lemma {:induction false} StaysOff(n: nat)
    ensures FadedTimes(0, Out, n) == 0
  {
    if n > 0 {
      StaysOff(n - 1);
    }
  }

  /** An LED on a PWM channel: its brightness and the duty last written for it. */
  class LED {
    var val: uint8
    const top: uint32
    var duty: uint32

    /** The channel shows the LED's value: the duty last written is the one for `val`. */
    ghost predicate Shown()
      reads this
    {
      duty == Duty(top, val)
    }

    /** Configure on a channel whose counter counts to `top`; the LED starts off. */
    constructor (top: uint32)
      ensures this.top == top && val == 0 && duty == 0 && Shown()
    {
      this.top := top;
      val, duty := 0, 0;
    }

    /** LED.Get: the current value, which is the value the channel shows. */
    function Get(): (v: uint8)
      reads this
      ensures v == val && (Shown() ==> duty == Duty(top, v))
    {
      val
    }

    /** LED.Set: store the value and write its duty. */
    method Set(v: uint8)
      modifies this
      ensures val == v && Get() == v && duty == Duty(top, v) && Shown()
    {
      val := v;
      Show();
    }

    /** LED.show: write the duty for the current value. */
    method Show()
      modifies this
      ensures val == old(val) && duty == Duty(top, val) && Shown()
    {
      duty := ((top * val) % Uint32Limit) / 255;
    }

    /** LED.Toggle. */
    method Toggle()
      modifies this
      ensures val == Toggled(old(val)) && duty == Duty(top, val) && Shown()
    {
      if Get() > 128 {
        Set(0);
      } else {
        Set(255);
      }
    }

    /** LED.Fade: the duty is written only when the value changes. */
    method Fade(dir: int)
      modifies this
      ensures val == Faded(old(val), dir)
      ensures duty == if val != old(val) then Duty(top, val) else old(duty)
      ensures old(Shown()) ==> Shown()
    {
      if dir == In {
        if val < 255 {
          Set(val + 1);
        }
      } else if dir == Out {
        if val > 0 {
          Set((val + 1) % Uint8Limit);
        }
      }
    }
  }
}
