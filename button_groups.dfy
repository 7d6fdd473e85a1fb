/**
 * Several push buttons on one analog pin: each button pulls the pin to its
 * own level, so a reading selects the button whose band contains it. A
 * calibration mode learns each button's level as the mean of 200 readings
 * taken while it is held, the full-scale reading (no button down) marking
 * the end of each press.
 */
module ButtonGroups {
  import opened GoTypes
  import opened Buttons

  const ValueEpsilon: int := 30
  const NumCalibSamples: int := 200
  const DefButtonsPollRate: int := 10 * Millisecond
  const DefADCResolution: uint32 := 12

  function Pow2(n: nat): (p: nat)
    ensures p > 0
  {
    if n == 0 then 1 else 2 * Pow2(n - 1)
  }

  lemma {:induction false} Pow2Add(m: nat, n: nat)
    ensures Pow2(m + n) == Pow2(m) * Pow2(n)
    decreases m
  {
    if m > 0 {
      Pow2Add(m - 1, n);
      assert Pow2(m + n) == 2 * Pow2(m - 1 + n);
      Double(Pow2(m - 1), Pow2(n));
    }
  }

  lemma Double(a: int, b: int)
    ensures 2 * (a * b) == (2 * a) * b
  {
  }

  lemma Pow2Sixteen()
    ensures Pow2(16) == 0x1_0000
  {
    assert Pow2(4) == 16;
    assert Pow2(8) == 256;
    assert Pow2(12) == 4096;
  }

  /** The right shift Configure derives from the resolution: 16 minus it, as a wrapping uint32. */
  function Shift(resolution: uint32): uint32
  {
    (16 - resolution) % Uint32Limit
  }

  /** The full-scale value Configure derives: a uint16 holding (1 << resolution) - 1. */
  function AdcMax(resolution: uint32): uint16
  {
    Wrap16((if resolution >= 16 then 0 else Pow2(resolution)) - 1)
  }

  /** A raw 16-bit sample shifted right; Go's shift of a uint16 by 16 or more is 0. */
  function Reading(raw: uint16, shift: uint32): (v: uint16)
    ensures v <= raw
  {
    if shift >= 16 then 0 else
      var d := Pow2(shift);
      DivideShrinks(raw, d);
      raw / d
  }

  lemma DivideShrinks(x: nat, d: nat)
    requires 0 < d
    ensures 0 <= x / d <= x
  {
    var q := x / d;
    assert q * d <= x;
    MultiplyMonotone(1, d, q);
  }

  /** `x / d == q` when `q * d <= x < (q + 1) * d`. */
  lemma DivideBetween(x: nat, d: nat, q: nat)
    requires 0 < d && q * d <= x < q * d + d
    ensures x / d == q
  {
    var k, r := x / d, x % d;
    assert x == k * d + r && 0 <= r < d;
    if k > q {
      MultiplyMonotone(q + 1, k, d);
    } else if k < q {
      MultiplyMonotone(k + 1, q, d);
    }
  }

  /**
   * With a resolution of 1 to 16 bits, every reading is at most the full
   * scale value, and the full-scale sample 0xFFFF reads as exactly that
   * value, the level calibration waits for between presses.
   */
  lemma ReadingScale(resolution: uint32, raw: uint16)
    requires 1 <= resolution <= 16
    ensures Reading(raw, Shift(resolution)) <= AdcMax(resolution)
    ensures Reading(0xFFFF, Shift(resolution)) == AdcMax(resolution)
  {
    var s: nat := 16 - resolution;
    assert Shift(resolution) == s;
    var d, m := Pow2(s), Pow2(resolution);
    SplitRange(s, resolution);
    LessOne(m, d);
    FullScale(resolution, d, m);
    DivideStrict(raw, d, m);
    DivideBetween(0xFFFF, d, m - 1);
  }

  /** 2^16 as 2^s times 2^r. */
  lemma SplitRange(s: nat, r: nat)
    requires s + r == 16
    ensures Pow2(s) * Pow2(r) == 0x1_0000
  {
    Pow2Add(s, r);
    Pow2Sixteen();
  }

  lemma LessOne(m: int, d: int)
    ensures (m - 1) * d == m * d - d
  {
  }

  /** The full-scale value is 2^resolution - 1 for a resolution of 1 to 16 bits. */
  lemma FullScale(resolution: uint32, d: nat, m: nat)
    requires 1 <= resolution <= 16 && m == Pow2(resolution) && 0 < d && d * m == 0x1_0000
    ensures AdcMax(resolution) == m - 1
  {
    if resolution == 16 {
      Pow2Sixteen();
      assert Wrap16(-1) == 0xFFFF;
    } else {
      MultiplyMonotone(1, d, m);
      assert 0 <= m - 1 < Uint16Limit;
      assert Wrap16(m - 1) == m - 1;
    }
  }

  /** `x / d < m` when `x < d * m`. */
  lemma DivideStrict(x: nat, d: nat, m: nat)
    requires 0 < d && x < d * m
    ensures x / d < m
  {
    var q := x / d;
    assert q * d <= x;
    if q >= m {
      MultiplyMonotone(m, q, d);
    }
  }

  /** A button's expected level and the band of readings that count as it being down. */
  datatype Readout = Readout(mean: uint16, lower: uint16, upper: uint16, button: Button)

  /** AddButton's entry: the band is the level plus and minus 30, each wrapping as a uint16. */
  function NewReadout(button: Button, mean: uint16): Readout
  {
    Readout(mean, Wrap16(mean - ValueEpsilon), Wrap16(mean + ValueEpsilon), button)
  }

  predicate InBand(r: Readout, val: uint16)
  {
    r.lower <= val < r.upper
  }

  /** Away from the ends of the range, a band holds the readings within 30 below and 29 above its level. */
  lemma BandAroundMean(button: Button, mean: uint16, val: uint16)
    requires ValueEpsilon <= mean < Uint16Limit - ValueEpsilon
    ensures InBand(NewReadout(button, mean), val) <==> mean - ValueEpsilon <= val < mean + ValueEpsilon
  {
  }

  /** A level within 30 of either end of the range gives a band no reading falls in: the bounds wrap past each other. */
  lemma BandEmptyNearEnds(button: Button, mean: uint16, val: uint16)
    requires mean < ValueEpsilon || Uint16Limit - ValueEpsilon <= mean
    ensures !InBand(NewReadout(button, mean), val)
  {
  }

  /** A button's settings, press state and callbacks, as a value. */
  datatype Knob = Knob(threshold: int, rate: int, press: Press, events: seq<Event>)

  /** One Process call on the entry's button, with "down" when the reading is in its band (a button not in `st` is not tracked). */
  function Apply(st: map<Button, Knob>, r: Readout, val: uint16, now: int): (st': map<Button, Knob>)
    ensures st'.Keys == st.Keys
  {
    if r.button !in st then st else
      var k := st[r.button];
      var o := Step(k.threshold, k.rate, k.press, InBand(r, val), now);
      st[r.button := k.(press := o.press, events := k.events + o.out)]
  }

  /** The entries of `list` applied in order; a button listed twice is processed twice. */
  function Sweep(list: seq<Readout>, val: uint16, now: int, st: map<Button, Knob>): (st': map<Button, Knob>)
    ensures st'.Keys == st.Keys
    decreases |list|
  {
    if list == [] then st
    else Apply(Sweep(list[..|list| - 1], val, now, st), list[|list| - 1], val, now)
  }

  /** Sweeping one entry further is one more Apply. */
  lemma SweepStep(list: seq<Readout>, i: nat, val: uint16, now: int, st: map<Button, Knob>)
    requires i < |list|
    ensures Sweep(list[..i + 1], val, now, st) == Apply(Sweep(list[..i], val, now, st), list[i], val, now)
  {
    assert list[..i + 1][..i] == list[..i];
  }

  /** No two entries share a button. */
  predicate Distinct(list: seq<Readout>)
  {
    forall i, j :: 0 <= i < j < |list| ==> list[i].button != list[j].button
  }

  /**
   * When no two entries share a button, each button sees exactly one
   * Process call, with "down" decided by its own band; buttons not in the
   * group are untouched.
   */
  lemma {:induction false} SweepDistinct(list: seq<Readout>, val: uint16, now: int, st: map<Button, Knob>, b: Button)
    requires Distinct(list) && b in st
    ensures forall i :: 0 <= i < |list| && list[i].button == b ==>
      var k := st[b];
      var o := Step(k.threshold, k.rate, k.press, InBand(list[i], val), now);
      Sweep(list, val, now, st)[b] == k.(press := o.press, events := k.events + o.out)
    ensures (forall r :: r in list ==> r.button != b) ==> Sweep(list, val, now, st)[b] == st[b]
    decreases |list|
  {
    if list != [] {
      var init := list[..|list| - 1];
      SweepDistinct(init, val, now, st, b);
      var last := list[|list| - 1];
      if last.button == b {
        assert forall r :: r in init ==> r.button != b;
      }
      forall i | 0 <= i < |list| && list[i].button == b
        ensures var k := st[b];
          var o := Step(k.threshold, k.rate, k.press, InBand(list[i], val), now);
          Sweep(list, val, now, st)[b] == k.(press := o.press, events := k.events + o.out)
      {
        if i < |list| - 1 {
          assert init[i] == list[i];
        }
      }
    }
  }

  /** The buttons of a list of entries. */
  function ButtonsOf(list: seq<Readout>): set<Button>
  {
    set r | r in list :: r.button
  }

  /** Rewriting an entry with the same button leaves the group's buttons as they were. */
  lemma ReplaceKeepsButtons(list: seq<Readout>, t: nat, entry: Readout)
    requires t < |list| && entry.button == list[t].button
    ensures ButtonsOf(list[t := entry]) == ButtonsOf(list)
  {
    var list' := list[t := entry];
    forall r | r in list ensures r.button in (set r | r in list' :: r.button) {
      var i :| 0 <= i < |list| && list[i] == r;
      assert list'[i].button == r.button;
    }
    forall r | r in list' ensures r.button in (set r | r in list :: r.button) {
      var i :| 0 <= i < |list'| && list'[i] == r;
      assert list[i].button == r.button;
    }
  }

  /** What calibration keeps of the samples: their sum and count, the least (from 0xFFFF) and the greatest (from 0). */
  datatype Tally = Tally(sum: int, count: int, low: uint16, high: uint16)

  const NoSamples: Tally := Tally(0, 0, 0xFFFF, 0)

  /** One more sample, as calibTick takes it in. */
  function Add(t: Tally, v: uint16): Tally
  {
    Tally(t.sum + v, t.count + 1, if v < t.low then v else t.low, if v > t.high then v else t.high)
  }

  /** The tally of a sequence of samples, taken in order. */
  function TallyOf(s: seq<uint16>): Tally
  {
    if s == [] then NoSamples else Add(TallyOf(s[..|s| - 1]), s[|s| - 1])
  }

  /** The calibration state: the tally is that of the samples, and collection goes on until there are 200. */
  predicate Collecting(s: seq<uint16>, t: Tally, collecting: bool)
  {
    TallyOf(s) == t && t.count <= NumCalibSamples && (collecting <==> t.count < NumCalibSamples)
  }

  /** Taking in one more sample while collecting keeps the calibration state. */
  lemma CollectStep(s: seq<uint16>, s': seq<uint16>, t: Tally, v: uint16)
    requires Collecting(s, t, true) && s' == s + [v]
    ensures Collecting(s', Add(t, v), Add(t, v).count < NumCalibSamples)
  {
    TallyAppend(s, v);
  }

  lemma TallyAppend(s: seq<uint16>, v: uint16)
    ensures TallyOf(s + [v]) == Add(TallyOf(s), v)
  {
    assert (s + [v])[..|s|] == s;
  }

  /**
   * The tally counts the samples, and its sum lies between the count times
   * the least and the count times the greatest sample.
   */
  lemma {:induction false} TallyBounds(s: seq<uint16>)
    ensures var t := TallyOf(s);
      t.count == |s| && t.low * |s| <= t.sum <= t.high * |s|
    decreases |s|
  {
    if s != [] {
      var init := s[..|s| - 1];
      TallyBounds(init);
      var t0, t := TallyOf(init), TallyOf(s);
      var n := |init|;
      MultiplyMonotone(t.low, t0.low, n);
      MultiplyMonotone(t0.high, t.high, n);
      Distribute(t.low, n);
      Distribute(t.high, n);
    }
  }

  /** Every sample lies between the tally's least and greatest, and with samples both are among them. */
  lemma {:induction false} SamplesInRange(s: seq<uint16>)
    ensures forall i :: 0 <= i < |s| ==> TallyOf(s).low <= s[i] <= TallyOf(s).high
    ensures s != [] ==> TallyOf(s).low in s && TallyOf(s).high in s
    decreases |s|
  {
    if s != [] {
      var init := s[..|s| - 1];
      SamplesInRange(init);
      assert s == init + [s[|s| - 1]];
      forall i | 0 <= i < |s| ensures TallyOf(s).low <= s[i] <= TallyOf(s).high {
        if i < |init| {
          assert s[i] == init[i];
        }
      }
    }
  }

  lemma Distribute(a: int, n: int)
    ensures a * (n + 1) == a * n + a
    ensures a * n == n * a
  {
  }

  /** The rounded-down mean of the samples lies between the least and the greatest of them, so it fits a uint16. */
  lemma MeanBetween(s: seq<uint16>)
    requires s != []
    ensures var t := TallyOf(s);
      t.count == |s| && t.low <= t.sum / |s| <= t.high
  {
    var t := TallyOf(s);
    TallyBounds(s);
    var n := |s|;
    Distribute(t.high, n);
    DivideBelow(t.sum, n, t.high);
    MultiplyMonotone(0, t.low, n);
    DivideMultiple(t.low, n);
    DivideMonotone(t.low * n, t.sum, n);
  }

  lemma DivideMonotone(x: nat, y: nat, d: nat)
    requires 0 < d && x <= y
    ensures x / d <= y / d
  {
    var q, p := x / d, y / d;
    assert q * d <= x;
    assert y < p * d + d;
    if p < q {
      MultiplyMonotone(p + 1, q, d);
      assert false;
    }
  }

  /** Which tick function Tick calls: none before Configure (Go calls a nil function), workTick or calibTick. */
  datatype Mode = Unconfigured | Work | Calib

  /** The settings Configure writes: poll rate, last id, and the ADC shift and full-scale value. */
  datatype GroupSetup = GroupSetup(pollRate: int, lastId: int, rightShift: uint32, adcMax: uint16)

  /** How far calibration has come: the button being calibrated, the running tally and whether it is still collecting. */
  datatype CalibProgress = CalibProgress(target: int, tally: Tally, collecting: bool)

  class ButtonGroup {
    var pollRate: int
    var lastId: int
    var buttonList: seq<Readout>
    var mode: Mode
    /** The ADC settings Configure writes to package variables, kept with the group. */
    var rightShift: uint32
    var adcMax: uint16

    var buttonToCalibrate: int
    var sumValues: int
    var numValues: int
    var minValue: uint16
    var maxValue: uint16
    var collectingData: bool
    /** The readings collected for the button being calibrated. */
    ghost var samples: seq<uint16>

    /** The calibration fields summarise the samples collected so far. */
    ghost predicate Valid()
      reads this
    {
      mode == Calib ==>
        && 0 <= buttonToCalibrate < |buttonList|
        && Collecting(samples, Tally(sumValues, numValues, minValue, maxValue), collectingData)
    }

    function Setup(): GroupSetup
      reads this
    {
      GroupSetup(pollRate, lastId, rightShift, adcMax)
    }

    function Progress(): CalibProgress
      reads this
    {
      CalibProgress(buttonToCalibrate, Tally(sumValues, numValues, minValue, maxValue), collectingData)
    }

    ghost function KnobOf(b: Button): Knob
      reads b
    {
      Knob(b.holdThreshold, b.holdCallRate, b.Fields(), b.events)
    }

    ghost function Knobs(): map<Button, Knob>
      reads this, ButtonsOf(buttonList)
    {
      map b | b in ButtonsOf(buttonList) :: KnobOf(b)
    }

    /** A zero ButtonGroup, which cannot tick before Configure. */
    constructor ()
      ensures mode == Unconfigured && buttonList == [] && Valid()
    {
      pollRate, lastId, buttonList, mode := 0, 0, [], Unconfigured;
      rightShift, adcMax := 0, 0;
      buttonToCalibrate, sumValues, numValues := 0, 0, 0;
      minValue, maxValue, collectingData := 0, 0, false;
      samples := [];
    }

    /**
     * Configure: zero poll rate and resolution take their defaults (10 ms,
     * 12 bits); the shift and full-scale value follow from the resolution;
     * the list is emptied and the group is in work mode.
     */
    method Configure(rate: int, resolution: uint32)
      modifies this
      ensures var res := if resolution == 0 then DefADCResolution else resolution;
        rightShift == Shift(res) && adcMax == AdcMax(res)
      ensures pollRate == if rate == 0 then DefButtonsPollRate else rate
      ensures lastId == -1 && buttonList == [] && mode == Work && Valid()
    {
      var res := if resolution == 0 then DefADCResolution else resolution;
      rightShift := Shift(res);
      adcMax := AdcMax(res);
      pollRate := if rate == 0 then DefButtonsPollRate else rate;
      lastId := -1;
      buttonList := [];
      mode := Work;
    }

    /** AddButton: appends the button with the band around `val`. */
    method AddButton(button: Button, val: uint16)
      requires Valid()
      modifies this
      ensures buttonList == old(buttonList) + [NewReadout(button, val)]
      ensures ButtonsOf(buttonList) == ButtonsOf(old(buttonList)) + {button}
      ensures mode == old(mode) && Valid()
      ensures Setup() == old(Setup()) && Progress() == old(Progress()) && samples == old(samples)
    {
      buttonList := buttonList + [NewReadout(button, val)];
    }

    /** calibrate(id): past the last button back to work mode, else start collecting for button `id`. */
    method Calibrate(id: nat)
      modifies this
      ensures buttonList == old(buttonList) && Valid()
      ensures id >= |buttonList| ==> mode == Work
      ensures id < |buttonList| ==>
        && mode == Calib && buttonToCalibrate == id && collectingData && samples == []
        && sumValues == 0 && numValues == 0 && minValue == 0xFFFF && maxValue == 0
      ensures id >= |buttonList| ==> Progress() == old(Progress()) && samples == old(samples)
      ensures Setup() == old(Setup())
    {
      if id >= |buttonList| {
        mode := Work;
        return;
      }
      buttonToCalibrate := id;
      sumValues := 0;
      minValue := 0xFFFF;
      maxValue := 0;
      numValues := 0;
      collectingData := true;
      samples := [];
      mode := Calib;
    }

    /** StartCalibration: calibrate from the first button. */
    method StartCalibration()
      modifies this
      ensures buttonList == old(buttonList) && Valid()
      ensures mode == if buttonList == [] then Work else Calib
      ensures buttonList != [] ==> Progress() == CalibProgress(0, NoSamples, true) && samples == []
      ensures buttonList == [] ==> Progress() == old(Progress()) && samples == old(samples)
      ensures Setup() == old(Setup())
    {
      Calibrate(0);
    }

    /**
     * calibTick with the raw sample `raw`. While collecting, a full-scale
     * reading is skipped and any other is added to the samples, collection
     * stopping at the 200th. Once collection has stopped, a full-scale
     * reading (the button let go) stores the samples' mean and its band in
     * the button's entry and moves to the next button.
     */
    method CalibTick(raw: uint16)
      requires Valid() && mode == Calib
      modifies this
      ensures Valid() && mode != Unconfigured && ButtonsOf(buttonList) == ButtonsOf(old(buttonList))
      ensures Setup() == old(Setup())
      ensures var val := Reading(raw, rightShift);
        if old(collectingData) then
          && buttonList == old(buttonList) && mode == Calib && buttonToCalibrate == old(buttonToCalibrate)
          && samples == old(if val == adcMax then samples else samples + [val])
        else if val == adcMax then
          var avg := old(sumValues / numValues);
          && old(minValue) <= avg <= old(maxValue)
          && buttonList == old(buttonList[buttonToCalibrate := NewReadout(buttonList[buttonToCalibrate].button, avg)])
          && (mode == Calib <==> old(buttonToCalibrate) + 1 < |buttonList|)
          && (mode == Calib ==> Progress() == CalibProgress(old(buttonToCalibrate) + 1, NoSamples, true) && samples == [])
        else
          buttonList == old(buttonList) && mode == Calib && Progress() == old(Progress()) && samples == old(samples)
    {
      var val := Reading(raw, rightShift);
      if !collectingData {
        if val == adcMax {
          StoreMean();
        }
        return;
      }
      if val == adcMax {
        return;
      }
      AddSample(val);
    }

    /** The collection is complete: the mean goes into the entry being calibrated, then the next button's turn. */
    method StoreMean()
      requires Valid() && mode == Calib && !collectingData
      modifies this
      ensures Valid() && mode != Unconfigured && ButtonsOf(buttonList) == ButtonsOf(old(buttonList))
      ensures Setup() == old(Setup())
      ensures var avg := old(sumValues / numValues);
        && old(minValue) <= avg <= old(maxValue)
        && buttonList == old(buttonList[buttonToCalibrate := NewReadout(buttonList[buttonToCalibrate].button, avg)])
        && (mode == Calib <==> old(buttonToCalibrate) + 1 < |buttonList|)
        && (mode == Calib ==> Progress() == CalibProgress(old(buttonToCalibrate) + 1, NoSamples, true) && samples == [])
    {
      TallyBounds(samples);
      MeanBetween(samples);
      var avg: uint16 := sumValues / numValues;
      var t := buttonToCalibrate;
      var entry := NewReadout(buttonList[t].button, avg);
      ReplaceKeepsButtons(buttonList, t, entry);
      buttonList := buttonList[t := entry];
      Calibrate(t + 1);
    }

    /** A reading taken while collecting: it joins the samples, and the 200th ends the collection. */
    method AddSample(val: uint16)
      requires Valid() && mode == Calib && collectingData
      modifies this
      ensures Valid() && mode == Calib && buttonList == old(buttonList)
      ensures Setup() == old(Setup())
      ensures samples == old(samples) + [val] && buttonToCalibrate == old(buttonToCalibrate)
    {
      var low, high := minValue, maxValue;
      if val > high {
        high := val;
      }
      if val < low {
        low := val;
      }
      ghost var s' := samples + [val];
      CollectStep(samples, s', Tally(sumValues, numValues, minValue, maxValue), val);
      assert Add(Tally(sumValues, numValues, minValue, maxValue), val) == Tally(sumValues + val, numValues + 1, low, high);
      sumValues, numValues, minValue, maxValue, samples := sumValues + val, numValues + 1, low, high, s';
      if numValues == NumCalibSamples {
        collectingData := false;
      }
    }

    /**
     * workTick with the raw sample `raw` read at clock `now`: every entry's
     * button is processed in list order, "down" when the reading falls in
     * the entry's band.
     */
    method WorkTick(raw: uint16, now: int)
      modifies ButtonsOf(buttonList)
      ensures forall b :: b in ButtonsOf(buttonList) ==>
        KnobOf(b) == Sweep(buttonList, Reading(raw, rightShift), now, old(Knobs()))[b]
    {
      var val := Reading(raw, rightShift);
      ghost var st := Knobs();
      for i := 0 to |buttonList|
        invariant forall b :: b in ButtonsOf(buttonList) ==> KnobOf(b) == Sweep(buttonList[..i], val, now, st)[b]
      {
        var r := buttonList[i];
        SweepStep(buttonList, i, val, now, st);
        ghost var before := Sweep(buttonList[..i], val, now, st);
        label Before:
        r.button.Process(InBand(r, val), now);
        forall b | b in ButtonsOf(buttonList)
          ensures KnobOf(b) == Apply(before, r, val, now)[b]
        {
          if b != r.button {
            assert KnobOf(b) == old@Before(KnobOf(b));
          }
        }
      }
      assert buttonList[..|buttonList|] == buttonList;
    }

    /** Tick: workTick or calibTick, as the mode selects. */
    method Tick(raw: uint16, now: int)
      requires Valid() && mode != Unconfigured
      modifies this, ButtonsOf(buttonList)
      ensures Valid() && mode != Unconfigured && ButtonsOf(buttonList) == ButtonsOf(old(buttonList))
      ensures Setup() == old(Setup())
      ensures old(mode) == Work ==>
        && mode == Work && buttonList == old(buttonList)
        && Progress() == old(Progress()) && samples == old(samples)
        && forall b :: b in ButtonsOf(buttonList) ==>
             KnobOf(b) == Sweep(buttonList, Reading(raw, rightShift), now, old(Knobs()))[b]
      ensures old(mode) == Calib ==>
        && (forall b :: b in ButtonsOf(buttonList) ==> KnobOf(b) == old(KnobOf(b)))
        && var val := Reading(raw, rightShift);
        if old(collectingData) then
          && buttonList == old(buttonList) && mode == Calib && buttonToCalibrate == old(buttonToCalibrate)
          && samples == old(if val == adcMax then samples else samples + [val])
        else if val == adcMax then
          var avg := old(sumValues / numValues);
          && old(minValue) <= avg <= old(maxValue)
          && buttonList == old(buttonList[buttonToCalibrate := NewReadout(buttonList[buttonToCalibrate].button, avg)])
          && (mode == Calib <==> old(buttonToCalibrate) + 1 < |buttonList|)
          && (mode == Calib ==> Progress() == CalibProgress(old(buttonToCalibrate) + 1, NoSamples, true) && samples == [])
        else
          buttonList == old(buttonList) && mode == Calib && Progress() == old(Progress()) && samples == old(samples)
    {
      if mode == Work {
        WorkTick(raw, now);
      } else {
        CalibTick(raw);
      }
    }
  }
}
