# tinylib core in Dafny

This project models the hardware-independent core of tinylib, a TinyGo helper library for
microcontroller boards. It covers:

- **Scheduling**: the cooperative scheduler of `dispatcher.go`. A task has an absolute next
  execution time and an interval. The ready list is kept sorted by execution time, and equal
  times keep submission order. The one exception is `AddTask` on a halted task that is still
  queued and overdue (see "## Findings"). `Tick` runs every due task against one captured time. Periodic
  tasks are re-queued, and one-shot and halted tasks are dropped. A 25-slot circular window
  of run times gives the processor load.
- **Buttons**: the push / hold / release / pressed classifier of `button.go`. It is driven
  by the time elapsed since the push, and its callbacks become an event trace.
- **ButtonSolos**: a button on its own pin (`buttonSolo.go`), wired active high or active low.
- **ButtonGroups**: several buttons on one ADC pin (`buttonGroup.go`). The group has
  half-open `uint16` bands around each button's expected reading and a calibration state
  machine that learns each button's mean reading.
- **Encoders**: the quadrature rotary encoder of `encoder.go`. It has a transition table
  driven by the line levels and a detent reporter that divides by four.
- **Colors**: RGB565 packing and unpacking, and the colour model that divides out alpha
  (`colors/color.go`).
- **Images**: the two-bytes-per-pixel image buffer (`image.go`).
- **BitFields**: the status-byte bit field of the DAB+ driver (`dabplus/bitField.go`).
- **Mapping**: the integer instantiations of the linear range mapping `Map` (`tinylib.go`).
- **Leds**: the brightness logic of the PWM LED (`led-pwm.go`).
- **GoTypes**: shared Go vocabulary, namely fixed-width unsigned integers, division truncated
  toward zero, `uint16` wrap-around, and an Option for Go's "zero value means unset".

Clocks, pin levels and ADC readings are not read by the model. They are parameters of the
methods that use them:

- the tick time;
- each task's measured run time;
- the millisecond clock that picks a load slot;
- the button clock;
- the pin level;
- the raw ADC value;
- the two encoder line levels.

Durations are Go `time.Duration` nanoseconds (`Millisecond` is 1 000 000).

Stateful Go types are Dafny classes:

- `Task`, `Dispatcher`
- `Button`, `ButtonSolo`, `ButtonGroup`
- `Encoder`
- `TinyImage` (over an `array<bv8>`)
- `BitField`
- `LED`

Each method is tied to a function on values. For the scheduler, `Step` is one iteration of
`Tick`'s loop on a snapshot (`Sched`) of the ready list, the task fields and the load window,
and `Run` iterates `Step` until no task is due. `Dispatcher.Tick` is proved to end in the
state `Run` computes, and the lemmas about `Run` state what a tick does.

## Model

| member | source | states |
|---|---|---|
| GoTypes.Quot | tinylib.go:14 | Go's integer quotient: abs(q·b) ≤ abs(a), the remainder is smaller than abs(b) and has the sign of the dividend (truncation toward zero) |
| GoTypes.QuotExact | tinylib.go:14 | a multiple of the divisor is divided exactly |
| GoTypes.Wrap16 | buttonGroup.go:98-99 | `uint16` arithmetic: the result is congruent to the exact value modulo 2^16 |
| Scheduling.UpperBoundSplits | dispatcher.go:290-308 | the insertion point splits the list: every entry before it is at or before the new time; in a sorted list every entry after it is strictly later |
| Scheduling.InsertKeepsSorted | dispatcher.go:290-308 | inserting at the insertion point keeps the times sorted non-decreasing |
| Scheduling.InsertEqualKeysIsStable | dispatcher.go:295-300 | a task whose time equals existing ones is placed after all of them (FIFO among equal times, because the comparison is strict `Before`) |
| Scheduling.InsertLaterKeepsDue | dispatcher.go:241-243 | a task re-inserted at a time after `now` does not change how many tasks are due at `now` |
| Scheduling.Dist | dispatcher.go:232-236 | forward distance on the 25-slot ring: below 25, and zero exactly for equal slots |
| Scheduling.NextSlot | dispatcher.go:232 | the slot after `s` wraps from 24 to 0 |
| Scheduling.SlotOf | dispatcher.go:230 | the load slot of a millisecond clock reading is below 25 |
| Scheduling.LoadPercent | dispatcher.go:261-267 | the load in percent lies in 0..100 while the window holds at most 5000 ms, and half the window is 50 % |
| Scheduling.Task.constructor | dispatcher.go:101-107 | NewTask: the configured execution time and interval, not halting, all counters zero |
| Scheduling.Task.Start | dispatcher.go:114-125 | Start: unchanged if halting; otherwise numCalls + 1 (32-bit), delay += now − execTime, lastTerm and term take the run time, execTime = now + interval |
| Scheduling.Task.Halt | dispatcher.go:131-133 | sets the halting flag |
| Scheduling.Task.SetInterval | dispatcher.go:139-141 | sets the interval |
| Scheduling.Task.AvgTerm | dispatcher.go:151-153 | the average run time: the total divided by the number of calls, truncated toward zero |
| Scheduling.Task.AvgDelay | dispatcher.go:159-161 | the average delay: the total divided by the number of calls, truncated toward zero |
| Scheduling.SpliceKeys | dispatcher.go:305-306 | relinking a task into the list inserts its time at the same index of the time sequence |
| Scheduling.KeysMatch | dispatcher.go:290-308 | the times read from the task objects are the times of the snapshot |
| Scheduling.StepHalting | dispatcher.go:225-228 | a due halting task is removed from the list and only loses its flag |
| Scheduling.StepRunning | dispatcher.go:229-243 | a due task that is not halting is started, its run goes into the load window, and it is re-inserted at its insertion point if its interval is positive, otherwise dropped |
| Scheduling.StepKeys | dispatcher.go:221-243 | one step leaves one task fewer due at `now`: the popped head was due and a re-inserted task lands after every task still due |
| Scheduling.TailKeys | dispatcher.go:282 | removing the head leaves the rest of the list and its times unchanged |
| Scheduling.SpliceKeysIn | dispatcher.go:305-306 | re-inserting a task splices its new time into the time sequence at the insertion point |
| Scheduling.StepOk | dispatcher.go:220-245 | one loop iteration keeps the list sorted and duplicate-free, keeps the set of tasks, and decreases the number of due tasks by one (the loop terminates) |
| Scheduling.SpliceDistinct | dispatcher.go:305-306 | inserting a task that is not in the list keeps the list free of duplicates |
| Scheduling.Run | dispatcher.go:217-245 | Tick's loop: afterwards no task is due at the captured time and the list is still sorted |
| Scheduling.RunningAgree | dispatcher.go:225 | which tasks run and which are re-queued depends only on their fields |
| Scheduling.StepPrefix | dispatcher.go:221-243 | one step pops the head: the rest of the due prefix moves up unchanged, and the tail gains the task exactly when it is re-queued |
| Scheduling.StepFields | dispatcher.go:225-229 | one step changes only the popped task's fields, and that task is not in the rest of the list |
| Scheduling.StepDue | dispatcher.go:221-243 | one step starts the head unless it is halting, and re-queues it only when it is not halting and has a positive interval |
| Scheduling.RunStarted | dispatcher.go:217-245 | a tick starts exactly the due tasks that are not halting, in list order |
| Scheduling.StepStarted | dispatcher.go:229 | one step adds to the started tasks exactly the ones the due prefix contributes |
| Scheduling.RunQueue | dispatcher.go:217-245 | after a tick the list holds exactly the tasks that were not due plus the periodic non-halting due tasks (as a multiset) |
| Scheduling.StepQueue | dispatcher.go:241-243 | one step preserves the multiset of tasks that are pending or re-queued |
| Scheduling.RunFields | dispatcher.go:217-245 | after a tick, each due task has been started (or, if halting, has had its flag cleared), and every other task is unchanged |
| Scheduling.StepTicks | dispatcher.go:225-229 | one step advances exactly one task of the due prefix |
| Scheduling.RunWindow | dispatcher.go:230-240 | after a tick the load window and last slot are those obtained by accounting each started task's run in order |
| Scheduling.StepWindow | dispatcher.go:230-240 | one step accounts exactly the head's run in the load window |
| Scheduling.WindowCons | dispatcher.go:230-240 | accounting a run then the rest equals accounting all runs in order |
| Scheduling.DuePrefix | dispatcher.go:272-285 | in a sorted list the due tasks are exactly a prefix: position i is due iff its time is at or before `now` |
| Scheduling.Dispatcher.constructor | dispatcher.go:177-179 | NewDispatcher: an empty ready list, a zero window and slot 0 |
| Scheduling.Dispatcher.NumTasks | dispatcher.go:249-257 | the number of tasks in the ready list |
| Scheduling.Dispatcher.Insert | dispatcher.go:290-308 | insert: the list becomes the old list with the task at the insertion point, on any duplicate-free list; a sorted list stays sorted, no execution time is written, and NumTasks grows by one |
| Scheduling.Dispatcher.Pop | dispatcher.go:272-285 | pop returns nil iff the list is empty or its head is later than `t`; otherwise it returns the head and the rest of the list is unchanged; a sorted list stays sorted |
| Scheduling.Dispatcher.AddTask | dispatcher.go:181-192 | AddTask: a time strictly before `now` becomes now + interval, a later or equal time is kept; a halting task loses its flag and is not queued again (whether or not it is still in the ready list), any other task is inserted after every task not later than it; the list stays duplicate-free, and a sorted list stays sorted unless a halting task still in the list had its overdue time moved |
| Scheduling.Dispatcher.AddTaskInOrder | dispatcher.go:181-192 | AddTask corrected: a queued halting task whose overdue time moves is taken out and re-inserted by its new time; every other case is AddTask; a sorted list always stays sorted |
| Scheduling.Dispatcher.UpdateLoad | dispatcher.go:230-240 | the slot of the run is computed from the clock, the window is advanced by the run time, and lastSlot == currSlot |
| Scheduling.Dispatcher.SkipGap | dispatcher.go:232-236 | the wrap-around loop zeroes exactly the slots strictly between the old last slot and the current one, leaves the others, and ends with lastSlot == currSlot |
| Scheduling.Dispatcher.RunDue | dispatcher.go:229-243 | one started task: its Start, the load accounting and its re-insertion when its interval is positive |
| Scheduling.Dispatcher.Dispatch | dispatcher.go:221-243 | one loop iteration: returns no task iff none is due; otherwise the objects end in the state `Step` computes |
| Scheduling.Dispatcher.Execute | dispatcher.go:225-243 | handling a popped task: the objects end in the state `Step` computes |
| Scheduling.Dispatcher.Tick | dispatcher.go:217-245 | on any duplicate-free list, Tick ends in the state `Run` computes from the list, the task fields and the window before the tick, and afterwards the head (if any) is later than the captured time; when the list was sorted it stays sorted and no queued task is due any more |
| Scheduling.OverdueResubmitStarves | dispatcher.go:181-192 | AddTask as written on [a (time 5, halting, interval 100), b (time 7)] at 10 leaves [a (110), b (7)], unsorted, and the Tick at 10 that follows leaves b queued and not run though it is due |
| Scheduling.Dispatcher.Load | dispatcher.go:261-267 | Load is 100 × (sum of the window) / 5000 ms, truncated, on any ready list |
| Buttons.StepEvents | button.go:90-128 | one Process call reports push exactly on a down sample with no push pending, release exactly on an up sample with one pending, pressed exactly when that release is before the hold threshold, and the first hold exactly when a pending push reaches the threshold while not holding; an up sample always ends the press |
| Buttons.HoldRepeats | button.go:99-111 | while holding, hold(false) is reported exactly when the hold call rate has passed since the last hold call, and then lastHoldCall = now; the first hold records lastHoldCall = now |
| Buttons.StepConsistent | button.go:99-125 | Process keeps the invariant: holding implies a push and a hold call are recorded at least the threshold apart; not holding implies no hold call is recorded |
| Buttons.NoPressedWhileHolding | button.go:113-122 | releasing while holding reports release only, never pressed |
| Buttons.FeedAppend | button.go:90-128 | processing two runs of samples equals processing their concatenation |
| Buttons.HeldDown | button.go:99-111 | while the button stays down after a push, only hold events are reported, the first hold at most once, and holding is never lost |
| Buttons.HeldStep | button.go:99-111 | one down sample after a push reports only hold events and the first hold at most once |
| Buttons.OnePress | button.go:90-128 | a complete press (down, held down, up) reports push first, exactly one push and one release, at most one first hold, pressed iff released before the threshold, never both pressed and a hold, and ends idle |
| Buttons.ReleaseStep | button.go:113-127 | the up sample after a push reports release, plus pressed iff before the threshold, and resets the press; holding implies the threshold was reached |
| Buttons.PressEvents | button.go:90-128 | the event counts of a press assembled from push, the hold events and release/pressed |
| Buttons.Button.constructor | button.go:45-51 | a zero Button: idle, no settings, no events |
| Buttons.Button.Configure | button.go:55-64 | a zero hold threshold becomes 500 ms and a zero hold call rate 100 ms; non-zero values are kept; the press state is untouched |
| Buttons.Button.Process | button.go:90-128 | the fields and the reported events are those of `Step` for the level and clock; the settings are untouched |
| ButtonSolos.IsDown | buttonSolo.go:62 | the level means pressed iff (active high and high) or (active low and low) |
| ButtonSolos.OneLevelDown | buttonSolo.go:62 | of the two pin levels exactly one means pressed, whatever the wiring |
| ButtonSolos.WiringInverts | buttonSolo.go:62 | switching the wiring inverts the reading of every level |
| ButtonSolos.ButtonSolo.constructor | buttonSolo.go:25-30 | a zero ButtonSolo with a fresh idle button |
| ButtonSolos.ButtonSolo.Configure | buttonSolo.go:32-51 | a zero poll rate becomes 10 ms; activeHigh == !ActiveLow; the embedded button gets its hold settings with their defaults; the press state is untouched |
| ButtonSolos.ButtonSolo.Tick | buttonSolo.go:61-67 | the embedded button is processed with "down" iff the pin level equals the active level |
| ButtonGroups.Reading | buttonGroup.go:139 | the raw 16-bit ADC value shifted right never exceeds the raw value (a shift of 16 or more gives 0) |
| ButtonGroups.ReadingScale | buttonGroup.go:73-74 | for a resolution of 1..16 every reading is at most the idle value 2^res − 1, and a full-scale raw value reads exactly that idle value |
| ButtonGroups.FullScale | buttonGroup.go:74 | the idle value is 2^res − 1 for a resolution of 1..16 |
| ButtonGroups.BandAroundMean | buttonGroup.go:95-103 | when the mean is at least 30 away from both ends of the `uint16` range, a reading is in the button's band iff mean − 30 ≤ reading < mean + 30 |
| ButtonGroups.BandEmptyNearEnds | buttonGroup.go:98-99 | when the mean is within 30 of either end, the wrapped bounds make the band empty: no reading selects the button |
| ButtonGroups.SweepStep | buttonGroup.go:177-183 | the loop processes the entries in registration order |
| ButtonGroups.SweepDistinct | buttonGroup.go:175-184 | with distinct buttons, each registered button is processed exactly once, with "down" iff lower ≤ reading < upper (half-open), and an unregistered button is untouched |
| ButtonGroups.ReplaceKeepsButtons | buttonGroup.go:148-150 | rewriting an entry's band keeps the set of buttons |
| ButtonGroups.CollectStep | buttonGroup.go:158-169 | an accepted sample keeps the tally of the accepted samples, collecting stops exactly when the count reaches 200, and the count never exceeds 200 |
| ButtonGroups.TallyAppend | buttonGroup.go:158-165 | the tally of the samples grows by exactly the new sample |
| ButtonGroups.TallyBounds | buttonGroup.go:158-165 | the count is the number of samples, and min · n ≤ sum ≤ max · n |
| ButtonGroups.SamplesInRange | buttonGroup.go:158-164 | every accepted sample lies between minValue and maxValue, and with samples both are among them |
| ButtonGroups.MeanBetween | buttonGroup.go:143 | the mean of the accepted samples lies between their minimum and maximum, so the `uint16` conversion does not truncate |
| ButtonGroups.ButtonGroup.constructor | buttonGroup.go:49-64 | a zero group: no buttons and no tick function |
| ButtonGroups.ButtonGroup.Configure | buttonGroup.go:66-88 | zero poll rate becomes 10 ms and zero resolution 12; the shift is 16 − resolution (`uint32`) and the idle value 2^resolution − 1 (`uint16`); the list is empty, lastId = −1, and workTick is the tick function |
| ButtonGroups.ButtonGroup.AddButton | buttonGroup.go:95-103 | appends one entry with mean `val` and band `val ∓ 30` in `uint16` arithmetic; existing entries, the settings (poll rate, last id, shift, idle value) and the calibration progress are unchanged |
| ButtonGroups.ButtonGroup.Calibrate | buttonGroup.go:113-126 | an index past the list returns to workTick and leaves the calibration progress alone; otherwise it targets the index and resets sum = 0, count = 0, min = 0xFFFF, max = 0, collecting; the settings are unchanged |
| ButtonGroups.ButtonGroup.StartCalibration | buttonGroup.go:105-108 | calibration starts with button 0 and a fresh tally, or goes straight back to work with no buttons; the settings are unchanged |
| ButtonGroups.ButtonGroup.CalibTick | buttonGroup.go:138-170 | while collecting, the idle value is ignored and other readings are accepted; when done, other readings are ignored, and the idle value stores mean = sum / count with its band in the target entry (the mean lies between min and max) and moves calibration to the next button; no other entry changes |
| ButtonGroups.ButtonGroup.StoreMean | buttonGroup.go:141-151 | the mean of the collected samples lies between their min and max and becomes the target entry's mean and band; calibration advances |
| ButtonGroups.ButtonGroup.AddSample | buttonGroup.go:155-169 | a non-idle reading joins the accepted samples; the invariant (tally, count ≤ 200, collecting iff count < 200) is kept |
| ButtonGroups.ButtonGroup.WorkTick | buttonGroup.go:175-184 | every registered button ends in the state the in-order sweep computes from the shifted reading |
| ButtonGroups.ButtonGroup.Tick | buttonGroup.go:134-170 | the tick function of the mode: workTick in work mode (calibration progress unchanged), calibTick in calibration mode (buttons left alone; collecting, storing the mean and advancing exactly as calibTick does); the result is again a configured mode and the settings are unchanged, so ticks compose |
| Encoders.Code | encoder.go:92-98 | s keeps the two stored bits and puts A in bit 2 and B in bit 3 |
| Encoders.Phase | encoder.go:99-108 | the Gray phase of two line levels lies in 0..3 |
| Encoders.DeltaFollowsPhase | encoder.go:99-108 | the table's delta is at most 2 in magnitude: 0 for no change of phase, −1 one step forward, +1 one step back, ±2 for a double transition |
| Encoders.SteadyLevels | encoder.go:99-108 | unchanged line levels leave the position unchanged |
| Encoders.Isr | encoder.go:91-111 | afterwards state < 4 and encodes the current levels (bit 0 A, bit 1 B) |
| Encoders.PhaseInvariant | encoder.go:91-111 | along any sequence of level changes, position + phase(state) stays the same modulo 4 |
| Encoders.IsrKeepsPhase | encoder.go:91-111 | one interrupt keeps position + phase(state) modulo 4 |
| Encoders.GrayCycles | encoder.go:99-108 | the Gray cycle 00→10→11→01→00 moves the position by exactly −4, and its reverse by +4 |
| Encoders.DoubleTransitionRoundTrip | encoder.go:104-105 | the closed walk 00→11→00 moves the position by +4, not 0 |
| Encoders.Report | encoder.go:77-87 | a rotation is reported iff at least four counts have accumulated: CCW for a positive difference, CW for a negative one, with the truncated quotient's magnitude as steps |
| Encoders.QuotOfMagnitude | encoder.go:77 | Go's division by 4 truncates toward zero for negative differences |
| Encoders.Encoder.constructor | encoder.go:45-51 | a zero Encoder |
| Encoders.Encoder.Configure | encoder.go:53-57 | a zero poll rate becomes 30 ms; nothing else changes |
| Encoders.Encoder.NewIsr | encoder.go:91-111 | state and position become those of `Isr` for the two line levels |
| Encoders.Encoder.Tick | encoder.go:72-89 | reports `Report(position − oldPosition)`; oldPosition catches up with position exactly when a rotation is reported, and the remainder is discarded |
| Colors.NewColor | colors/color.go:13-20 | r, g and b are stored unchanged, with alpha 0xFF |
| Colors.NewTinyColor | colors/color.go:41-45 | the 16-bit word is RGB565: r's top 5 bits, g's top 6 bits, b's top 5 bits, high byte first |
| Colors.NewTinyHexColor | colors/color.go:47-52 | packs bytes 2, 1 and 0 of the hex value as red, green and blue |
| Colors.WidenHigh | colors/color.go:59-60 | a channel widened with x times 0x101 has x as its high byte |
| Colors.RGBA | colors/color.go:58-67 | each channel is its RGB565 field moved to the top of a byte and widened to 16 bits; alpha is 0xFFFF |
| Colors.RoundTrip | colors/color.go:41-67 | RGBA(NewTinyColor(r, g, b)) is (r & 0xF8, g & 0xFC, b & 0xF8) widened, with opaque alpha |
| Colors.PackedFields | colors/color.go:41-67 | the unpacking expressions of RGBA recover the masked channels from the packed bytes |
| Colors.RepackIsIdentity | colors/color.go:41-67 | repacking the high bytes that RGBA returns gives back the same TinyColor |
| Colors.UnpackedFieldsRepack | colors/color.go:41-67 | packing the unpacked fields gives back the same bytes |
| Colors.TinyModel | colors/color.go:69-90 | a TinyColor is returned unchanged, and a fully transparent colour becomes black |
| Colors.ModelOfExpansion | colors/color.go:69-79 | converting an expanded TinyColor gives back the TinyColor |
| Colors.ScaleExact | colors/color.go:83-88 | for c ≤ a, the scaled channel c · 0xFFFF / a is computed without `uint32` overflow and is at most 0xFFFF |
| Colors.OpaqueShortcutAgrees | colors/color.go:74-83 | for an opaque colour, scaling would leave the channel unchanged, so the shortcut agrees with the general formula |
| Images.GetPut | image.go:42-61 | reading the pixel just written gives its colour; every other byte is unchanged |
| Images.PutElsewhere | image.go:42-61 | writing a pixel does not change the colour of a pixel whose bytes do not overlap |
| Images.PixOffset | image.go:63-65 | pixOffset; with a stride of Dx·2, the offset is twice the row-major index of the pixel |
| Images.IndexInRange | image.go:63-65 | in-bounds pixels have indices in 0..Dx·Dy − 1, and distinct pixels have distinct indices |
| Images.TinyImage.constructor | image.go:21-28 | NewTinyImage: a zeroed buffer of Dx·Dy·2 bytes, stride Dx·2 |
| Images.TinyImage.InBounds | image.go:63-65 | the minimum corner is at offset 0, and every in-bounds pixel has both its bytes in the buffer |
| Images.TinyImage.Disjoint | image.go:63-65 | distinct in-bounds pixels own disjoint byte pairs |
| Images.TinyImage.TinyColorAt | image.go:42-46 | the colour whose high and low bytes are the two bytes at the pixel's offset, read as `ColorAt`, the reading for which GetPut and PutElsewhere are proved |
| Images.TinyImage.SetTinyColor | image.go:56-61 | exactly the two bytes at the pixel's offset become the colour, and TinyColorAt then returns it |
| Images.TinyImage.Set | image.go:48-54 | stores exactly the TinyColor model's conversion of the colour |
| BitFields.Has | dabplus/bitField.go:6-12 | Has(bp) is true iff bit bp of the byte is 1, and false for every position from 8 on |
| BitFields.ShiftedBit | dabplus/bitField.go:7 | testing with a shifted mask agrees with shifting the byte down |
| BitFields.SetBit | dabplus/bitField.go:14-16 | after Set(bp), bp < 8, Has(bp) holds, the other bits are unchanged, and Set is idempotent |
| BitFields.ClearBit | dabplus/bitField.go:18-20 | after Clear(bp), bp < 8, Has(bp) is false, the other bits are unchanged, and Clear is idempotent |
| BitFields.MaskIdempotent | dabplus/bitField.go:14-20 | or-ing or and-not-ing the same mask twice changes nothing more |
| BitFields.OutOfRange | dabplus/bitField.go:6-20 | for bp ≥ 8 the shifted mask is 0: Has is false, and Set and Clear change nothing |
| BitFields.NamedPositionsInByte | dabplus/bitField.go:23-33 | the named status positions all lie within the byte |
| BitFields.BitField.constructor | dabplus/bitField.go:3 | a bit field holding the given byte |
| BitFields.BitField.Set | dabplus/bitField.go:14-16 | the byte becomes the byte with bit bp set |
| BitFields.BitField.Clear | dabplus/bitField.go:18-20 | the byte becomes the byte with bit bp cleared |
| Mapping.Map | tinylib.go:13-15 | the result minus dstMin is (val − srcMin)·(dstMax − dstMin) / (srcMax − srcMin) truncated toward zero: below the exact quotient in magnitude by less than one, with the remainder taking the sign of the dividend |
| Mapping.MapAtMin | tinylib.go:13-15 | srcMin maps to dstMin |
| Mapping.MapAtMax | tinylib.go:13-15 | srcMax maps to dstMax exactly, since the product is a multiple of the divisor |
| Mapping.MapInRange | tinylib.go:14 | a value inside the source range maps inside the destination range, in either destination direction, with truncating division; for the `int` instantiation (exact arithmetic), not for a descending `uint16` destination, which wraps |
| Mapping.MapMonotone | tinylib.go:14 | for an increasing destination range, a larger value never maps lower |
| Leds.DutyBounds | led-pwm.go:87-90 | the duty top · val / 255 is at most top; 0 gives duty 0 and 255 gives top, provided top · 255 fits in 32 bits |
| Leds.ToggleAlternates | led-pwm.go:60-66 | Toggle gives 0 or 255, and toggling twice alternates |
| Leds.FadeInSaturates | led-pwm.go:76-79 | fading in n times adds n and stops at 255; it never wraps |
| Leds.FadeOutWrapsToOff | led-pwm.go:80-83 | fading "out", as written, adds one per step from a lit LED until 255 wraps to 0 |
| Leds.StaysOff | led-pwm.go:80-83 | fading out an LED that is off leaves it off |
| Leds.LED.constructor | led-pwm.go:12-18 | an LED that is off, on a PWM with the given top; the channel shows the value |
| Leds.LED.Get | led-pwm.go:50-52 | the current value, and when the channel shows the value, the duty last written is the duty for that value |
| Leds.LED.Set | led-pwm.go:55-58 | val = v, Get() = v, and the duty written is top · v / 255, so the channel shows the value |
| Leds.LED.Show | led-pwm.go:87-90 | writes the duty for the current value, so the channel shows it |
| Leds.LED.Toggle | led-pwm.go:60-66 | the value becomes 0 when above 128 and 255 otherwise, and is shown |
| Leds.LED.Fade | led-pwm.go:74-85 | the value becomes its fade in the direction, and is shown only when it changed; a shown LED stays shown |

## Left out

- Wall-clock reads (`Now`, `NowMS`, `time.Since`, `time.Now().Truncate`) are parameters. The
  button clock is assumed to be truncated to milliseconds already.
- Pin reads (`Pin.Get`) and ADC reads (`adc.Get`) are parameters.
- Configuration of `machine` pins, the ADC and the PWM is left out, as are the PWM channel
  lookup and the `LED.Configure` hardware setup.
- Callbacks are reduced to an appended event trace. A nil handler means the consumer ignores
  the event. The `SetOn*` setters and the `Task()` constructors of the devices are left out,
  because they only store a pointer or call `NewTask`.
- `Dispatcher.Print` and the `println` calls in calibration produce output only.
- The global `Disp` singleton and `init` (dispatcher.go:58-68) are not modelled. The model
  works on any `Dispatcher`.
- Scheduling.Dispatcher.Load: the `float64` division and `uint8` conversion are modelled as
  an integer division truncated toward zero. For a window of at most 5000 ms this gives the
  same 0..100 result.
- Scheduling.Dispatcher.Pop: the ready list is a sequence of task references, so clearing the
  popped task's `next` pointer and the relinking in `insert` have no counterpart. The order
  and contents of the list are modelled.
- Scheduling.Dispatcher.UpdateLoad: `currSlot` and `lastSlot` are `uint8` in Go. They are
  naturals here, always below 25.
- Scheduling.Dispatcher.Tick: each task's run time and load-slot clock are given as a map per
  task. A task runs at most once per tick, so this is what Go would measure.
- Scheduling.Dispatcher.Tick: the Go task field `Func` is not called. Its effect on other
  objects is not modelled.
- Go's `time.Duration` is 64-bit. The model's durations and times are unbounded integers, so
  `int64` overflow is not modelled. `numCalls` does wrap at 2^32.
- Scheduling.Task.AvgTerm: requires `numCalls > 0`. With no calls yet, Go divides by a zero
  `time.Duration` and panics; that panic is not modelled. Because `numCalls` wraps to 0 after
  2^32 calls, the panic can also come back later in Go.
- Scheduling.Task.AvgDelay: requires `numCalls > 0`, for the same reason as `AvgTerm`: Go's
  division by zero panics, including after `numCalls` wraps to 0.
- Scheduling.Dispatcher.AddTask: a task that is not halting and is already in the ready list
  is excluded, because Go would link it into the list a second time and corrupt the list. A
  halting task still in the list is accepted; if its time was overdue, the list can be left
  out of order (see "## Findings"), and every operation keeps working on it.
- `Task.Configure`, `Task.Run` and the accessors `Interval`, `NumCalls`, `Term` and `Delay`
  are single field reads or writes, or a foreign call. They are not separate members.
- ButtonGroups.ButtonGroup.Tick: Go's `tickFunc` is nil before `Configure`, and calling it
  panics. The model's `Unconfigured` mode stands for that, and `Tick` requires a configured
  group.
- ButtonGroups.ButtonGroup.Configure: `defADCRightShift` and `defADCMaxValue` are package
  globals in Go, shared by all groups. Here they are fields of the group, so two groups with
  different resolutions do not interfere as they would in Go.
- ButtonGroups.ButtonGroup.CalibTick: Go's readouts are pointers, and updating an entry writes
  through the pointer. The model replaces the entry in a sequence of values, so aliasing
  between two list entries is not modelled.
- ButtonGroups.ButtonGroup.StoreMean, ButtonGroups.ButtonGroup.AddSample and
  Scheduling.Dispatcher.Execute are splits of one Go method (calibTick, Tick's loop body).
  `Dispatch`, `UpdateLoad`, `SkipGap` and `RunDue` likewise follow the parts of Tick's loop.
- ButtonGroups.ButtonGroup.WorkTick: every button of one sweep sees the same clock reading.
  In Go each `Process` reads the clock again.
- `lastId` is written by `Configure` and otherwise unused; it is kept as a field.
- Encoder interrupt registration (`SetInterrupt`) and the concurrency between the interrupt
  handler and `Tick` are not modelled. `NewIsr` is a sequential method that takes the line
  levels.
- Encoders.Encoder.NewIsr: Go's `int` position is unbounded here, so overflow is not modelled.
- `Direction.String` returns display text only.
- `Color.FadeOut`, `Color.Interpolate` and the `float64` instantiation of `Map` use floating
  point. `millis` reads the clock.
- Mapping.Map: the model computes in exact integers, which is Go's `int` instantiation. The
  `int16` and `uint16` instantiations compute in the output type and wrap, so they differ:
  - the product `OT(val-srcMin)*(dstMax-dstMin)` wraps once it leaves the type;
  - for a descending `uint16` destination, `dstMax-dstMin` itself wraps: `Map(5, 0, 10, 100, 0)`
    is 6603 in Go and 50 in the model;
  - a narrowing conversion `OT(srcMax-srcMin)` can become 0 although `srcMax != srcMin` (a
    source span of 65536 into `uint16`), and Go then panics dividing by zero.
- `TinyImage.Bounds`, `At`, `ColorModel` and `TinyColor.BitsPerPixel` are one-line accessors.
- Images.TinyImage.constructor: requires `Dx·Dy >= 0`. For a rectangle with exactly one
  negative side, Go's `make` gets a negative length and panics; that panic is not modelled.
- Images.TinyImage.TinyColorAt: requires the pixel's two bytes to lie inside the buffer. Go
  panics otherwise; the panic is not modelled. `SetTinyColor` and `Set` require the same.
- `Color` embeds `color.NRGBA`, and only `NewColor` is modelled. `tinyModel` takes any colour
  through its RGBA values (the `Other` case).

## Findings

| source | as written | input that shows it | evidently intended | confidence | as-written member | corrected member |
|---|---|---|---|---|---|---|
| dispatcher.go:181-192 | AddTask moves the overdue time of a halting task that is still queued to now + interval in place, without moving the task, so the ready list can become unsorted; Tick only looks at the head, so due tasks behind it starve | ready list [a (time 5, halting, interval 100), b (time 7)], AddTask(a) at 10: the list is [a (110), b (7)] and Tick at 10 runs nothing although b is due | the task is re-queued by its new time, so the list stays sorted and a Tick runs every due task | high, not executed | Scheduling.OverdueResubmitStarves | Scheduling.Dispatcher.AddTaskInOrder |
