/**
 * The cooperative task scheduler of dispatcher.go: tasks with an absolute
 * next execution time and an interval, a ready list kept sorted by that time
 * (equal times in submission order), a Tick that runs every due task against
 * one captured time, and a 25-slot circular window of run times from which
 * the processor load is computed.
 *
 * Times and durations are Go `time.Duration` nanoseconds. The wall clock is
 * not read: the tick time, the measured run time of each task and the
 * millisecond clock used to pick the load slot are parameters.
 */
module Scheduling {
  import opened GoTypes

  const Millisecond: int := 1_000_000
  const LoadMeasureLengthMS: nat := 5000
  const LoadSlotLengthMS: nat := 200
  const LoadNumSlots: nat := LoadMeasureLengthMS / LoadSlotLengthMS

  // ---------------------------------------------------------------------
  // Ordering of the ready list, stated on the sequence of execution times.

  ghost predicate Sorted(ks: seq<int>)
  {
    forall i, j :: 0 <= i < j < |ks| ==> ks[i] <= ks[j]
  }

  /**
   * The index at which the ready list's insertion puts a task with time
   * `key`: the first entry whose time is strictly after `key`, or the end.
   */
  function UpperBound(ks: seq<int>, key: int): (k: nat)
    ensures k <= |ks|
  {
    if ks == [] || key < ks[0] then 0 else 1 + UpperBound(ks[1..], key)
  }

  function InsertKey(ks: seq<int>, key: int): seq<int>
  {
    var k := UpperBound(ks, key);
    ks[..k] + [key] + ks[k..]
  }

  /** Everything before the insertion point is at or before `key`; in a sorted list everything after is later. */
  lemma {:induction false} UpperBoundSplits(ks: seq<int>, key: int)
    ensures forall i :: 0 <= i < UpperBound(ks, key) ==> ks[i] <= key
    ensures Sorted(ks) ==> forall i :: UpperBound(ks, key) <= i < |ks| ==> key < ks[i]
  {
    if ks != [] && !(key < ks[0]) {
      UpperBoundSplits(ks[1..], key);
      var k := UpperBound(ks, key);
      forall i | 0 <= i < k ensures ks[i] <= key {
        if i > 0 { assert ks[i] == ks[1..][i - 1]; }
      }
      if Sorted(ks) {
        assert Sorted(ks[1..]);
        forall i | k <= i < |ks| ensures key < ks[i] {
          assert ks[i] == ks[1..][i - 1];
        }
      }
    }
  }

  /** Insertion keeps the list sorted, and a task goes after every task with the same time (FIFO ties). */
  lemma InsertKeepsSorted(ks: seq<int>, key: int)
    requires Sorted(ks)
    ensures Sorted(InsertKey(ks, key))
    ensures var k := UpperBound(ks, key);
      && (forall i :: 0 <= i < k ==> ks[i] <= key)
      && (forall i :: k <= i < |ks| ==> key < ks[i])
  {
    UpperBoundSplits(ks, key);
  }

  /** Two tasks inserted one after the other with the same time keep their submission order. */
  lemma InsertEqualKeysIsStable(ks: seq<int>, key: int)
    requires Sorted(ks)
    ensures UpperBound(InsertKey(ks, key), key) == UpperBound(ks, key) + 1
  {
    var k := UpperBound(ks, key);
    var ks1 := InsertKey(ks, key);
    UpperBoundSplits(ks, key);
    InsertKeepsSorted(ks, key);
    UpperBoundSplits(ks1, key);
    assert ks1[k] == key;
    assert k + 1 < |ks1| ==> ks1[k + 1] == ks[k];
  }

  /** A task whose time is after `key`-bounded prefix is inserted after that whole prefix. */
  lemma UpperBoundAtLeast(ks: seq<int>, key: int, p: nat)
    requires p <= |ks|
    requires forall i :: 0 <= i < p ==> ks[i] < key
    ensures p <= UpperBound(ks, key)
  {
    if p > 0 {
      assert !(key < ks[0]);
      UpperBoundAtLeast(ks[1..], key, p - 1);
    }
  }

  /** Inserting at or after position `p` leaves the first `p` entries in place and adds the task to the rest. */
  lemma InsertAfterPrefix<T>(s: seq<T>, t: T, k: nat, p: nat)
    requires p <= k <= |s|
    ensures (s[..k] + [t] + s[k..])[..p] == s[..p]
    ensures multiset((s[..k] + [t] + s[k..])[p..]) == multiset(s[p..]) + multiset{t}
  {
    var r := s[..k] + [t] + s[k..];
    assert r[p..] == s[p..k] + [t] + s[k..];
    assert s[p..] == s[p..k] + s[k..];
  }

  // ---------------------------------------------------------------------
  // The load window.

  /** How many slots forward `to` lies from `from` on the ring of load slots. */
  function Dist(from: nat, to: nat): (d: nat)
    requires from < LoadNumSlots && to < LoadNumSlots
    ensures d < LoadNumSlots && (d == 0 <==> from == to)
  {
    if to >= from then to - from else to + LoadNumSlots - from
  }

  /** The slot after `s` on the ring. */
  function NextSlot(s: nat): (n: nat)
    requires s < LoadNumSlots
    ensures n == if s + 1 == LoadNumSlots then 0 else s + 1
  {
    (s + 1) % LoadNumSlots
  }

  /** The load slot for a millisecond clock reading. */
  function SlotOf(nowMS: nat): (s: nat)
    ensures s < LoadNumSlots
  {
    (nowMS % LoadMeasureLengthMS) / LoadSlotLengthMS
  }

  /** Slot `k` lies strictly between `last` and `curr`, walking forward around the ring. */
  predicate InGap(last: nat, curr: nat, k: nat)
    requires last < LoadNumSlots && curr < LoadNumSlots && k < LoadNumSlots
  {
    0 < Dist(last, k) < Dist(last, curr)
  }

  /**
   * The window after accounting `term` at slot `curr` when `last` was the
   * slot of the previous run: in the same slot the run time accumulates;
   * on a slot change the skipped slots are cleared and the new slot restarts
   * at `term`.
   */
  function AdvanceWindow(slots: seq<int>, last: nat, curr: nat, term: int): (r: seq<int>)
    requires |slots| == LoadNumSlots && last < LoadNumSlots && curr < LoadNumSlots
    ensures |r| == LoadNumSlots
  {
    if curr == last then slots[curr := slots[curr] + term]
    else
      seq(LoadNumSlots, k requires 0 <= k < LoadNumSlots =>
        if k == curr then term else if InGap(last, curr, k) then 0 else slots[k])
  }

  function Sum(s: seq<int>): int
  {
    if s == [] then 0 else Sum(s[..|s| - 1]) + s[|s| - 1]
  }

  /** Load in percent: the run time accounted in the window over the window length, truncated. */
  function LoadPercent(sum: int): (load: int)
    ensures 0 <= sum <= LoadMeasureLengthMS * Millisecond ==> 0 <= load <= 100
    ensures sum * 2 == LoadMeasureLengthMS * Millisecond ==> load == 50
  {
    Quot(100 * sum, LoadMeasureLengthMS * Millisecond)
  }

  /** One run as the load window sees it: its slot and its run time. */
  datatype Sample = Sample(slot: nat, term: int)

  /** The runs of the tasks `ts`, in order: each ran for `runTime[t]` and finished at clock `clockMS[t]`. */
  function Samples(ts: seq<Task>, runTime: map<Task, nat>, clockMS: map<Task, nat>): (r: seq<Sample>)
    requires forall t :: t in ts ==> t in runTime && t in clockMS
    ensures |r| == |ts|
    ensures forall i :: 0 <= i < |r| ==> r[i] == Sample(SlotOf(clockMS[ts[i]]), runTime[ts[i]]) && r[i].slot < LoadNumSlots
  {
    seq(|ts|, i requires 0 <= i < |ts| => Sample(SlotOf(clockMS[ts[i]]), runTime[ts[i]]))
  }

  /** The window after a series of runs, starting with `last` as the slot of the previous run. */
  function Window(slots: seq<int>, last: nat, runs: seq<Sample>): (r: seq<int>)
    requires |slots| == LoadNumSlots && last < LoadNumSlots
    requires forall i :: 0 <= i < |runs| ==> runs[i].slot < LoadNumSlots
    ensures |r| == LoadNumSlots
    decreases |runs|
  {
    if runs == [] then slots
    else Window(AdvanceWindow(slots, last, runs[0].slot, runs[0].term), runs[0].slot, runs[1..])
  }

  /** The slot of the last of `runs`, or `last` when there is none. */
  function LastSlot(last: nat, runs: seq<Sample>): nat
  {
    if runs == [] then last else runs[|runs| - 1].slot
  }

  // ---------------------------------------------------------------------
  // Tasks.

  /** The fields of a task, as a value. */
  datatype TaskState = TaskState(
    execTime: int, interval: int, isHalting: bool,
    lastTerm: int, term: int, delay: int, numCalls: uint32)

  /**
   * Task.Start at `now` when the work took `runTime`: a halting task is left
   * as it is; otherwise the call is counted (32-bit), the delay and the run
   * time are accumulated and the next run is planned one interval after `now`.
   */
  function StartState(s: TaskState, now: int, runTime: int): TaskState
  {
    if s.isHalting then s
    else s.(numCalls := (s.numCalls + 1) % Uint32Limit,
            delay := s.delay + (now - s.execTime),
            lastTerm := runTime,
            term := s.term + runTime,
            execTime := now + s.interval)
  }

  /** What a Tick at `now` does to a due task: a halting one only loses its flag, any other is started. */
  function TickedState(s: TaskState, now: int, runTime: int): TaskState
  {
    if s.isHalting then s.(isHalting := false) else StartState(s, now, runTime)
  }

  class Task {
    var execTime: int
    var interval: int
    var isHalting: bool
    var lastTerm: int
    var term: int
    var delay: int
    var numCalls: uint32

    function State(): TaskState
      reads this
    {
      TaskState(execTime, interval, isHalting, lastTerm, term, delay, numCalls)
    }

    /** NewTask: the time of the first run and the interval come from the configuration. */
    constructor (cfgExecTime: int, cfgInterval: int)
      ensures State() == TaskState(cfgExecTime, cfgInterval, false, 0, 0, 0, 0)
    {
      execTime, interval := cfgExecTime, cfgInterval;
      isHalting := false;
      lastTerm, term, delay, numCalls := 0, 0, 0, 0;
    }

    /** Runs the task at time `now`; its work takes `runTime`. */
    method Start(now: int, runTime: int)
      modifies this
      ensures State() == StartState(old(State()), now, runTime)
    {
      if isHalting {
        return;
      }
      numCalls := (numCalls + 1) % Uint32Limit;
      delay := delay + (now - execTime);
      lastTerm := runTime;
      term := term + lastTerm;
      execTime := now + interval;
    }

    method Halt()
      modifies this`isHalting
      ensures isHalting
    {
      isHalting := true;
    }

    method SetInterval(i: int)
      modifies this`interval
      ensures interval == i
    {
      interval := i;
    }

    /** The mean run time per call, truncated (a call count of zero divides by zero in the source). */
    function AvgTerm(): (avg: int)
      reads this
      requires numCalls > 0
      ensures Abs(avg * numCalls) <= Abs(term) && Abs(term - avg * numCalls) < numCalls
      ensures term >= 0 ==> avg >= 0
    {
      Quot(term, numCalls)
    }

    /** The mean scheduling delay per call, truncated (a call count of zero divides by zero in the source). */
    function AvgDelay(): (avg: int)
      reads this
      requires numCalls > 0
      ensures Abs(avg * numCalls) <= Abs(delay) && Abs(delay - avg * numCalls) < numCalls
      ensures delay >= 0 ==> avg >= 0
    {
      Quot(delay, numCalls)
    }
  }

  /** The states of the tasks of `s`, in order. */
  ghost function States(s: seq<Task>): (ss: seq<TaskState>)
    reads s
    ensures |ss| == |s|
  {
    seq(|s|, i requires 0 <= i < |s| reads s => s[i].State())
  }

  function Keys(ss: seq<TaskState>): (ks: seq<int>)
    ensures |ks| == |ss| && forall i :: 0 <= i < |ss| ==> ks[i] == ss[i].execTime
  {
    seq(|ss|, i requires 0 <= i < |ss| => ss[i].execTime)
  }

  ghost predicate Distinct(s: seq<Task>)
  {
    forall i, j :: 0 <= i < j < |s| ==> s[i] != s[j]
  }

  /** Splicing a task into a list splices its time into the list's times. */
  lemma SpliceKeys(s: seq<Task>, t: Task, k: nat)
    requires k <= |s|
    ensures var ks := Keys(States(s));
      Keys(States(s[..k] + [t] + s[k..])) == ks[..k] + [t.execTime] + ks[k..]
  {
    var r := s[..k] + [t] + s[k..];
    var ks := Keys(States(s));
    var rs := Keys(States(r));
    forall i | 0 <= i < |r| ensures rs[i] == (ks[..k] + [t.execTime] + ks[k..])[i] {
      if i < k {
        assert r[i] == s[i];
      } else if i > k {
        assert r[i] == s[i - 1];
      }
    }
  }

  /** The position of `t` in `s`. */
  function IndexOf(s: seq<Task>, t: Task): (i: nat)
    requires t in s
    ensures i < |s| && s[i] == t
  {
    if s[0] == t then 0 else 1 + IndexOf(s[1..], t)
  }

  /** `s` with the entry holding `t` taken out. */
  function Without(s: seq<Task>, t: Task): seq<Task>
    requires t in s
  {
    var i := IndexOf(s, t);
    s[..i] + s[i + 1..]
  }

  /** Taking out the entry at `i` takes its time out of the times, and keeps the list duplicate-free and sorted. */
  lemma RemoveAt(s: seq<Task>, i: nat)
    requires i < |s|
    ensures var ks := Keys(States(s));
      Keys(States(s[..i] + s[i + 1..])) == ks[..i] + ks[i + 1..]
    ensures Distinct(s) ==> Distinct(s[..i] + s[i + 1..]) && s[i] !in s[..i] + s[i + 1..]
    ensures Sorted(Keys(States(s))) ==> Sorted(Keys(States(s[..i] + s[i + 1..])))
  {
    var r := s[..i] + s[i + 1..];
    var ks := Keys(States(s));
    assert forall j :: 0 <= j < |r| ==> r[j] == if j < i then s[j] else s[j + 1];
    assert Keys(States(r)) == ks[..i] + ks[i + 1..];
    if Distinct(s) {
      forall a, b | 0 <= a < b < |r| ensures r[a] != r[b] {
      }
      forall j | 0 <= j < |r| ensures r[j] != s[i] {
      }
    }
  }

  /** In a sorted list whose head is after `now`, every task is after `now`. */
  lemma LaterThanHead(q: seq<Task>, now: int)
    requires Sorted(Keys(States(q))) && (q == [] || now < q[0].execTime)
    ensures forall t :: t in q ==> now < t.execTime
  {
    var ks := Keys(States(q));
    forall t | t in q ensures now < t.execTime {
      var i :| 0 <= i < |q| && q[i] == t;
      assert ks[0] <= ks[i];
    }
  }

  /** The fields of every task of `s`, by task. */
  ghost function StateMap(s: seq<Task>): (st: map<Task, TaskState>)
    reads s
    ensures forall t :: t in st ==> t in s
    ensures forall t :: t in s ==> t in st
  {
    map t | t in s :: t.State()
  }

  /** When `st` records the tasks' fields, the recorded times are the tasks' times. */
  lemma KeysMatch(s: seq<Task>, st: map<Task, TaskState>)
    requires forall t :: t in s ==> t in st
    requires forall t :: t in st ==> t.State() == st[t]
    ensures Keys(States(s)) == KeysIn(s, st)
  {
  }

  // ---------------------------------------------------------------------
  // Tick on values: the ready list, every task's fields as a map, the load
  // window and the tasks started so far, advanced one popped task at a time.

  /** The times of the tasks of `q` as recorded in `st`. */
  function KeysIn(q: seq<Task>, st: map<Task, TaskState>): (ks: seq<int>)
    requires forall t :: t in q ==> t in st
    ensures |ks| == |q| && forall i :: 0 <= i < |q| ==> ks[i] == st[q[i]].execTime
  {
    seq(|q|, i requires 0 <= i < |q| => st[q[i]].execTime)
  }

  datatype Sched = Sched(queue: seq<Task>, st: map<Task, TaskState>, window: seq<int>, last: nat, started: seq<Task>)

  /** Every queued task is known and measured, each is queued once, and the window has its 25 slots. */
  ghost predicate SchedOk(s: Sched, runTime: map<Task, nat>, clockMS: map<Task, nat>)
  {
    && |s.window| == LoadNumSlots && s.last < LoadNumSlots && Distinct(s.queue)
    && forall t :: t in s.queue ==> t in s.st && t in runTime && t in clockMS
  }

  /** The head of the ready list is due at `now`. */
  predicate Due(s: Sched, now: int)
    requires forall t :: t in s.queue ==> t in s.st
  {
    s.queue != [] && s.st[s.queue[0]].execTime <= now
  }

  /** How many tasks at the front of the ready list are due at `now`. */
  function Pending(s: Sched, now: int): nat
    requires forall t :: t in s.queue ==> t in s.st
  {
    UpperBound(KeysIn(s.queue, s.st), now)
  }

  /** The tasks of `q` that a Tick starts: those not halting, in order. */
  function Running(q: seq<Task>, st: map<Task, TaskState>): (r: seq<Task>)
    requires forall t :: t in q ==> t in st
    ensures forall t :: t in r ==> t in q
  {
    if q == [] then [] else (if st[q[0]].isHalting then [] else [q[0]]) + Running(q[1..], st)
  }

  /** The tasks of `q` that a Tick queues again: started, with a positive interval. */
  function Requeued(q: seq<Task>, st: map<Task, TaskState>): seq<Task>
    requires forall t :: t in q ==> t in st
  {
    if q == [] then []
    else (if !st[q[0]].isHalting && st[q[0]].interval > 0 then [q[0]] else []) + Requeued(q[1..], st)
  }

  /**
   * One pass of Tick's loop on a due head: the head is popped; a halting
   * head only loses its flag; any other is started, its run is accounted in
   * the window and, with a positive interval, it is inserted again by time.
   */
  function Step(s: Sched, now: int, runTime: map<Task, nat>, clockMS: map<Task, nat>): Sched
    requires SchedOk(s, runTime, clockMS) && Due(s, now)
  {
    var t := s.queue[0];
    var rest := s.queue[1..];
    var ts := TickedState(s.st[t], now, runTime[t]);
    var st := s.st[t := ts];
    StepKeys(s, now, runTime, clockMS);
    if s.st[t].isHalting then Sched(rest, st, s.window, s.last, s.started)
    else
      var slot := SlotOf(clockMS[t]);
      var q := if ts.interval > 0
        then (var k := UpperBound(KeysIn(rest, s.st), ts.execTime); rest[..k] + [t] + rest[k..])
        else rest;
      Sched(q, st, AdvanceWindow(s.window, s.last, slot, runTime[t]), slot, s.started + [t])
  }

  /** Step on a halting head: dequeued and its flag cleared, nothing else. */
  lemma StepHalting(s: Sched, now: int, runTime: map<Task, nat>, clockMS: map<Task, nat>)
    requires SchedOk(s, runTime, clockMS) && Due(s, now) && s.st[s.queue[0]].isHalting
    ensures var t := s.queue[0];
      Step(s, now, runTime, clockMS)
        == Sched(s.queue[1..], s.st[t := s.st[t].(isHalting := false)], s.window, s.last, s.started)
  {
  }

  /** Step on a running head: started, accounted in the window, and queued again by time when periodic. */
  lemma StepRunning(s: Sched, now: int, runTime: map<Task, nat>, clockMS: map<Task, nat>)
    requires SchedOk(s, runTime, clockMS) && Due(s, now) && !s.st[s.queue[0]].isHalting
    ensures var t, rest := s.queue[0], s.queue[1..];
      var ts := StartState(s.st[t], now, runTime[t]);
      var slot := SlotOf(clockMS[t]);
      Step(s, now, runTime, clockMS)
        == Sched(if ts.interval > 0
                   then (var k := UpperBound(KeysIn(rest, s.st), ts.execTime); rest[..k] + [t] + rest[k..])
                   else rest,
                 s.st[t := ts], AdvanceWindow(s.window, s.last, slot, runTime[t]), slot, s.started + [t])
  {
  }

  /** The facts about times that make Step well defined and shorten the due prefix by one. */
  lemma StepKeys(s: Sched, now: int, runTime: map<Task, nat>, clockMS: map<Task, nat>)
    requires SchedOk(s, runTime, clockMS) && Due(s, now)
    ensures var t, rest := s.queue[0], s.queue[1..];
      var ts := TickedState(s.st[t], now, runTime[t]);
      var st := s.st[t := ts];
      var ks := KeysIn(rest, s.st);
      && t !in rest
      && KeysIn(rest, st) == ks
      && UpperBound(ks, now) == Pending(s, now) - 1
      && (!s.st[t].isHalting && ts.interval > 0 ==>
           var k := UpperBound(ks, ts.execTime);
           && Pending(s, now) - 1 <= k
           && KeysIn(rest[..k] + [t] + rest[k..], st) == InsertKey(ks, ts.execTime)
           && UpperBound(InsertKey(ks, ts.execTime), now) == UpperBound(ks, now))
  {
    var t, rest := s.queue[0], s.queue[1..];
    var ts := TickedState(s.st[t], now, runTime[t]);
    var st := s.st[t := ts];
    var ks := KeysIn(rest, s.st);
    TailKeys(s.queue, s.st, ts);
    UpperBoundSplits(KeysIn(s.queue, s.st), now);
    if !s.st[t].isHalting && ts.interval > 0 {
      var k := UpperBound(ks, ts.execTime);
      forall i | 0 <= i < Pending(s, now) - 1 ensures ks[i] < ts.execTime {
        assert ks[i] == KeysIn(s.queue, s.st)[i + 1];
      }
      UpperBoundAtLeast(ks, ts.execTime, Pending(s, now) - 1);
      SpliceKeysIn(rest, s.st, t, ts, k);
      InsertLaterKeepsDue(ks, ts.execTime, now);
    }
  }

  /** Popping the head of a list of distinct tasks: the rest no longer holds it, and its times are the tail of the times. */
  lemma TailKeys(q: seq<Task>, st: map<Task, TaskState>, v: TaskState)
    requires q != [] && Distinct(q) && forall t :: t in q ==> t in st
    ensures q[0] !in q[1..]
    ensures KeysIn(q[1..], st[q[0] := v]) == KeysIn(q[1..], st) == KeysIn(q, st)[1..]
  {
    assert q[0] !in q[1..] by {
      forall i | 0 <= i < |q| - 1 ensures q[1..][i] != q[0] {
        assert q[1..][i] == q[i + 1];
      }
    }
  }

  /** Splicing a task with new fields `v` into a list that does not hold it splices `v`'s time into the times. */
  lemma SpliceKeysIn(rest: seq<Task>, st: map<Task, TaskState>, t: Task, v: TaskState, k: nat)
    requires t !in rest && k <= |rest| && forall x :: x in rest ==> x in st
    ensures var ks := KeysIn(rest, st);
      KeysIn(rest[..k] + [t] + rest[k..], st[t := v]) == ks[..k] + [v.execTime] + ks[k..]
  {
    var r := rest[..k] + [t] + rest[k..];
    var ks := KeysIn(rest, st);
    forall i | 0 <= i < |r| ensures KeysIn(r, st[t := v])[i] == (ks[..k] + [v.execTime] + ks[k..])[i] {
      if i < k {
        assert r[i] == rest[i] && rest[i] != t;
      } else if i > k {
        assert r[i] == rest[i - 1] && rest[i - 1] != t;
      }
    }
  }

  /** Step keeps the value state well formed and shortens the due prefix by one. */
  lemma StepOk(s: Sched, now: int, runTime: map<Task, nat>, clockMS: map<Task, nat>)
    requires SchedOk(s, runTime, clockMS) && Due(s, now)
    ensures SchedOk(Step(s, now, runTime, clockMS), runTime, clockMS)
    ensures Step(s, now, runTime, clockMS).st.Keys == s.st.Keys
    ensures Pending(Step(s, now, runTime, clockMS), now) == Pending(s, now) - 1
  {
    var t, rest := s.queue[0], s.queue[1..];
    var ts := TickedState(s.st[t], now, runTime[t]);
    var st := s.st[t := ts];
    StepKeys(s, now, runTime, clockMS);
    assert Distinct(rest) by {
      forall a, b | 0 <= a < b < |rest| ensures rest[a] != rest[b] {
        assert rest[a] == s.queue[a + 1] && rest[b] == s.queue[b + 1];
      }
    }
    if !s.st[t].isHalting && ts.interval > 0 {
      var k := UpperBound(KeysIn(rest, s.st), ts.execTime);
      SpliceDistinct(rest, t, k);
    }
  }

  /** Splicing a task that is not yet in a list of distinct tasks keeps them distinct. */
  lemma SpliceDistinct(s: seq<Task>, t: Task, k: nat)
    requires Distinct(s) && t !in s && k <= |s|
    ensures Distinct(s[..k] + [t] + s[k..])
    ensures forall x :: x in s[..k] + [t] + s[k..] ==> x == t || x in s
  {
    var r := s[..k] + [t] + s[k..];
    forall a, b | 0 <= a < b < |r| ensures r[a] != r[b] {
      assert a < k ==> r[a] == s[a];
      assert b > k ==> r[b] == s[b - 1];
      assert a > k ==> r[a] == s[a - 1];
    }
  }

  /** Inserting a time after `now` does not change how many times at the front are due at `now`. */
  lemma {:induction false} InsertLaterKeepsDue(ks: seq<int>, key: int, now: int)
    requires now < key
    ensures UpperBound(InsertKey(ks, key), now) == UpperBound(ks, now)
  {
    if ks != [] && ks[0] <= now {
      InsertLaterKeepsDue(ks[1..], key, now);
      assert InsertKey(ks, key) == [ks[0]] + InsertKey(ks[1..], key);
    }
  }

  /** Tick on values: pops and handles due heads until the head is not due. */
  function Run(s: Sched, now: int, runTime: map<Task, nat>, clockMS: map<Task, nat>): (r: Sched)
    requires SchedOk(s, runTime, clockMS)
    ensures SchedOk(r, runTime, clockMS) && !Due(r, now)
    decreases Pending(s, now)
  {
    if Due(s, now) then
      StepOk(s, now, runTime, clockMS);
      Run(Step(s, now, runTime, clockMS), now, runTime, clockMS)
    else s
  }

  /** Running and Requeued depend only on the fields of the tasks they look at. */
  lemma {:induction false} RunningAgree(q: seq<Task>, st1: map<Task, TaskState>, st2: map<Task, TaskState>)
    requires forall x :: x in q ==> x in st1 && x in st2 && st1[x] == st2[x]
    ensures Running(q, st1) == Running(q, st2) && Requeued(q, st1) == Requeued(q, st2)
  {
    if q != [] {
      RunningAgree(q[1..], st1, st2);
    }
  }

  /**
   * Step on a due head leaves the other due tasks at the front, in order,
   * and puts the head back among the rest exactly when it is started and
   * periodic.
   */
  lemma StepPrefix(s: Sched, now: int, runTime: map<Task, nat>, clockMS: map<Task, nat>)
    requires SchedOk(s, runTime, clockMS) && Due(s, now)
    ensures var s1, q, d := Step(s, now, runTime, clockMS), s.queue, Pending(s, now);
      var t := q[0];
      && 1 <= d <= |q| && d - 1 <= |s1.queue|
      && s1.queue[..d - 1] == q[1..d]
      && multiset(s1.queue[d - 1..]) == multiset(q[d..])
           + (if !s.st[t].isHalting && s.st[t].interval > 0 then multiset{t} else multiset{})
  {
    var q, d := s.queue, Pending(s, now);
    var t, rest := q[0], q[1..];
    StepKeys(s, now, runTime, clockMS);
    assert q[1..d] == rest[..d - 1];
    assert q[d..] == rest[d - 1..];
    var ts := TickedState(s.st[t], now, runTime[t]);
    if !s.st[t].isHalting && ts.interval > 0 {
      var k := UpperBound(KeysIn(rest, s.st), ts.execTime);
      InsertAfterPrefix(rest, t, k, d - 1);
    }
  }

  /** Step changes the fields of the head only. */
  lemma StepFields(s: Sched, now: int, runTime: map<Task, nat>, clockMS: map<Task, nat>)
    requires SchedOk(s, runTime, clockMS) && Due(s, now)
    ensures var s1, q := Step(s, now, runTime, clockMS), s.queue;
      && s1.st == s.st[q[0] := TickedState(s.st[q[0]], now, runTime[q[0]])]
      && q[0] !in q[1..]
  {
    StepKeys(s, now, runTime, clockMS);
  }

  /** The due tasks after a Step are the due tasks before it but the head: their runs and requeues, head first. */
  lemma StepDue(s: Sched, now: int, runTime: map<Task, nat>, clockMS: map<Task, nat>)
    requires SchedOk(s, runTime, clockMS) && Due(s, now)
    ensures var s1, q, d := Step(s, now, runTime, clockMS), s.queue, Pending(s, now);
      var t := q[0];
      && Pending(s1, now) == d - 1
      && s1.started == s.started + (if s.st[t].isHalting then [] else [t])
      && Running(q[..d], s.st) == (if s.st[t].isHalting then [] else [t]) + Running(s1.queue[..d - 1], s1.st)
      && Requeued(q[..d], s.st)
           == (if !s.st[t].isHalting && s.st[t].interval > 0 then [t] else []) + Requeued(s1.queue[..d - 1], s1.st)
  {
    var q, d := s.queue, Pending(s, now);
    StepOk(s, now, runTime, clockMS);
    StepPrefix(s, now, runTime, clockMS);
    StepFields(s, now, runTime, clockMS);
    var s1 := Step(s, now, runTime, clockMS);
    RunningAgree(q[1..d], s1.st, s.st);
    assert q[..d][1..] == q[1..d];
  }

  /** The tasks a Tick starts are the due tasks that are not halting, in list order. */
  lemma {:induction false} RunStarted(s: Sched, now: int, runTime: map<Task, nat>, clockMS: map<Task, nat>)
    requires SchedOk(s, runTime, clockMS)
    decreases Pending(s, now)
    ensures Run(s, now, runTime, clockMS).started == s.started + Running(s.queue[..Pending(s, now)], s.st)
  {
    if Due(s, now) {
      StepOk(s, now, runTime, clockMS);
      StepStarted(s, Step(s, now, runTime, clockMS), now, runTime, clockMS);
      RunStarted(Step(s, now, runTime, clockMS), now, runTime, clockMS);
    } else {
      assert s.queue[..Pending(s, now)] == [];
    }
  }

  /** The tasks started so far after a Step, followed by those still to start, are the Tick's started tasks. */
  lemma StepStarted(s: Sched, s1: Sched, now: int, runTime: map<Task, nat>, clockMS: map<Task, nat>)
    requires SchedOk(s, runTime, clockMS) && Due(s, now)
    requires s1 == Step(s, now, runTime, clockMS) && SchedOk(s1, runTime, clockMS) && Pending(s1, now) == Pending(s, now) - 1
    ensures var d := Pending(s, now);
      s1.started + Running(s1.queue[..d - 1], s1.st) == s.started + Running(s.queue[..d], s.st)
  {
    var q, d := s.queue, Pending(s, now);
    StepDue(s, now, runTime, clockMS);
    var x := if s.st[q[0]].isHalting then [] else [q[0]];
    ShiftFront(s.started, x, Running(s1.queue[..d - 1], s1.st));
  }

  /** Concatenation regrouped. */
  lemma ShiftFront<T>(a: seq<T>, x: seq<T>, b: seq<T>)
    ensures (a + x) + b == a + (x + b)
  {
  }

  /** After a Tick the ready list holds the tasks that were not due and the started periodic ones. */
  lemma {:induction false} RunQueue(s: Sched, now: int, runTime: map<Task, nat>, clockMS: map<Task, nat>)
    requires SchedOk(s, runTime, clockMS)
    decreases Pending(s, now)
    ensures var q, d := s.queue, Pending(s, now);
      multiset(Run(s, now, runTime, clockMS).queue) == multiset(q[d..]) + multiset(Requeued(q[..d], s.st))
  {
    var q, d := s.queue, Pending(s, now);
    if Due(s, now) {
      StepOk(s, now, runTime, clockMS);
      var s1 := Step(s, now, runTime, clockMS);
      StepQueue(s, s1, now, runTime, clockMS);
      RunQueue(s1, now, runTime, clockMS);
      assert Run(s, now, runTime, clockMS) == Run(s1, now, runTime, clockMS);
      assert Pending(s1, now) == d - 1;
    } else {
      assert q[..d] == [] && q[d..] == q;
      assert Run(s, now, runTime, clockMS) == s;
      assert Requeued(q[..d], s.st) == [];
    }
  }

  /** What is still to be queued after a Step, with what it queued, is what the Tick's due tasks leave queued. */
  lemma StepQueue(s: Sched, s1: Sched, now: int, runTime: map<Task, nat>, clockMS: map<Task, nat>)
    requires SchedOk(s, runTime, clockMS) && Due(s, now)
    requires s1 == Step(s, now, runTime, clockMS) && SchedOk(s1, runTime, clockMS) && Pending(s1, now) == Pending(s, now) - 1
    ensures var q, d := s.queue, Pending(s, now);
      multiset(s1.queue[d - 1..]) + multiset(Requeued(s1.queue[..d - 1], s1.st))
      == multiset(q[d..]) + multiset(Requeued(q[..d], s.st))
  {
    StepDue(s, now, runTime, clockMS);
    StepPrefix(s, now, runTime, clockMS);
  }

  /** A Tick gives every due task the fields TickedState computes and leaves every other task's fields alone. */
  lemma {:induction false} RunFields(s: Sched, now: int, runTime: map<Task, nat>, clockMS: map<Task, nat>)
    requires SchedOk(s, runTime, clockMS)
    decreases Pending(s, now)
    ensures var r, q, d := Run(s, now, runTime, clockMS), s.queue, Pending(s, now);
      && r.st.Keys == s.st.Keys
      && forall t :: t in s.st ==> r.st[t] == if t in q[..d] then TickedState(s.st[t], now, runTime[t]) else s.st[t]
  {
    var q, d := s.queue, Pending(s, now);
    if Due(s, now) {
      var s1 := Step(s, now, runTime, clockMS);
      StepOk(s, now, runTime, clockMS);
      StepTicks(s, now, runTime, clockMS);
      RunFields(s1, now, runTime, clockMS);
    } else {
      assert q[..d] == [];
    }
  }

  /** Ticking the head and then the due tasks behind it ticks exactly the due tasks. */
  lemma StepTicks(s: Sched, now: int, runTime: map<Task, nat>, clockMS: map<Task, nat>)
    requires SchedOk(s, runTime, clockMS) && Due(s, now)
    ensures var s1, q, d := Step(s, now, runTime, clockMS), s.queue, Pending(s, now);
      && d - 1 <= |s1.queue|
      && s1.st.Keys == s.st.Keys
      && forall x :: x in s.st ==>
           (if x in s1.queue[..d - 1] then TickedState(s1.st[x], now, runTime[x]) else s1.st[x])
           == (if x in q[..d] then TickedState(s.st[x], now, runTime[x]) else s.st[x])
  {
    var q, d := s.queue, Pending(s, now);
    StepOk(s, now, runTime, clockMS);
    StepPrefix(s, now, runTime, clockMS);
    StepFields(s, now, runTime, clockMS);
    assert q[..d] == [q[0]] + q[1..d];
    forall x | x in s.st ensures x in q[..d] <==> x == q[0] || x in q[1..d] {
    }
  }

  /** A Tick accounts the started runs in the window one after the other; the last slot is that of the last run. */
  lemma {:induction false} RunWindow(s: Sched, now: int, runTime: map<Task, nat>, clockMS: map<Task, nat>)
    requires SchedOk(s, runTime, clockMS)
    decreases Pending(s, now)
    ensures var r, ran := Run(s, now, runTime, clockMS), Running(s.queue[..Pending(s, now)], s.st);
      && r.window == Window(s.window, s.last, Samples(ran, runTime, clockMS))
      && r.last == LastSlot(s.last, Samples(ran, runTime, clockMS))
  {
    if Due(s, now) {
      StepOk(s, now, runTime, clockMS);
      StepWindow(s, Step(s, now, runTime, clockMS), now, runTime, clockMS);
      RunWindow(Step(s, now, runTime, clockMS), now, runTime, clockMS);
    } else {
      assert s.queue[..Pending(s, now)] == [];
    }
  }

  /** The window a Step leaves, followed by the runs still to come, is the window the Tick's runs produce. */
  lemma StepWindow(s: Sched, s1: Sched, now: int, runTime: map<Task, nat>, clockMS: map<Task, nat>)
    requires SchedOk(s, runTime, clockMS) && Due(s, now)
    requires s1 == Step(s, now, runTime, clockMS) && SchedOk(s1, runTime, clockMS) && Pending(s1, now) == Pending(s, now) - 1
    ensures var d := Pending(s, now);
      var smp := Samples(Running(s.queue[..d], s.st), runTime, clockMS);
      var smp1 := Samples(Running(s1.queue[..d - 1], s1.st), runTime, clockMS);
      && Window(s.window, s.last, smp) == Window(s1.window, s1.last, smp1)
      && LastSlot(s.last, smp) == LastSlot(s1.last, smp1)
  {
    var q, d := s.queue, Pending(s, now);
    StepDue(s, now, runTime, clockMS);
    var t := q[0];
    var ran1 := Running(s1.queue[..d - 1], s1.st);
    if s.st[t].isHalting {
      assert s1.window == s.window && s1.last == s.last;
      assert Running(q[..d], s.st) == ran1;
    } else {
      assert s1.window == AdvanceWindow(s.window, s.last, SlotOf(clockMS[t]), runTime[t]);
      assert s1.last == SlotOf(clockMS[t]);
      assert Running(q[..d], s.st) == [t] + ran1;
      WindowCons(s.window, s.last, t, ran1, runTime, clockMS);
    }
  }

  /** Accounting the run of `t` and then the runs of `ts` is accounting the runs of `[t] + ts`. */
  lemma WindowCons(w: seq<int>, last: nat, t: Task, ts: seq<Task>, runTime: map<Task, nat>, clockMS: map<Task, nat>)
    requires |w| == LoadNumSlots && last < LoadNumSlots
    requires t in runTime && t in clockMS && forall x :: x in ts ==> x in runTime && x in clockMS
    ensures var slot := SlotOf(clockMS[t]);
      var w1 := AdvanceWindow(w, last, slot, runTime[t]);
      && Window(w, last, Samples([t] + ts, runTime, clockMS)) == Window(w1, slot, Samples(ts, runTime, clockMS))
      && LastSlot(last, Samples([t] + ts, runTime, clockMS)) == LastSlot(slot, Samples(ts, runTime, clockMS))
  {
    var smp := Samples([t] + ts, runTime, clockMS);
    assert smp[1..] == Samples(ts, runTime, clockMS);
  }

  /** In a sorted ready list the due tasks are exactly those at or before `now`, and they come first. */
  lemma DuePrefix(s: Sched, now: int)
    requires forall t :: t in s.queue ==> t in s.st
    requires Sorted(KeysIn(s.queue, s.st))
    ensures forall i :: 0 <= i < |s.queue| ==> (i < Pending(s, now) <==> s.st[s.queue[i]].execTime <= now)
  {
    UpperBoundSplits(KeysIn(s.queue, s.st), now);
  }

  // ---------------------------------------------------------------------
  // The dispatcher.

  class Dispatcher {
    var readyList: seq<Task>
    var termList: array<int>
    var currSlot: nat
    var lastSlot: nat

    /** The ready list holds each task once; the window has 25 slots. */
    ghost predicate Valid()
      reads this
    {
      && termList.Length == LoadNumSlots
      && currSlot < LoadNumSlots && lastSlot < LoadNumSlots
      && Distinct(readyList)
    }

    /**
     * The ready list is sorted by execution time. Every operation keeps
     * this, except AddTask moving the time of a queued task in place.
     */
    ghost predicate Ordered()
      reads this`readyList, readyList
    {
      Sorted(Keys(States(readyList)))
    }

    /** NewDispatcher: an empty ready list and an all-zero load window. */
    constructor ()
      ensures Valid() && Ordered() && fresh(termList)
      ensures readyList == [] && termList[..] == seq(LoadNumSlots, _ => 0)
      ensures currSlot == 0 && lastSlot == 0
    {
      readyList := [];
      termList := new int[LoadNumSlots](_ => 0);
      currSlot, lastSlot := 0, 0;
    }

    /** The number of queued tasks. */
    function NumTasks(): (n: nat)
      reads this
      ensures n == |readyList|
    {
      |readyList|
    }

    /**
     * Puts `task` into the ready list after every task whose time is not
     * after its own; `task`'s fields are only read.
     */
    method Insert(task: Task)
      requires Valid() && task !in readyList
      modifies this`readyList
      ensures Valid() && (old(Ordered()) ==> Ordered())
      ensures var k := UpperBound(Keys(old(States(readyList))), task.execTime);
        readyList == old(readyList)[..k] + [task] + old(readyList)[k..]
      ensures Keys(States(readyList)) == InsertKey(Keys(old(States(readyList))), task.execTime)
      ensures NumTasks() == old(NumTasks()) + 1
    {
      ghost var ks := Keys(States(readyList));
      var i := 0;
      while i < |readyList| && !(task.execTime < readyList[i].execTime)
        invariant 0 <= i <= |readyList|
        invariant UpperBound(ks, task.execTime) == i + UpperBound(ks[i..], task.execTime)
      {
        assert ks[i] == readyList[i].execTime;
        assert ks[i..][1..] == ks[i + 1..];
        i := i + 1;
      }
      assert i < |readyList| ==> ks[i] == readyList[i].execTime;
      SpliceKeys(readyList, task, i);
      if Sorted(ks) {
        InsertKeepsSorted(ks, task.execTime);
      }
      SpliceDistinct(readyList, task, i);
      readyList := readyList[..i] + [task] + readyList[i..];
    }

    /** Removes and returns the head when it is due at `t`; otherwise returns null and changes nothing. */
    method Pop(t: int) returns (task: Task?)
      requires Valid()
      modifies this`readyList
      ensures Valid() && (old(Ordered()) ==> Ordered())
      ensures task == null <==> old(readyList) == [] || old(readyList)[0].execTime > t
      ensures task != null ==> task == old(readyList)[0] && readyList == old(readyList)[1..] && task !in readyList
      ensures task == null ==> readyList == old(readyList)
    {
      if readyList == [] {
        return null;
      }
      task := readyList[0];
      if task.execTime > t {
        return null;
      }
      ghost var rl := readyList;
      readyList := readyList[1..];
      assert task !in readyList by {
        assert forall i :: 0 < i < |rl| ==> rl[i] != rl[0];
      }
      assert Keys(States(rl))[1..] == Keys(States(readyList));
    }

    /**
     * Submits `t` at time `now`: a time already in the past becomes
     * `now + interval`; a halting task only has its flag cleared and is not
     * queued again, whether or not it still sits in the ready list. A halting
     * task still in the list keeps its place, so an overdue one whose time is
     * moved forward can leave the list out of order.
     */
    method AddTask(t: Task, now: int)
      requires Valid() && (t !in readyList || t.isHalting)
      modifies this`readyList, t`execTime, t`isHalting
      ensures Valid()
      ensures old(Ordered()) && (t !in old(readyList) || old(t.execTime) >= now) ==> Ordered()
      ensures t.execTime == if old(t.execTime) < now then now + t.interval else old(t.execTime)
      ensures !t.isHalting
      ensures old(t.isHalting) ==> readyList == old(readyList)
      ensures !old(t.isHalting) ==> var k := UpperBound(Keys(old(States(readyList))), t.execTime);
        readyList == old(readyList)[..k] + [t] + old(readyList)[k..]
    {
      ghost var ks := Keys(States(readyList));
      ghost var queued := t in readyList;
      if t.execTime < now {
        t.execTime := now + t.interval;
      }
      if t.isHalting {
        t.isHalting := false;
        if !queued {
          assert forall i :: 0 <= i < |readyList| ==> readyList[i] != t;
          assert Keys(States(readyList)) == ks;
        } else if old(t.execTime) >= now {
          assert Keys(States(readyList)) == ks;
        }
      } else {
        Insert(t);
      }
    }

    /**
     * AddTask corrected: a halting task still in the ready list whose
     * overdue time is moved is also moved in the list, by its new time, so
     * a sorted list stays sorted. Every other case is AddTask's.
     */
    method AddTaskInOrder(t: Task, now: int)
      requires Valid() && (t !in readyList || t.isHalting)
      modifies this`readyList, t`execTime, t`isHalting
      ensures Valid() && (old(Ordered()) ==> Ordered())
      ensures t.execTime == if old(t.execTime) < now then now + t.interval else old(t.execTime)
      ensures !t.isHalting
      ensures t in old(readyList) && old(t.execTime) < now ==>
        var rest := Without(old(readyList), t);
        var k := UpperBound(old(Keys(States(Without(readyList, t)))), t.execTime);
        readyList == rest[..k] + [t] + rest[k..]
      ensures old(t.isHalting) && !(t in old(readyList) && old(t.execTime) < now) ==> readyList == old(readyList)
      ensures !old(t.isHalting) ==> var k := UpperBound(Keys(old(States(readyList))), t.execTime);
        readyList == old(readyList)[..k] + [t] + old(readyList)[k..]
    {
      if t in readyList && t.execTime < now {
        var rest := Without(readyList, t);
        RemoveAt(readyList, IndexOf(readyList, t));
        ghost var ks := Keys(States(rest));
        readyList := rest;
        t.execTime := now + t.interval;
        t.isHalting := false;
        assert Keys(States(readyList)) == ks;
        Insert(t);
      } else {
        AddTask(t, now);
      }
    }

    /** Accounts a run of `lastTerm` finishing at millisecond clock `nowMS` in the load window. */
    method UpdateLoad(lastTerm: int, nowMS: nat)
      requires Valid()
      modifies this`currSlot, this`lastSlot, termList
      ensures Valid()
      ensures currSlot == SlotOf(nowMS) && lastSlot == currSlot
      ensures termList[..] == AdvanceWindow(old(termList[..]), old(lastSlot), SlotOf(nowMS), lastTerm)
    {
      currSlot := SlotOf(nowMS);
      if currSlot != lastSlot {
        ghost var last0 := lastSlot;
        SkipGap();
        termList[currSlot] := lastTerm;
        assert termList[..] == AdvanceWindow(old(termList[..]), last0, currSlot, lastTerm);
      } else {
        termList[currSlot] := termList[currSlot] + lastTerm;
      }
    }

    /** Walks `lastSlot` forward around the ring up to `currSlot`, clearing every slot strictly between. */
    method SkipGap()
      requires termList.Length == LoadNumSlots && lastSlot < LoadNumSlots && currSlot < LoadNumSlots
      requires lastSlot != currSlot
      modifies this`lastSlot, termList
      ensures lastSlot == currSlot
      ensures forall k :: 0 <= k < LoadNumSlots ==>
        termList[k] == if InGap(old(lastSlot), currSlot, k) then 0 else old(termList[k])
    {
      ghost var last0 := lastSlot;
      lastSlot := NextSlot(lastSlot);
      while lastSlot != currSlot
        invariant lastSlot < LoadNumSlots
        invariant 0 < Dist(last0, lastSlot) <= Dist(last0, currSlot)
        invariant forall k :: 0 <= k < LoadNumSlots ==>
          termList[k] == if 0 < Dist(last0, k) < Dist(last0, lastSlot) then 0 else old(termList[k])
        decreases Dist(last0, currSlot) - Dist(last0, lastSlot)
      {
        termList[lastSlot] := 0;
        lastSlot := NextSlot(lastSlot);
      }
    }

    /**
     * Tick's work on a popped task that is not halting: start it, account
     * its run in the load window and, when it is periodic, queue it again.
     */
    method RunDue(task: Task, currentTime: int, runTime: nat, nowMS: nat)
      requires Valid() && task !in readyList && !task.isHalting
      modifies this`readyList, this`currSlot, this`lastSlot, termList, task
      ensures Valid() && (old(Ordered()) ==> Ordered())
      ensures task.State() == StartState(old(task.State()), currentTime, runTime)
      ensures termList[..] == AdvanceWindow(old(termList[..]), old(lastSlot), SlotOf(nowMS), runTime)
      ensures lastSlot == SlotOf(nowMS)
      ensures readyList == if task.interval > 0
        then (var k := UpperBound(Keys(old(States(readyList))), task.execTime);
          old(readyList)[..k] + [task] + old(readyList)[k..])
        else old(readyList)
    {
      task.Start(currentTime, runTime);
      UpdateLoad(task.lastTerm, nowMS);
      if task.interval > 0 {
        Insert(task);
      }
    }

    /** The task Pop may hand out next, as a frame. */
    ghost function Head(): set<Task>
      reads this
    {
      if readyList == [] then {} else {readyList[0]}
    }

    /**
     * `s` is this dispatcher seen as a value: its ready list, load window
     * and last slot, and `s.st` holds the current fields of every task it names.
     */
    ghost predicate Models(s: Sched)
      reads this, termList, s.st.Keys
    {
      && s.queue == readyList && s.window == termList[..] && s.last == lastSlot
      && forall t :: t in s.st ==> t.State() == s.st[t]
    }

    /**
     * One pass of Tick's loop: pop the head if it is due at `currentTime`;
     * a halting task only has its flag cleared, any other is started, its
     * run accounted in the load window and, when periodic, queued again.
     * On values this is Step, or nothing when the head is not due.
     */
    method Dispatch(currentTime: int, runTime: map<Task, nat>, clockMS: map<Task, nat>, ghost s: Sched)
      returns (task: Task?, ghost next: Sched)
      requires Valid() && Models(s) && SchedOk(s, runTime, clockMS)
      modifies this, termList, Head()
      ensures Valid() && termList == old(termList) && Models(next)
      ensures old(Ordered()) ==> Ordered()
      ensures task == null <==> !Due(s, currentTime)
      ensures next == if task == null then s else Step(s, currentTime, runTime, clockMS)
    {
      ghost var rl := readyList;
      if rl != [] {
        KeysMatch(rl[1..], s.st);
      }
      task := Pop(currentTime);
      if task == null {
        return task, s;
      }
      next := Execute(task, currentTime, runTime, clockMS, s);
    }

    /** The popped head `task` of `s` is run (or only unhalted): Step's effect on the fields. */
    method Execute(task: Task, currentTime: int, runTime: map<Task, nat>, clockMS: map<Task, nat>, ghost s: Sched)
      returns (ghost next: Sched)
      requires Valid() && SchedOk(s, runTime, clockMS) && Due(s, currentTime)
      requires task == s.queue[0] && readyList == s.queue[1..] && task !in readyList
      requires s.window == termList[..] && s.last == lastSlot
      requires forall t :: t in s.st ==> t.State() == s.st[t]
      requires Keys(States(readyList)) == KeysIn(s.queue[1..], s.st)
      modifies this, termList, task
      ensures Valid() && termList == old(termList) && Models(next)
      ensures Sorted(KeysIn(s.queue[1..], s.st)) ==> Ordered()
      ensures next == Step(s, currentTime, runTime, clockMS)
    {
      if task.isHalting {
        task.isHalting := false;
        StepHalting(s, currentTime, runTime, clockMS);
      } else {
        RunDue(task, currentTime, runTime[task], clockMS[task]);
        StepRunning(s, currentTime, runTime, clockMS);
      }
      next := Step(s, currentTime, runTime, clockMS);
      forall x | x in next.st ensures x.State() == next.st[x] {
        if x != task {
          assert x in s.st && next.st[x] == s.st[x];
        }
      }
    }

    /**
     * Runs every task due at `currentTime`, in list order, all against that
     * one time: Run on values. A halting task has its flag cleared and is
     * dropped; any other is started (its work takes `runTime[t]`, after which
     * the millisecond clock reads `clockMS[t]`), its run is accounted in the
     * load window, and it is queued again when its interval is positive.
     * `r` is the dispatcher afterwards as a value, with the started tasks.
     */
    method Tick(currentTime: int, runTime: map<Task, nat>, clockMS: map<Task, nat>) returns (ghost r: Sched)
      requires Valid()
      requires forall t :: t in readyList ==> t in runTime && t in clockMS
      modifies this, termList, readyList
      ensures Valid() && termList == old(termList) && Models(r)
      ensures old(Ordered()) ==> Ordered() && forall t :: t in readyList ==> currentTime < t.execTime
      ensures r == Run(Sched(old(readyList), old(StateMap(readyList)), old(termList[..]), old(lastSlot), []),
        currentTime, runTime, clockMS)
      ensures readyList == [] || currentTime < readyList[0].execTime
    {
      r := Sched(readyList, StateMap(readyList), termList[..], lastSlot, []);
      ghost var s0 := r;
      ghost var ordered := Ordered();
      while true
        invariant Valid() && termList == old(termList)
        invariant ordered ==> Ordered()
        invariant Models(r) && SchedOk(r, runTime, clockMS)
        invariant forall t :: t in r.st ==> t in old(readyList)
        invariant Run(r, currentTime, runTime, clockMS) == Run(s0, currentTime, runTime, clockMS)
        decreases Pending(r, currentTime)
      {
        assert readyList != [] ==> readyList[0] in r.st;
        var task;
        ghost var next;
        task, next := Dispatch(currentTime, runTime, clockMS, r);
        if task == null {
          break;
        }
        StepOk(r, currentTime, runTime, clockMS);
        r := next;
      }
      if ordered {
        LaterThanHead(readyList, currentTime);
      }
    }

    /** The load in percent over the whole window. */
    method Load() returns (load: int)
      requires Valid()
      ensures load == LoadPercent(Sum(termList[..]))
    {
      var sum := 0;
      for i := 0 to LoadNumSlots
        invariant sum == Sum(termList[..i])
      {
        assert termList[..i + 1][..i] == termList[..i];
        sum := sum + termList[i];
      }
      assert termList[..LoadNumSlots] == termList[..];
      load := LoadPercent(sum);
    }
  }

  /**
   * AddTask as written, on the ready list [a (time 5, halting, interval 100),
   * b (time 7)] at time 10: a's time moves to 110 but a stays at the head,
   * ahead of b.
   */
  method OverdueResubmit() returns (d: Dispatcher, a: Task, b: Task)
    ensures fresh(d) && fresh(d.termList) && fresh(a) && fresh(b)
    ensures d.Valid() && d.readyList == [a, b] && a != b
    ensures a.State() == TaskState(110, 100, false, 0, 0, 0, 0)
    ensures b.State() == TaskState(7, 100, false, 0, 0, 0, 0)
  {
    d, a, b := TwoTasks();
    a.Halt();
    d.AddTask(a, 10);
  }

  /** A new dispatcher given a task at time 5 and then one at time 7, both with interval 100, at time 0. */
  method TwoTasks() returns (d: Dispatcher, a: Task, b: Task)
    ensures fresh(d) && fresh(d.termList) && fresh(a) && fresh(b)
    ensures d.Valid() && d.readyList == [a, b] && a != b
    ensures a.State() == TaskState(5, 100, false, 0, 0, 0, 0)
    ensures b.State() == TaskState(7, 100, false, 0, 0, 0, 0)
  {
    d := new Dispatcher();
    a := new Task(5, 100);
    d.AddTask(a, 0);
    assert d.readyList == [a];
    assert Keys(States(d.readyList)) == [5];
    assert UpperBound([5], 7) == 1;
    b := new Task(7, 100);
    d.AddTask(b, 0);
  }

  /**
   * After that AddTask, the Tick at 10 runs nothing although b is due at 7:
   * the list is left out of order and b starves behind a until time 110.
   */
  method OverdueResubmitStarves() returns (d: Dispatcher, a: Task, b: Task)
    ensures d.readyList == [a, b] && a.execTime == 110 && b.execTime == 7
    ensures b.numCalls == 0 && !d.Ordered()
  {
    d, a, b := OverdueResubmit();
    ghost var s0 := Sched([a, b], StateMap([a, b]), d.termList[..], d.lastSlot, []);
    assert !Due(s0, 10);
    ghost var r := d.Tick(10, map[a := 1, b := 1], map[a := 0, b := 0]);
    assert r == s0;
    assert Keys(States(d.readyList))[0] > Keys(States(d.readyList))[1];
  }
}
