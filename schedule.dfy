/** The events `metronome` hands to the audio scheduler for one bar, the chain of
    bars that its self re-arming produces, and the scheduler's queue. */
module Schedule {
  import opened Timing

  /** What a queued callback does: `tick` with `{beat}`, or `metronome` again. */
  datatype Kind = Tick(beat: nat) | Rearm

  /** One `sched.insert`: the clock time and the callback it fires. */
  datatype Event = Event(time: real, kind: Kind)

  /** The event of loop step `step` in the bar starting at `t0`. */
  function SlotEvent(t0: real, spb: real, step: nat): (e: Event)
  {
    Event(t0 + spb * (step as real), if step == TIME_SLICE then Rearm else Tick(step))
  }

  /** Everything one call of `metronome` inserts for the bar that starts at `t0`,
      in insertion order. */
  function BarEvents(t0: real, spb: real): (bar: seq<Event>)
    ensures |bar| == TIME_SLICE + 1
  {
    seq(TIME_SLICE + 1, step requires 0 <= step <= TIME_SLICE => SlotEvent(t0, spb, step))
  }

  /** A bar holds exactly TIME_SLICE ticks, with beats 0, 1, ..., TIME_SLICE-1 in
      that order, followed by exactly one re-arm, which comes last. */
  lemma BarShape(t0: real, spb: real)
    ensures var bar := BarEvents(t0, spb);
      (forall i :: 0 <= i < TIME_SLICE ==> bar[i].kind == Tick(i)) &&
      bar[TIME_SLICE].kind == Rearm &&
      forall i :: 0 <= i < |bar| && bar[i].kind == Rearm ==> i == TIME_SLICE
  {
  }

  /** With a positive slice length a later slice is strictly later in time. */
  lemma SliceOrder(t0: real, spb: real, i: nat, j: nat)
    requires spb > 0.0 && i < j
    ensures t0 + spb * (i as real) < t0 + spb * (j as real)
  {
    var d := (j - i) as real;
    assert (j as real) == (i as real) + d;
    assert spb * d > 0.0;
  }

  /** With a positive slice length the bar's times strictly increase: tick `step`
      is at `t0 + spb*step` and every tick precedes the re-arm at
      `t0 + spb*TIME_SLICE`. */
  lemma BarTimes(t0: real, spb: real)
    requires spb > 0.0
    ensures var bar := BarEvents(t0, spb);
      (forall i :: 0 <= i < |bar| ==> bar[i].time == t0 + spb * (i as real)) &&
      (forall i, j :: 0 <= i < j < |bar| ==> bar[i].time < bar[j].time) &&
      bar[TIME_SLICE].time == t0 + spb * (TIME_SLICE as real)
  {
    var bar := BarEvents(t0, spb);
    forall i, j | 0 <= i < j < |bar| ensures bar[i].time < bar[j].time {
      assert bar[i] == SlotEvent(t0, spb, i) && bar[j] == SlotEvent(t0, spb, j);
      SliceOrder(t0, spb, i, j);
    }
  }

  /** `n` bars as the scheduler receives them when each bar's re-arm starts the next
      bar: the re-arm time of one bar is the `t0` of the next. */
  function Bars(t0: real, spb: real, n: nat): (s: seq<Event>)
    ensures |s| == n * (TIME_SLICE + 1)
    decreases n
  {
    if n == 0 then []
    else
      var bar := BarEvents(t0, spb);
      bar + Bars(bar[TIME_SLICE].time, spb, n - 1)
  }

  /** When bar `b` of a chain that started at `t0` begins: each bar begins at the
      re-arm time of the bar before it. */
  function BarStart(t0: real, spb: real, b: nat): (t: real)
    decreases b
  {
    if b == 0 then t0 else BarStart(BarEvents(t0, spb)[TIME_SLICE].time, spb, b - 1)
  }

  /** Appending the bar that starts at the chain's last re-arm time extends the
      chain by one bar. */
  lemma {:induction false} BarsSnoc(t0: real, spb: real, n: nat)
    requires n > 0
    ensures Bars(t0, spb, n) == Bars(t0, spb, n - 1) + BarEvents(BarStart(t0, spb, n - 1), spb)
    decreases n
  {
    var bar := BarEvents(t0, spb);
    var t1 := bar[TIME_SLICE].time;
    if n == 1 {
      assert Bars(t0, spb, 1) == bar + Bars(t1, spb, 0);
    } else {
      BarsSnoc(t1, spb, n - 1);
      assert bar + (Bars(t1, spb, n - 1 - 1) + BarEvents(BarStart(t1, spb, n - 1 - 1), spb))
          == (bar + Bars(t1, spb, n - 1 - 1)) + BarEvents(BarStart(t1, spb, n - 1 - 1), spb);
    }
  }

  /** A bar begins one bar length after the bar before it. */
  lemma {:induction false} BarStartNext(t0: real, spb: real, b: nat)
    ensures BarStart(t0, spb, b + 1) == BarStart(t0, spb, b) + spb * (TIME_SLICE as real)
    decreases b
  {
    if b > 0 {
      BarStartNext(BarEvents(t0, spb)[TIME_SLICE].time, spb, b - 1);
    }
  }

  /** Starting `a` slices after `t0` and moving on `b` more slices lands on
      slice `a + b`. */
  lemma Shift(t0: real, spb: real, a: nat, b: nat)
    ensures (t0 + spb * (a as real)) + spb * (b as real) == t0 + spb * ((a + b) as real)
  {
    assert ((a + b) as real) == (a as real) + (b as real);
  }

  /** Bar `n - 1` starts on a multiple of TIME_SLICE and bar `n` one bar later. */
  lemma BarBoundary(n: nat)
    requires n > 0
    ensures ((n - 1) * TIME_SLICE) % TIME_SLICE == 0
    ensures (n - 1) * TIME_SLICE + TIME_SLICE == n * TIME_SLICE
  {
  }

  /** Bar `b` begins `b*TIME_SLICE` slices after `t0`: re-arming neither drifts
      nor skips. */
  lemma {:induction false} BarStartTime(t0: real, spb: real, b: nat)
    ensures BarStart(t0, spb, b) == t0 + spb * ((b * TIME_SLICE) as real)
    decreases b
  {
    if b > 0 {
      BarStartTime(t0, spb, b - 1);
      BarStartNext(t0, spb, b - 1);
      BarBoundary(b);
      Shift(t0, spb, (b - 1) * TIME_SLICE, TIME_SLICE);
    }
  }

  /** The last event of a nonempty chain is a re-arm at the start of the bar that
      comes next, `t0 + spb*n*TIME_SLICE`. */
  lemma LastRearm(t0: real, spb: real, n: nat)
    requires n > 0
    ensures var s := Bars(t0, spb, n);
      s[|s| - 1] == Event(BarStart(t0, spb, n), Rearm)
    ensures BarStart(t0, spb, n) == t0 + spb * ((n * TIME_SLICE) as real)
  {
    BarsSnoc(t0, spb, n);
    BarStartNext(t0, spb, n - 1);
    BarStartTime(t0, spb, n);
  }

  /** The tick events of a queue, in order. */
  function Ticks(s: seq<Event>): (ticks: seq<Event>)
  {
    if s == [] then []
    else Ticks(s[..|s| - 1]) + (if s[|s| - 1].kind.Tick? then [s[|s| - 1]] else [])
  }

  lemma {:induction false} TicksAppend(a: seq<Event>, b: seq<Event>)
    ensures Ticks(a + b) == Ticks(a) + Ticks(b)
    decreases |b|
  {
    if b != [] {
      var b' := b[..|b| - 1];
      assert (a + b)[..|a + b| - 1] == a + b';
      TicksAppend(a, b');
    } else {
      assert a + b == a;
    }
  }

  lemma {:induction false} TicksOfAllTicks(s: seq<Event>)
    requires forall i :: 0 <= i < |s| ==> s[i].kind.Tick?
    ensures Ticks(s) == s
  {
    if s != [] {
      TicksOfAllTicks(s[..|s| - 1]);
    }
  }

  /** The ideal tick train: the `j`-th tick at `t0 + spb*j`, for beat `j mod TIME_SLICE`. */
  function TickTrain(t0: real, spb: real, m: nat): (train: seq<Event>)
  {
    seq(m, j requires 0 <= j < m => Event(t0 + spb * (j as real), Tick(j % TIME_SLICE)))
  }

  /** The ticks of one bar are its first TIME_SLICE events. */
  lemma BarTicks(t0: real, spb: real)
    ensures Ticks(BarEvents(t0, spb)) == BarEvents(t0, spb)[..TIME_SLICE]
  {
    var bar := BarEvents(t0, spb);
    assert bar[..|bar| - 1] == bar[..TIME_SLICE];
    TicksOfAllTicks(bar[..TIME_SLICE]);
  }

  /** The next TIME_SLICE ticks of the ideal train, from a bar boundary `m` on,
      are the ticks of the bar that starts at the time of tick `m`. */
  lemma TrainStep(t0: real, spb: real, m: nat, tn: real)
    requires m % TIME_SLICE == 0 && tn == t0 + spb * (m as real)
    ensures TickTrain(t0, spb, m + TIME_SLICE) == TickTrain(t0, spb, m) + BarEvents(tn, spb)[..TIME_SLICE]
  {
    var ticks := BarEvents(tn, spb)[..TIME_SLICE];
    var train := TickTrain(t0, spb, m + TIME_SLICE);
    var front := TickTrain(t0, spb, m);
    forall j | 0 <= j < TIME_SLICE
      ensures train[m + j] == ticks[j]
    {
      assert (m + j) % TIME_SLICE == j;
      assert tn + spb * (j as real) == t0 + spb * ((m + j) as real) by {
        Shift(t0, spb, m, j);
      }
    }
    forall j | 0 <= j < m
      ensures train[j] == front[j]
    {
    }
    assert train == front + ticks;
  }

  /** The ticks of `n` chained bars are exactly the ideal train of `n*TIME_SLICE`
      ticks: consecutive bars neither leave a gap nor overlap. */
  lemma {:induction false} ChainedTicks(t0: real, spb: real, n: nat)
    ensures Ticks(Bars(t0, spb, n)) == TickTrain(t0, spb, n * TIME_SLICE)
    decreases n
  {
    if n > 0 {
      var m := (n - 1) * TIME_SLICE;
      var tn := BarStart(t0, spb, n - 1);
      var bar := BarEvents(tn, spb);
      calc {
        Ticks(Bars(t0, spb, n));
        { BarsSnoc(t0, spb, n); }
        Ticks(Bars(t0, spb, n - 1) + bar);
        { TicksAppend(Bars(t0, spb, n - 1), bar); }
        Ticks(Bars(t0, spb, n - 1)) + Ticks(bar);
        { ChainedTicks(t0, spb, n - 1); BarTicks(tn, spb); }
        TickTrain(t0, spb, m) + bar[..TIME_SLICE];
        { BarStartTime(t0, spb, n - 1); BarBoundary(n); TrainStep(t0, spb, m, tn); }
        TickTrain(t0, spb, m + TIME_SLICE);
        { BarBoundary(n); }
        TickTrain(t0, spb, n * TIME_SLICE);
      }
    }
  }

  /** With a positive slice length the ideal train strictly increases in time. */
  lemma TrainIncreases(t0: real, spb: real, m: nat)
    requires spb > 0.0
    ensures var train := TickTrain(t0, spb, m);
      forall i, j :: 0 <= i < j < m ==> train[i].time < train[j].time
  {
    forall i, j | 0 <= i < j < m
      ensures TickTrain(t0, spb, m)[i].time < TickTrain(t0, spb, m)[j].time
    {
      TrainPairOrder(t0, spb, m, i, j);
    }
  }

  lemma TrainPairOrder(t0: real, spb: real, m: nat, i: nat, j: nat)
    requires spb > 0.0 && i < j < m
    ensures TickTrain(t0, spb, m)[i].time < TickTrain(t0, spb, m)[j].time
  {
    SliceOrder(t0, spb, i, j);
  }

  /** With a positive slice length the ticks of a chain strictly increase in time. */
  lemma ChainedTicksIncrease(t0: real, spb: real, n: nat)
    requires spb > 0.0
    ensures var ticks := Ticks(Bars(t0, spb, n));
      forall i, j :: 0 <= i < j < |ticks| ==> ticks[i].time < ticks[j].time
  {
    ChainedTicks(t0, spb, n);
    TrainIncreases(t0, spb, n * TIME_SLICE);
  }

  /** The queue of the `web-audio-scheduler` instance: every `insert`, in order. */
  class Scheduler {
    var queue: seq<Event>

    constructor ()
      ensures queue == []
    {
      queue := [];
    }

    /** `sched.insert(time, callback, args)`. */
    method Insert(e: Event)
      modifies this
      ensures queue == old(queue) + [e]
    {
      queue := queue + [e];
    }

    /** `sched.start(metronome)`: the metronome callback is queued at the clock's
        current time `now`. */
    method Start(now: real)
      modifies this
      ensures queue == old(queue) + [Event(now, Rearm)]
    {
      Insert(Event(now, Rearm));
    }
  }
}
