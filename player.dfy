/** The player component: three channels of tracks, the master gain, the audio
    scheduler, and the `started`/`playing` flags its parent keeps. */
module Player {
  import opened Timing
  import opened Schedule
  import opened Tracks

  /** `props.selectedTracks`: the selected track index of each channel. */
  datatype Selection = Selection(beat: int, acapella: int, melody: int)

  /** Calls made on the host's audio context. */
  datatype HostCall = Suspend | Resume

  /** A selection `metronome` applied, with the number of events queued and
      the gains of the three channels at that moment. */
  datatype Applied = Applied(sel: Selection, queued: nat, beatMix: seq<real>, acapellaMix: seq<real>, melodyMix: seq<real>)

  /** The recorded gains are the mix the recorded selection selects. */
  ghost predicate ShowsSelection(a: Applied)
  {
    0 <= a.sel.beat < |a.beatMix| && a.beatMix == Selected(a.beatMix, a.sel.beat) &&
    0 <= a.sel.acapella < |a.acapellaMix| && a.acapellaMix == Selected(a.acapellaMix, a.sel.acapella) &&
    0 <= a.sel.melody < |a.melodyMix| && a.melodyMix == Selected(a.melodyMix, a.sel.melody)
  }

  /** Whether every source of `ch` has the started flag `v`. */
  ghost predicate AllSources(ch: Channel, v: bool)
    reads ch, ch.started
  {
    forall i :: 0 <= i < ch.started.Length ==> ch.started[i] == v
  }

  class App {
    var beat: Channel
    var acapella: Channel
    var melody: Channel
    /** Gain of the output stage every channel feeds. */
    var masterGain: real
    /** Seconds per slice, set by `startMetronome`. */
    var spb: real
    var sched: Scheduler
    /** Parent state: tracks and metronome have been started. */
    var started: bool
    /** Parent state: the audio context is running rather than suspended. */
    var playing: bool
    /** Suspend and resume calls made on the audio context, in order. */
    var hostCalls: seq<HostCall>
    /** Clock time at which the metronome was started. */
    ghost var origin: real
    /** The selections applied at the bar boundaries so far, in order. */
    ghost var applied: seq<Applied>

    ghost predicate Distinct()
      reads this`beat, this`acapella, this`melody, beat, acapella, melody
    {
      beat != acapella && beat != melody && acapella != melody &&
      beat.gains != acapella.gains && beat.gains != melody.gains && acapella.gains != melody.gains &&
      beat.started != acapella.started && beat.started != melody.started && acapella.started != melody.started
    }

    /** The selection names a track in every channel. */
    predicate Fits(sel: Selection)
      reads this`beat, this`acapella, this`melody, beat, acapella, melody
    {
      0 <= sel.beat < beat.gains.Length &&
      0 <= sel.acapella < acapella.gains.Length &&
      0 <= sel.melody < melody.gains.Length
    }

    /** The audible mix is the one `sel` selects. */
    ghost predicate Plays(sel: Selection)
      reads this`beat, this`acapella, this`melody, beat, acapella, melody, beat.gains, acapella.gains, melody.gains
      requires Fits(sel)
    {
      beat.gains[..] == Selected(beat.gains[..], sel.beat) &&
      acapella.gains[..] == Selected(acapella.gains[..], sel.acapella) &&
      melody.gains[..] == Selected(melody.gains[..], sel.melody)
    }

    /** The audible mix is the one `startTracks` leaves. */
    ghost predicate PlaysFirst()
      reads this`beat, this`acapella, this`melody, beat, acapella, melody, beat.gains, acapella.gains, melody.gains
    {
      beat.gains[..] == Started(beat.gains[..]) &&
      acapella.gains[..] == Started(acapella.gains[..]) &&
      melody.gains[..] == Started(melody.gains[..])
    }

    /** The channels and their buffers are distinct and well formed. */
    ghost predicate Frame()
      reads this`beat, this`acapella, this`melody, beat, acapella, melody
    {
      Distinct() && beat.Valid() && acapella.Valid() && melody.Valid()
    }

    /** Before the first toggle nothing is started or queued. */
    ghost predicate Idle()
      reads this`beat, this`acapella, this`melody, this`sched, this`applied, beat, acapella, melody, sched, beat.started, acapella.started, melody.started
    {
      sched.queue == [] && applied == [] &&
      AllSources(beat, false) && AllSources(acapella, false) && AllSources(melody, false)
    }

    /** Once started, the queue holds the start event and the bars chained from
        it, one bar per applied selection; each selection was applied when
        exactly the events before its bar were queued; and the mix is that of
        the latest selection, or that of `startTracks` before the first bar. */
    ghost predicate Running()
      reads this`beat, this`acapella, this`melody, this`spb, this`sched, this`origin, this`applied, beat, acapella, melody, sched
      reads beat.gains, acapella.gains, melody.gains, beat.started, acapella.started, melody.started
    {
      spb == SecondsPerSlice(BPM, TIME_SLICE) &&
      AllSources(beat, true) && AllSources(acapella, true) && AllSources(melody, true) &&
      Chained(origin, spb, sched.queue, applied) &&
      (applied == [] ==> PlaysFirst()) &&
      (applied != [] ==> Fits(applied[|applied| - 1].sel) && Plays(applied[|applied| - 1].sel))
    }

    ghost predicate Valid()
      reads this`beat, this`acapella, this`melody, this`spb, this`sched, this`origin, this`applied, this`started, beat, acapella, melody, sched
      reads beat.gains, acapella.gains, melody.gains, beat.started, acapella.started, melody.started
    {
      Frame() && (if started then Running() else Idle())
    }

    /** The component once its three channels have loaded `nb`, `na` and `nm`
        tracks. */
    constructor (nb: nat, na: nat, nm: nat)
      ensures Valid() && !started && !playing && hostCalls == []
      ensures beat.gains.Length == nb && acapella.gains.Length == na && melody.gains.Length == nm
      ensures fresh(beat) && fresh(acapella) && fresh(melody) && fresh(sched)
      ensures fresh(beat.gains) && fresh(acapella.gains) && fresh(melody.gains)
      ensures fresh(beat.started) && fresh(acapella.started) && fresh(melody.started)
    {
      beat := new Channel(nb);
      acapella := new Channel(na);
      melody := new Channel(nm);
      masterGain := 1.0;
      spb := 0.0;
      sched := new Scheduler();
      started, playing := false, false;
      hostCalls := [];
      origin := 0.0;
      applied := [];
    }

    /** `setMasterGain(gain)`. */
    method SetMasterGain(gain: real)
      modifies this`masterGain
      ensures masterGain == gain
    {
      masterGain := gain;
    }

    /** `stopMetronome`: only silences the output; the scheduler keeps running. */
    method StopMetronome()
      modifies this`masterGain
      ensures masterGain == 0.0
    {
      SetMasterGain(0.0);
    }

    /** `startMetronome`: master gain to 0.5, `spb` from the tempo formula, and
        the metronome callback queued at the clock's current time `now`. */
    method StartMetronome(now: real)
      modifies this`masterGain, this`spb, sched
      ensures masterGain == 0.5
      ensures spb == SecondsPerSlice(BPM, TIME_SLICE) && spb == 60.0 / 640.0
      ensures sched.queue == old(sched.queue) + [Event(now, Rearm)]
    {
      SetMasterGain(0.5);
      var timeSlice := TIME_SLICE;
      spb := SecondsPerSlice(BPM, timeSlice);
      FixedSecondsPerSlice();
      sched.Start(now);
    }

    /** `resetTracks(selectedTracks, channels)`: in every channel, mute all tracks
        and raise the selected one. */
    method ResetTracks(sel: Selection)
      requires Distinct() && Fits(sel)
      modifies beat.gains, acapella.gains, melody.gains
      ensures beat.gains[..] == Selected(old(beat.gains[..]), sel.beat)
      ensures acapella.gains[..] == Selected(old(acapella.gains[..]), sel.acapella)
      ensures melody.gains[..] == Selected(old(melody.gains[..]), sel.melody)
    {
      beat.ResetTracks(sel.beat);
      acapella.ResetTracks(sel.acapella);
      melody.ResetTracks(sel.melody);
    }

    /** `startTracks`: in every channel, track 0 to DEFAULT_CHANNEL_GAIN, the
        others to 0, and every source started. */
    method StartTracks()
      requires Distinct() && beat.Valid() && acapella.Valid() && melody.Valid()
      modifies beat.gains, acapella.gains, melody.gains, beat.started, acapella.started, melody.started
      ensures beat.gains[..] == Started(old(beat.gains[..]))
      ensures acapella.gains[..] == Started(old(acapella.gains[..]))
      ensures melody.gains[..] == Started(old(melody.gains[..]))
      ensures AllSources(beat, true) && AllSources(acapella, true) && AllSources(melody, true)
    {
      beat.StartTracks();
      acapella.StartTracks();
      melody.StartTracks();
    }

    /** `metronome(e)`, called when the scheduler fires the pending metronome event
        `e`: apply the current selection, then queue the bar's TIME_SLICE ticks and
        the re-arm that will call `metronome` again one bar later. */
    method Metronome(e: Event, sel: Selection)
      requires Valid() && Fits(sel)
      requires sched.queue != [] && e == sched.queue[|sched.queue| - 1]
      modifies sched, beat.gains, acapella.gains, melody.gains, this`applied
      ensures Valid()
      ensures sched.queue == old(sched.queue) + BarEvents(e.time, spb)
      ensures beat.gains[..] == Selected(old(beat.gains[..]), sel.beat)
      ensures acapella.gains[..] == Selected(old(acapella.gains[..]), sel.acapella)
      ensures melody.gains[..] == Selected(old(melody.gains[..]), sel.melody)
      ensures applied == old(applied) + [Applied(sel, |old(sched.queue)|,
        Selected(old(beat.gains[..]), sel.beat), Selected(old(acapella.gains[..]), sel.acapella),
        Selected(old(melody.gains[..]), sel.melody))]
    {
      var t0 := e.time;
      ResetTracks(sel);
      applied := applied + [Applied(sel, |sched.queue|, beat.gains[..], acapella.gains[..], melody.gains[..])];
      ScheduleBar(t0);
      SelectionApplied(sel, old(beat.gains[..]), old(acapella.gains[..]), old(melody.gains[..]));
      ChainGrows(origin, spb, old(sched.queue), old(applied), applied[|applied| - 1], t0);
    }

    /** The loop of `metronome`: for `step` from 0 to TIME_SLICE, a tick at
        `t0 + spb*step` for every step but the last, and the re-arm at
        `t0 + spb*TIME_SLICE` for the last. */
    method ScheduleBar(t0: real)
      modifies sched
      ensures sched.queue == old(sched.queue) + BarEvents(t0, spb)
    {
      ghost var bar := BarEvents(t0, spb);
      var step := 0;
      while step <= TIME_SLICE
        invariant 0 <= step <= TIME_SLICE + 1
        invariant sched.queue == old(sched.queue) + bar[..step]
      {
        var schedStartTime := t0 + spb * (step as real);
        ghost var before := sched.queue;
        assert bar[step] == SlotEvent(t0, spb, step);
        if step == TIME_SLICE {
          assert Event(t0 + spb * (TIME_SLICE as real), Rearm) == bar[step];
          sched.Insert(Event(t0 + spb * (TIME_SLICE as real), Rearm));
        } else {
          assert Event(schedStartTime, Tick(step)) == bar[step];
          sched.Insert(Event(schedStartTime, Tick(step)));
        }
        assert sched.queue == before + [bar[step]];
        assert bar[..step + 1] == bar[..step] + [bar[step]];
        step := step + 1;
      }
      assert bar[..TIME_SLICE + 1] == bar;
    }

    /** While running, the ticks queued so far are the ideal train from the
        start time: tick `j` at `origin + spb*j` for beat `j mod TIME_SLICE`, one
        bar of ticks per applied selection, strictly increasing in time. */
    lemma QueuedTicks()
      requires Valid() && started
      ensures Ticks(sched.queue) == TickTrain(origin, spb, |applied| * TIME_SLICE)
      ensures var ticks := Ticks(sched.queue);
        forall i, j :: 0 <= i < j < |ticks| ==> ticks[i].time < ticks[j].time
    {
      QueueTicks(origin, spb, |applied|, sched.queue);
    }

    /** Once the gains are those of selecting `sel` from any earlier mix, the
        player plays `sel`. */
    lemma SelectionApplied(sel: Selection, gb: seq<real>, ga: seq<real>, gm: seq<real>)
      requires Fits(sel)
      requires |gb| == beat.gains.Length && beat.gains[..] == Selected(gb, sel.beat)
      requires |ga| == acapella.gains.Length && acapella.gains[..] == Selected(ga, sel.acapella)
      requires |gm| == melody.gains.Length && melody.gains[..] == Selected(gm, sel.melody)
      ensures Plays(sel)
    {
      SelectedIsExclusive(gb, sel.beat);
      SelectedIsExclusive(ga, sel.acapella);
      SelectedIsExclusive(gm, sel.melody);
    }

    /** Starting the tracks and the metronome from an idle component leaves it
        running with no bar queued yet and the mix of `startTracks`. */
    lemma FirstToggleValid(gb: seq<real>, ga: seq<real>, gm: seq<real>)
      requires Frame() && started && applied == [] && sched.queue == [Event(origin, Rearm)]
      requires spb == SecondsPerSlice(BPM, TIME_SLICE)
      requires AllSources(beat, true) && AllSources(acapella, true) && AllSources(melody, true)
      requires beat.gains[..] == Started(gb) && acapella.gains[..] == Started(ga) && melody.gains[..] == Started(gm)
      ensures Valid()
    {
      assert Chained(origin, spb, sched.queue, applied) by {
        assert Bars(origin, spb, 0) == [];
      }
      assert beat.gains[..] == Started(beat.gains[..]);
      assert acapella.gains[..] == Started(acapella.gains[..]);
      assert melody.gains[..] == Started(melody.gains[..]);
    }

    /** `handlePlayToggle`: the first toggle starts the tracks and the metronome
        and marks the player started; later toggles suspend a playing context or
        resume a suspended one. Every toggle then flips `playing`. */
    method HandlePlayToggle(now: real)
      requires Valid()
      modifies this`started, this`playing, this`masterGain, this`spb, this`origin, this`hostCalls, sched
      modifies beat.gains, acapella.gains, melody.gains, beat.started, acapella.started, melody.started
      ensures Valid()
      ensures started && playing == !old(playing)
      ensures !old(started) ==>
        masterGain == 0.5 && spb == 60.0 / 640.0 &&
        sched.queue == [Event(now, Rearm)] && hostCalls == old(hostCalls) &&
        beat.gains[..] == Started(old(beat.gains[..])) &&
        acapella.gains[..] == Started(old(acapella.gains[..])) &&
        melody.gains[..] == Started(old(melody.gains[..]))
      ensures old(started) && old(playing) ==> hostCalls == old(hostCalls) + [Suspend]
      ensures old(started) && !old(playing) ==> hostCalls == old(hostCalls) + [Resume]
      ensures old(started) ==>
        masterGain == old(masterGain) && spb == old(spb) && sched.queue == old(sched.queue) &&
        beat.gains[..] == old(beat.gains[..]) && acapella.gains[..] == old(acapella.gains[..]) &&
        melody.gains[..] == old(melody.gains[..]) && applied == old(applied)
    {
      if !started {
        StartTracks();
        StartMetronome(now);
        started := true;
        origin := now;
        FirstToggleValid(old(beat.gains[..]), old(acapella.gains[..]), old(melody.gains[..]));
      } else if playing {
        hostCalls := hostCalls + [Suspend];
      } else {
        hostCalls := hostCalls + [Resume];
      }
      playing := !playing;
    }
  }

  /** The queue holds the start event at `t0` followed by the bars chained from
      it, one bar per applied selection, and the selection of bar `b` was
      already the mix when exactly the start event and the `b` bars before it
      were queued, that is, before any event of bar `b`. */
  ghost predicate Chained(t0: real, spb: real, q: seq<Event>, applied: seq<Applied>)
  {
    q == [Event(t0, Rearm)] + Bars(t0, spb, |applied|) &&
    (forall b :: 0 <= b < |applied| ==> applied[b].queued == 1 + |Bars(t0, spb, b)|) &&
    (forall b :: 0 <= b < |applied| ==> ShowsSelection(applied[b]))
  }

  /** The last queued event is the re-arm at the start of the next bar, so
      queuing the bar that starts at its time, after a selection recorded as
      the mix at the current queue length, extends the chain by exactly one
      bar. */
  lemma ChainGrows(t0: real, spb: real, q: seq<Event>, before: seq<Applied>, a: Applied, t1: real)
    requires Chained(t0, spb, q, before) && t1 == q[|q| - 1].time
    requires a.queued == |q| && ShowsSelection(a)
    ensures q[|q| - 1].kind == Rearm
    ensures Chained(t0, spb, q + BarEvents(t1, spb), before + [a])
  {
    var n := |before|;
    var after := before + [a];
    if n > 0 {
      LastRearm(t0, spb, n);
    }
    BarsSnoc(t0, spb, n + 1);
    assert q + BarEvents(t1, spb) == [Event(t0, Rearm)] + Bars(t0, spb, n + 1);
    forall b | 0 <= b < |after|
      ensures after[b].queued == 1 + |Bars(t0, spb, b)| && ShowsSelection(after[b])
    {
      if b < n {
        assert after[b] == before[b];
      }
    }
  }

  /** The ticks of a queue holding a start event and `n` chained bars are the
      ideal train of `n*TIME_SLICE` ticks, strictly increasing in time. */
  lemma QueueTicks(t0: real, spb: real, n: nat, q: seq<Event>)
    requires spb > 0.0 && q == [Event(t0, Rearm)] + Bars(t0, spb, n)
    ensures Ticks(q) == TickTrain(t0, spb, n * TIME_SLICE)
    ensures var ticks := Ticks(q);
      forall i, j :: 0 <= i < j < |ticks| ==> ticks[i].time < ticks[j].time
  {
    var head := [Event(t0, Rearm)];
    TicksAppend(head, Bars(t0, spb, n));
    assert Ticks(head) == [] by {
      assert head[..0] == [];
    }
    ChainedTicks(t0, spb, n);
    ChainedTicksIncrease(t0, spb, n);
  }
}
