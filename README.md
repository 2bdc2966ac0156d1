# mashupBot player core, in Dafny

mashupBot plays a live mashup of three channels of looping stems: a beat, an
acapella and a melody. The player component (`components/app.jsx`) keeps one
gain per track, so that exactly one track of each channel is audible. A
self-re-arming metronome on a Web Audio scheduler re-applies the listener's
current track selection at every bar boundary. It then queues the bar's
TIME_SLICE ticks, each drawing one arc of the beat ring, and queues the
metronome callback again one bar later. A play button starts everything on
the first press, and after that suspends or resumes the audio context.

This project models that core:

- `timing.dfy` (module `Timing`) holds the constants (160 bpm, 32 slices per
  bar, channel gain 0.5) and the seconds-per-slice formula of
  `startMetronome`, `60 / (bpm * log2(timeSlice / 2))`. It is proved to be
  exactly 60/640 s, so one bar lasts 3 s.
- `schedule.dfy` (module `Schedule`) holds the events one `metronome` call
  inserts, and the chain of bars that appears when each bar's re-arm time
  becomes the next bar's `t0`. The scheduler's queue is a class whose
  `insert` and `start` append to it.
- `tracks.dfy` (module `Tracks`) holds one channel: its gain and
  started-flag arrays, and the in-place loops of `muteAllTracks`,
  `resetTracks` and `startTracks`.
- `ring.dfy` (module `Ring`) holds the arc `tick` draws for a beat. Angles are
  measured in fractions of a turn.
- `player.dfy` (module `Player`) holds the component as a class:
  - its three channels, master gain, `spb`, scheduler, and the parent's
    `started` and `playing` flags;
  - `metronome`, `startMetronome`, `stopMetronome`, `setMasterGain`,
    `resetTracks`, `startTracks` and `handlePlayToggle`.

  An invariant ties the component's state together once the metronome is
  started:
  - the queue holds the start event followed by the chain of bars, one bar
    per selection applied;
  - each bar's selection was already the mix of all three channels when
    exactly the events before that bar had been queued;
  - the mix is that of the latest selection.

  The two entry points the host calls, `handlePlayToggle` and `metronome`
  (when a queued metronome event fires), keep this invariant.
  `setMasterGain` and `stopMetronome` keep it because they change only the
  master gain. `startMetronome`, `resetTracks` and `startTracks` are proved
  only as steps of those entry points: called on their own they need not
  keep it, since a second `startMetronome` queues a second pending re-arm.

The code has no pending-selection buffer, no epoch counter and no
out-of-range error. Its stop does not cancel scheduled events:
`stopMetronome` only sets the master gain to 0, because the scheduler stop
is commented out (`components/app.jsx:300`). The selection read at each bar
is simply the current `selectedTracks`, given as a parameter.

## Model

| member | source | states |
|---|---|---|
| Timing.SliceMultiplier | components/app.jsx:289-290 | for every declared subdivision (4, 8, 16, 32), `log2(timeSlice/2)` is a whole number between 1 and 4, and `timeSlice` is the power of two just above `2^log2(timeSlice/2)` |
| Timing.SecondsPerSlice | components/app.jsx:289-291 | the slice length is positive, and slice length × bpm × `log2(timeSlice/2)` is exactly 60 seconds |
| Timing.FixedSecondsPerSlice | components/app.jsx:24-25 | with 160 bpm and 32 slices a slice lasts exactly 60/640 s, and a bar of 32 slices lasts 3 s |
| Timing.FourSliceSecondsPerSlice | components/app.jsx:17-22 | a documented scenario, not a setting the player uses: with the declared but unused FOUR subdivision, a slice would last 0.375 s and a bar 1.5 s |
| Schedule.BarEvents | components/app.jsx:229-236 | one `metronome` call inserts TIME_SLICE + 1 events |
| Schedule.BarShape | components/app.jsx:229-236 | the first TIME_SLICE events are ticks with beats 0, 1, …, TIME_SLICE−1 in order; the last is the re-arm, and it is the only re-arm |
| Schedule.BarTimes | components/app.jsx:230-234 | with `spb > 0`, event `i` is at `t0 + spb*i`, times strictly increase, and the re-arm is at `t0 + spb*TIME_SLICE`, after every tick |
| Schedule.Bars | components/app.jsx:229-236 | `n` chained bars hold exactly `n*(TIME_SLICE+1)` events |
| Schedule.BarsSnoc | components/app.jsx:232 | the chain of `n` bars is the chain of `n−1` bars followed by the bar that starts where bar `n−1` starts |
| Schedule.BarStartNext | components/app.jsx:232 | each bar starts exactly one bar length (`spb*TIME_SLICE`) after the bar before it |
| Schedule.BarStartTime | components/app.jsx:224-232 | bar `b` starts at `t0 + spb*b*TIME_SLICE`: re-arming neither drifts nor skips |
| Schedule.LastRearm | components/app.jsx:232 | the last event of a nonempty chain of `n` bars is a re-arm at `t0 + spb*n*TIME_SLICE`, the start of the next bar |
| Schedule.ChainedTicks | components/app.jsx:224-236 | the ticks of `n` chained bars are exactly the ideal train: tick `j` at `t0 + spb*j` with beat `j mod TIME_SLICE`, for `j < n*TIME_SLICE`, so bars neither leave gaps nor overlap |
| Schedule.ChainedTicksIncrease | components/app.jsx:230-234 | with `spb > 0`, the ticks of a chain strictly increase in time |
| Schedule.Scheduler.Insert | components/app.jsx:232-234 | `sched.insert` appends its event to the queue, and the queue is otherwise unchanged |
| Schedule.Scheduler.Start | components/app.jsx:295 | `sched.start(metronome)` queues the metronome callback at the current clock time |
| Tracks.MutedSilences | components/app.jsx:329-335 | muting keeps the number of tracks, sets every gain to 0 so no track is audible, and is idempotent |
| Tracks.SelectedIsExclusive | components/app.jsx:308-316 | after a selection of track `k`: track `k` is at 0.5 and every other track is at 0, exactly one track is audible, re-selecting changes nothing, and the latest selection wins over any earlier one |
| Tracks.StartedSelectsFirst | components/app.jsx:273-285 | starting a channel gives the mix that selecting track 0 gives, with exactly one audible track; an empty channel stays empty |
| Tracks.Channel.MuteAllTracks | components/app.jsx:329-335 | the loop sets the channel's gains, in place, to the muted gains of the old ones |
| Tracks.Channel.ResetTracks | components/app.jsx:310-314 | one channel's step of `resetTracks`: the gains become the selection of `trackIdx` |
| Tracks.Channel.StartTracks | components/app.jsx:274-283 | one channel's loop of `startTracks`: track 0 at 0.5, the others at 0, and every source is marked started |
| Ring.TickArc | components/app.jsx:240-247 | beat `b`'s arc starts at `b/TIME_SLICE` of a turn and is `1/TIME_SLICE` long; for a beat of the bar the arc lies within one turn; the ring is cleared exactly when `b == TIME_SLICE−1` |
| Ring.BeatAt | components/app.jsx:239-249 | every point of the ring lies on the arc of some beat below TIME_SLICE |
| Ring.ArcsTileTheRing | components/app.jsx:240-241 | each arc is 1/TIME_SLICE of a turn and lies within one turn; consecutive arcs abut, and the last arc ends the turn |
| Ring.ArcsDisjoint | components/app.jsx:240-241 | a point of the ring lies on the arc of one beat only |
| Ring.RestartOncePerBar | components/app.jsx:243-247 | among the events of one bar, exactly one tick clears the ring: the last tick (beat TIME_SLICE−1) |
| Player.App.SetMasterGain | components/app.jsx:304-306 | the master gain becomes the given gain, and nothing else changes |
| Player.App.StopMetronome | components/app.jsx:299-302 | only the master gain changes, to 0; the scheduler's queue is untouched |
| Player.App.StartMetronome | components/app.jsx:287-296 | the master gain becomes 0.5; `spb` becomes the tempo formula, which is 60/640; the metronome callback is appended to the queue at `now` |
| Player.App.ResetTracks | components/app.jsx:308-316 | every channel's gains become the selection of that channel's selected track |
| Player.App.StartTracks | components/app.jsx:273-285 | every channel plays its track 0 alone, and every source of every channel is started |
| Player.App.Metronome | components/app.jsx:223-237 | keeps the invariant; the mix becomes the selection's, and it is recorded as already the mix while the queue still had its old length, that is, before any event of the bar was queued; exactly the bar starting at the fired event's time is then appended to the queue, which extends the chain by one bar |
| Player.App.ScheduleBar | components/app.jsx:229-236 | the loop appends exactly the bar's events, in order, and nothing else |
| Player.ChainGrows | components/app.jsx:223-236 | the last queued event is the re-arm at the next bar's start. Queuing the bar that starts at its time extends the chain by exactly one bar, provided the selection was recorded as the mix at the current queue length. Every bar's selection stays recorded as the mix at the position where that bar begins |
| Player.App.QueuedTicks | components/app.jsx:223-237 | while running, the queued ticks are the ideal train from the start time, one bar per applied selection, strictly increasing in time |
| Player.QueueTicks | components/app.jsx:229-236 | the ticks of a queue holding a start event and `n` chained bars are the ideal train of `n*TIME_SLICE` ticks, strictly increasing in time |
| Player.App.FirstToggleValid | components/app.jsx:256-259 | starting tracks and metronome from the idle state yields a running state with no bar queued and the mix of `startTracks` |
| Player.App.HandlePlayToggle | components/app.jsx:251-271 | keeps the invariant and always leaves the player started with `playing` flipped. The first press starts tracks and metronome (master gain 0.5, `spb` 60/640, queue holding only the start event, mix of track 0 per channel). A later press while playing records a suspend; while paused, a resume. Either later press leaves gains, queue, `spb` and master gain unchanged |

## Left out

- React rendering, the canvas and `drawAtRad`: the ring is modelled as arcs measured in fractions of a turn. The −π/2 offset and stroke colours are not modelled.
- Building the Web Audio graph and loading stems (`createtrack`, `createAudioPipeline`, `makeChannelFromBuffers`, the buffer loader, `setChannelsLoaded`): this is I/O. The component's constructor takes the number of loaded tracks per channel instead.
- The scheduler library's timed firing and the audio context's clock: the clock time is a parameter (`now`, the fired event), and `Player.App.Metronome` requires the fired event to be the last queued one.
- `suspend` and `resume` on the audio context are only recorded as calls: their effect on the host clock is outside the model.
- Floating-point `Math.log2`, `Math.PI` and float `spb`: exact reals are used. The model's `Log2` rounds down, and it equals `Math.log2` on the powers of two the player uses.
- Per-channel gain set from the `Channel` child component (`setChannelGain`): that component is not part of this model.
- Tracks.Channel.ResetTracks: a selected index that names no track is a precondition. In the source, `tracks[trackIdx].setGain` then throws a TypeError after that channel has already been muted.
- Player.App.ResetTracks: the same precondition, for all three channels, for the same reason.
- Player.App.HandlePlayToggle: the host's InvalidStateError on starting a buffer source twice is not modelled. The invariant shows sources are started only while the player is idle, which happens once.
- Player.App.Metronome: `props.selectedTracks` is read as a parameter `sel`, not from the parent's state.
- Player.App.Metronome: a selection index that names no track is excluded by the precondition. In the source, the TypeError at `components/app.jsx:313` escapes `metronome` before the loop at line 229. No bar and no re-arm is queued, so the metronome stops for good, and the channels muted so far stay muted.
