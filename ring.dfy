/** The beat ring: `tick` turns the beat of a fired tick into an arc of the ring,
    measured here in fractions of a full turn (the source multiplies by 2π). */
module Ring {
  import opened Timing
  import opened Schedule

  /** An arc to draw: where it starts, how long it is, and whether the ring is
      cleared first. */
  datatype Arc = Arc(start: real, length: real, restart: bool)

  /** `tick({args: {beat}})`: arc `beat` of TIME_SLICE equal arcs; the ring is
      cleared when the last slice of the bar is drawn. */
  function TickArc(beat: nat): (arc: Arc)
    ensures arc.start * (TIME_SLICE as real) == beat as real
    ensures arc.length * (TIME_SLICE as real) == 1.0
    ensures beat < TIME_SLICE ==> 0.0 <= arc.start && arc.start + arc.length <= 1.0
    ensures arc.restart <==> beat == TIME_SLICE - 1
  {
    Arc((beat as real) / (TIME_SLICE as real), 1.0 / (TIME_SLICE as real), beat == TIME_SLICE - 1)
  }

  /** The beat whose arc covers the point `x` of the ring (a fraction of a turn). */
  function BeatAt(x: real): (beat: nat)
    requires 0.0 <= x < 1.0
    ensures beat < TIME_SLICE
    ensures TickArc(beat).start <= x < TickArc(beat).start + TickArc(beat).length
  {
    var y := x * (TIME_SLICE as real);
    var b := y.Floor;
    assert (b as real) <= y < (b as real) + 1.0;
    b
  }

  /** Every arc of a bar lies on one turn of the ring and has length
      1/TIME_SLICE of it; consecutive arcs abut, and the last one ends the turn. */
  lemma ArcsTileTheRing(beat: nat)
    requires beat < TIME_SLICE
    ensures var arc := TickArc(beat);
      0.0 <= arc.start && arc.start + arc.length <= 1.0 &&
      arc.length * (TIME_SLICE as real) == 1.0 &&
      (beat + 1 < TIME_SLICE ==> arc.start + arc.length == TickArc(beat + 1).start) &&
      (beat + 1 == TIME_SLICE ==> arc.start + arc.length == 1.0)
  {
    var n := TIME_SLICE as real;
    assert (beat as real) + 1.0 <= n;
    assert (beat as real) / n + 1.0 / n == ((beat as real) + 1.0) / n;
  }

  /** Arcs of different beats of a bar do not overlap: a point of the ring is
      covered by one beat only, the one `BeatAt` names. */
  lemma ArcsDisjoint(beat: nat, x: real)
    requires beat < TIME_SLICE && 0.0 <= x < 1.0
    requires TickArc(beat).start <= x < TickArc(beat).start + TickArc(beat).length
    ensures beat == BeatAt(x)
  {
    var n := TIME_SLICE as real;
    var b := BeatAt(x);
    assert (beat as real) <= x * n < (beat as real) + 1.0 by {
      assert TickArc(beat).start * n == beat as real;
      assert (TickArc(beat).start + TickArc(beat).length) * n == (beat as real) + 1.0;
    }
    assert (b as real) <= x * n < (b as real) + 1.0 by {
      assert TickArc(b).start * n == b as real;
      assert (TickArc(b).start + TickArc(b).length) * n == (b as real) + 1.0;
    }
  }

  /** Over the ticks of one bar, exactly one asks for the ring to be cleared: the
      last tick, the one just before the re-arm. */
  lemma RestartOncePerBar(t0: real, spb: real)
    ensures var bar := BarEvents(t0, spb);
      forall i :: 0 <= i < |bar| ==>
        (bar[i].kind.Tick? && TickArc(bar[i].kind.beat).restart <==> i == TIME_SLICE - 1)
  {
  }
}
