/** The tracks of one channel (beat, acapella or melody): each track's gain and
    whether its looping source has been started, and the gain operations
    `muteAllTracks`, `resetTracks` (for one channel) and `startTracks` (for one
    channel) apply to them in place. */
module Tracks {
  import opened Timing

  /** Every gain of `g` set to 0, in place: same length, same order. */
  function Muted(g: seq<real>): (r: seq<real>)
  {
    seq(|g|, _ => 0.0)
  }

  /** The gains after muting every track and then raising track `k` to
      DEFAULT_CHANNEL_GAIN. */
  function Selected(g: seq<real>, k: nat): (r: seq<real>)
    requires k < |g|
  {
    Muted(g)[k := DEFAULT_CHANNEL_GAIN]
  }

  /** The gains `startTracks` leaves: track 0 at DEFAULT_CHANNEL_GAIN, every other
      track at 0. */
  function Started(g: seq<real>): (r: seq<real>)
  {
    seq(|g|, i => if i == 0 then DEFAULT_CHANNEL_GAIN else 0.0)
  }

  /** Number of tracks that can be heard (gain above 0). */
  function AudibleCount(g: seq<real>): (count: nat)
  {
    if g == [] then 0
    else AudibleCount(g[..|g| - 1]) + (if g[|g| - 1] > 0.0 then 1 else 0)
  }

  /** Muting keeps the number and order of tracks, silences all of them, and a
      second mute changes nothing. */
  lemma MutedSilences(g: seq<real>)
    ensures |Muted(g)| == |g|
    ensures forall i :: 0 <= i < |g| ==> Muted(g)[i] == 0.0
    ensures Muted(Muted(g)) == Muted(g)
    ensures AudibleCount(Muted(g)) == 0
  {
    SilentCount(Muted(g));
  }

  /** A channel in which no gain is positive has no audible track. */
  lemma {:induction false} SilentCount(g: seq<real>)
    requires forall i :: 0 <= i < |g| ==> g[i] <= 0.0
    ensures AudibleCount(g) == 0
  {
    if g != [] {
      SilentCount(g[..|g| - 1]);
    }
  }

  /** A channel whose only positive gain is at `k` has exactly one audible track. */
  lemma {:induction false} ExclusiveCount(g: seq<real>, k: nat)
    requires k < |g|
    requires forall i :: 0 <= i < |g| ==> (g[i] > 0.0 <==> i == k)
    ensures AudibleCount(g) == 1
  {
    var front := g[..|g| - 1];
    if k == |g| - 1 {
      SilentCount(front);
    } else {
      ExclusiveCount(front, k);
    }
  }

  /** After a selection of track `k`, track `k` plays at DEFAULT_CHANNEL_GAIN and is
      the one audible track; every other track is at 0. The result depends only on
      the number of tracks, so re-selecting is idempotent and the latest selection
      wins. */
  lemma SelectedIsExclusive(g: seq<real>, k: nat)
    requires k < |g|
    ensures |Selected(g, k)| == |g|
    ensures Selected(g, k)[k] == DEFAULT_CHANNEL_GAIN
    ensures forall i :: 0 <= i < |g| && i != k ==> Selected(g, k)[i] == 0.0
    ensures AudibleCount(Selected(g, k)) == 1
    ensures Selected(Selected(g, k), k) == Selected(g, k)
    ensures forall j :: 0 <= j < |g| ==> Selected(Selected(g, j), k) == Selected(g, k)
  {
    ExclusiveCount(Selected(g, k), k);
  }

  /** Starting a channel leaves it as selecting track 0 would; an empty channel
      stays empty. */
  lemma StartedSelectsFirst(g: seq<real>)
    ensures |g| > 0 ==> Started(g) == Selected(g, 0) && AudibleCount(Started(g)) == 1
    ensures |g| == 0 ==> Started(g) == []
  {
    if |g| > 0 {
      SelectedIsExclusive(g, 0);
    }
  }

  /** The tracks of a channel: one gain node and one buffer source per track. */
  class Channel {
    var gains: array<real>
    var started: array<bool>

    ghost predicate Valid()
      reads this
    {
      gains.Length == started.Length
    }

    /** A channel of `n` loaded tracks: a fresh gain node has gain 1 and no source
        has been started. */
    constructor (n: nat)
      ensures Valid() && fresh(gains) && fresh(started)
      ensures gains[..] == seq(n, _ => 1.0)
      ensures started[..] == seq(n, _ => false)
    {
      gains := new real[n](_ => 1.0);
      started := new bool[n](_ => false);
    }

    /** `muteAllTracks(tracks)`: every track's gain to 0. */
    method MuteAllTracks()
      modifies gains
      ensures gains[..] == Muted(old(gains[..]))
    {
      var i := 0;
      while i < gains.Length
        invariant 0 <= i <= gains.Length
        invariant forall j :: 0 <= j < i ==> gains[j] == 0.0
        invariant forall j :: i <= j < gains.Length ==> gains[j] == old(gains[j])
      {
        gains[i] := 0.0;
        i := i + 1;
      }
    }

    /** The loop body of `resetTracks` for this channel: mute every track, then
        raise the selected one. The index must name a track: `tracks[trackIdx]`
        of a missing track has no `setGain`. */
    method ResetTracks(trackIdx: int)
      requires 0 <= trackIdx < gains.Length
      modifies gains
      ensures gains[..] == Selected(old(gains[..]), trackIdx)
    {
      MuteAllTracks();
      gains[trackIdx] := DEFAULT_CHANNEL_GAIN;
    }

    /** The loop body of `startTracks` for this channel: track 0 to
        DEFAULT_CHANNEL_GAIN, every other track to 0, and every source started. */
    method StartTracks()
      requires Valid()
      modifies gains, started
      ensures gains[..] == Started(old(gains[..]))
      ensures started[..] == seq(started.Length, _ => true)
    {
      var idx := 0;
      while idx < gains.Length
        invariant 0 <= idx <= gains.Length
        invariant forall j :: 0 <= j < idx ==> gains[j] == (if j == 0 then DEFAULT_CHANNEL_GAIN else 0.0)
        invariant forall j :: 0 <= j < idx ==> started[j]
      {
        if idx == 0 {
          gains[idx] := DEFAULT_CHANNEL_GAIN;
        } else {
          gains[idx] := 0.0;
        }
        started[idx] := true;
        idx := idx + 1;
      }
    }
  }
}
