/**
 * The UI-visible playback data shared by the player widgets: the play/pause
 * intent, the timeline (position as a fraction of the duration), the volume
 * and the mute flag. All of it is plain value data; `f64` fields are modelled
 * as `real`.
 */
module PipelineModel {

  /** The user's play/pause intent. */
  datatype PipelineState = Play | Pause

  /**
   * A timeline position: `frac` is the position as a fraction of `duration`,
   * and `duration` is the media length in nanoseconds (0 when not yet known).
   */
  datatype Timeline = Timeline(frac: real, duration: real)

  /** Everything the player widgets display and edit. */
  datatype PipelineData = PipelineData(
    state: PipelineState,
    timeline: Timeline,
    volume: real,
    muted: bool)

  /** `Timeline::new`: the position and the duration both start at zero. */
  function NewTimeline(): (t: Timeline)
    ensures t.frac == 0.0 && t.duration == 0.0
  {
    Timeline(0.0, 0.0)
  }

  /** `Timeline::default` delegates to `Timeline::new`. */
  function DefaultTimeline(): (t: Timeline)
    ensures t.frac == 0.0 && t.duration == 0.0
  {
    NewTimeline()
  }

  /** `PipelineData::new`: paused, at the start, full volume, not muted. */
  function NewPipelineData(): (d: PipelineData)
    ensures d.state == Pause
    ensures d.timeline.frac == 0.0 && d.timeline.duration == 0.0
    ensures d.volume == 1.0 && !d.muted
  {
    PipelineData(Pause, NewTimeline(), 1.0, false)
  }

  /** `PipelineData::default` delegates to `PipelineData::new`. */
  function DefaultPipelineData(): (d: PipelineData)
    ensures d.state == Pause
    ensures d.timeline.frac == 0.0 && d.timeline.duration == 0.0
    ensures d.volume == 1.0 && !d.muted
  {
    NewPipelineData()
  }

  /** `Data::same` for `PipelineState`: two intents are the same iff they are the same variant. */
  predicate SameState(a: PipelineState, b: PipelineState)
    ensures SameState(a, b) <==> (a.Play? && b.Play?) || (a.Pause? && b.Pause?)
  {
    a == b
  }

  /**
   * `Data::same` for `Timeline`: exact comparison of both fields, with no
   * tolerance, so any change of position or duration counts as a change.
   */
  predicate SameTimeline(a: Timeline, b: Timeline)
    ensures SameTimeline(a, b) <==> a.frac == b.frac && a.duration == b.duration
  {
    a == b
  }

  /** Both `same` relations are equivalences (they are structural equality). */
  lemma SameIsEquivalence(s: PipelineState, s': PipelineState, s'': PipelineState,
                          t: Timeline, t': Timeline, t'': Timeline)
    ensures SameState(s, s) && SameTimeline(t, t)
    ensures SameState(s, s') == SameState(s', s) && SameTimeline(t, t') == SameTimeline(t', t)
    ensures SameState(s, s') && SameState(s', s'') ==> SameState(s, s'')
    ensures SameTimeline(t, t') && SameTimeline(t', t'') ==> SameTimeline(t, t'')
    ensures SameState(s, s') <==> s == s'
    ensures SameTimeline(t, t') <==> t == t'
  {
  }
}
