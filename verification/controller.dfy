/**
 * The playback reconciler: the `Controller` widget that keeps a media
 * pipeline in step with the UI-visible `PipelineData`.
 *
 * The pipeline is modelled as a log of the commands sent to it (`Cmd`); its
 * position and duration queries are parameters (`Option<U64>` nanoseconds).
 * The controller's own state is the shadow timeline `updatedTime` (the last
 * timeline it wrote to or read from the pipeline) and the token of the timer
 * it is waiting for. Timer deadlines are not modelled: requesting a timer
 * hands out the next token of a counter.
 */
module ControllerModel {
  import opened Wrappers
  import opened PipelineModel

  /** 2^64: nanosecond clock values are `u64`. */
  const U64_LIMIT: int := 0x1_0000_0000_0000_0000

  type U64 = n: int | 0 <= n < U64_LIMIT

  /** The pipeline states the controller asks for. */
  datatype GstState = Playing | Paused

  /** A command sent to the pipeline (every call is assumed to succeed). */
  datatype Cmd =
    | SetState(target: GstState)
    | Seek(position: U64)   // a flushing seek to an absolute position in nanoseconds
    | SetVolume(volume: real)
    | SetMute(muted: bool)

  /** UI events the controller reacts to; every other event is `OtherEvent`. */
  datatype Event = Timer(token: nat) | MouseDown | OtherEvent

  /** `TimerToken::INVALID`: the token held before any timer was requested. */
  const INVALID_TOKEN: nat := 0

  // ---------------------------------------------------------------------------
  // Time conversions
  // ---------------------------------------------------------------------------

  /**
   * `time as u64` for a non-NaN float: truncation toward zero, saturating at
   * 0 below and at `u64::MAX` above.
   */
  function ToNanos(t: real): (n: U64)
    ensures 0.0 <= t < U64_LIMIT as real ==> n as real <= t < n as real + 1.0
    ensures t <= 0.0 ==> n == 0
    ensures t >= U64_LIMIT as real ==> n == U64_LIMIT - 1
  {
    if t <= 0.0 then 0
    else if t >= (U64_LIMIT - 1) as real then U64_LIMIT - 1
    else t.Floor
  }

  /** A whole number of nanoseconds converts back to itself. */
  lemma ToNanosOfWhole(n: U64)
    ensures ToNanos(n as real) == n
  {
  }

  /**
   * `get_timeline`: builds a timeline from the pipeline's position and
   * duration queries. A missing position reads as 0; a missing or zero
   * duration reads as 1, so the duration is always positive and the division
   * is defined. The fraction times the duration gives back the position.
   */
  function GetTimeline(pos: Option<U64>, dur: Option<U64>): (t: Timeline)
    ensures t.duration >= 1.0
    ensures dur.Some? && dur.value > 0 ==> t.duration == dur.value as real
    ensures dur.None? || dur.value == 0 ==> t.duration == 1.0
    ensures t.frac * t.duration == pos.GetOr(0) as real
    ensures pos.None? ==> t.frac == 0.0
  {
    var p := pos.GetOr(0) as real;
    var d := dur.GetOr(1) as real;
    var duration := if d == 0.0 then 1.0 else d;
    Timeline(p / duration, duration)
  }

  /** A polled position that does not exceed the polled duration gives a fraction in [0, 1]. */
  lemma PolledFractionInUnitRange(pos: U64, dur: U64)
    requires 0 < dur && pos <= dur
    ensures 0.0 <= GetTimeline(Some(pos), Some(dur)).frac <= 1.0
  {
    var t := GetTimeline(Some(pos), Some(dur));
    FractionBounds(t.frac, t.duration, pos as real);
  }

  /** A factor that scales a positive `d` to some `p` in [0, d] lies in [0, 1]. */
  lemma FractionBounds(f: real, d: real, p: real)
    requires d > 0.0 && f * d == p && 0.0 <= p <= d
    ensures 0.0 <= f <= 1.0
  {
    assert (1.0 - f) * d == d - p;
  }

  /**
   * The absolute seek position for a timeline: `frac * duration`, truncated
   * to whole nanoseconds and clamped to the `u64` range.
   */
  function SeekTarget(t: Timeline): (n: U64)
    ensures var time := t.frac * t.duration;
      (0.0 <= time < U64_LIMIT as real ==> n as real <= time < n as real + 1.0) &&
      (time <= 0.0 ==> n == 0) &&
      (time >= U64_LIMIT as real ==> n == U64_LIMIT - 1)
  {
    ToNanos(t.frac * t.duration)
  }

  /**
   * Seeking to a polled timeline lands exactly on the polled position: the
   * timeline built by `GetTimeline` and the seek target are inverses.
   */
  lemma PolledTimelineSeeksToPosition(pos: Option<U64>, dur: Option<U64>)
    ensures SeekTarget(GetTimeline(pos, dur)) == pos.GetOr(0)
  {
    var t := GetTimeline(pos, dur);
    assert t.frac * t.duration == pos.GetOr(0) as real;
    ToNanosOfWhole(pos.GetOr(0));
  }

  // ---------------------------------------------------------------------------
  // Selecting the commands of one kind from a log
  // ---------------------------------------------------------------------------

  /** The payload `f` picks out of one command, as a sequence of length 0 or 1. */
  function Pick<T>(f: Cmd -> Option<T>, c: Cmd): (r: seq<T>)
    ensures |r| <= 1
  {
    match f(c)
    case Some(x) => [x]
    case None => []
  }

  /** The payloads `f` picks out of `cmds`, in order. */
  function Select<T>(cmds: seq<Cmd>, f: Cmd -> Option<T>): (r: seq<T>)
    ensures |r| <= |cmds|
  {
    if cmds == [] then [] else Pick(f, cmds[0]) + Select(cmds[1..], f)
  }

  /** Selecting from a one-command log picks that command's payload. */
  lemma SelectOne<T>(c: Cmd, f: Cmd -> Option<T>)
    ensures Select([c], f) == Pick(f, c)
  {
    assert [c][1..] == [];
  }

  /** Selecting from a log of at most one command. */
  lemma SelectShort<T>(p: seq<Cmd>, f: Cmd -> Option<T>)
    requires |p| <= 1
    ensures Select(p, f) == if p == [] then [] else Pick(f, p[0])
  {
    if p != [] {
      assert p == [p[0]];
      SelectOne(p[0], f);
    }
  }

  /** Selecting distributes over concatenation of logs. */
  lemma {:induction false} SelectAppend<T>(a: seq<Cmd>, b: seq<Cmd>, f: Cmd -> Option<T>)
    ensures Select(a + b, f) == Select(a, f) + Select(b, f)
  {
    if a != [] {
      assert (a + b)[0] == a[0] && (a + b)[1..] == a[1..] + b;
      SelectAppend(a[1..], b, f);
      calc {
        Select(a + b, f);
        Pick(f, a[0]) + Select(a[1..] + b, f);
        Pick(f, a[0]) + (Select(a[1..], f) + Select(b, f));
        (Pick(f, a[0]) + Select(a[1..], f)) + Select(b, f);
      }
    } else {
      assert a + b == b;
    }
  }

  function AsStateChange(c: Cmd): Option<GstState> { if c.SetState? then Some(c.target) else None }
  function AsSeek(c: Cmd): Option<U64> { if c.Seek? then Some(c.position) else None }
  function AsVolume(c: Cmd): Option<real> { if c.SetVolume? then Some(c.volume) else None }
  function AsMute(c: Cmd): Option<bool> { if c.SetMute? then Some(c.muted) else None }

  /** The state changes in a command log, in order. */
  function StateChanges(cmds: seq<Cmd>): seq<GstState> { Select(cmds, AsStateChange) }
  /** The seek positions in a command log, in order. */
  function Seeks(cmds: seq<Cmd>): seq<U64> { Select(cmds, AsSeek) }
  /** The volume pushes in a command log, in order. */
  function VolumePushes(cmds: seq<Cmd>): seq<real> { Select(cmds, AsVolume) }
  /** The mute pushes in a command log, in order. */
  function MutePushes(cmds: seq<Cmd>): seq<bool> { Select(cmds, AsMute) }

  /** The position of a command kind in the order `update` issues them. */
  function Rank(c: Cmd): nat
  {
    match c
    case SetState(_) => 0
    case Seek(_) => 1
    case SetVolume(_) => 2
    case SetMute(_) => 3
  }

  // ---------------------------------------------------------------------------
  // The reconciler: which commands one `update(old, new)` issues
  // ---------------------------------------------------------------------------

  /** Pause→Play asks for Playing, Play→Pause asks for Paused, no change asks nothing. */
  function StateCmds(before: PipelineState, after: PipelineState): seq<Cmd>
  {
    match (before, after)
    case (Pause, Play) => [SetState(Playing)]
    case (Play, Pause) => [SetState(Paused)]
    case _ => []
  }

  /** A seek to the new timeline, unless it is the one the pipeline is already expected at. */
  function SeekCmds(shadow: Timeline, timeline: Timeline): seq<Cmd>
  {
    if shadow != timeline then [Seek(SeekTarget(timeline))] else []
  }

  /** A volume push when the volume changed. */
  function VolumeCmds(before: real, after: real): seq<Cmd>
  {
    if before != after then [SetVolume(after)] else []
  }

  /** A mute push when the mute flag changed. */
  function MuteCmds(before: bool, after: bool): seq<Cmd>
  {
    if before != after then [SetMute(after)] else []
  }

  /**
   * The commands `update(oldData, data)` sends when the controller's shadow
   * timeline is `shadow`: state change, seek, volume, mute, in that order.
   */
  function Reconcile(oldData: PipelineData, data: PipelineData, shadow: Timeline): (cmds: seq<Cmd>)
    ensures |cmds| <= 4
    ensures cmds == [] <==> oldData.state == data.state && shadow == data.timeline &&
                            oldData.volume == data.volume && oldData.muted == data.muted
  {
    StateCmds(oldData.state, data.state)
    + SeekCmds(shadow, data.timeline)
    + VolumeCmds(oldData.volume, data.volume)
    + MuteCmds(oldData.muted, data.muted)
  }

  /** The payload of a part of a reconcile, which holds at most one command. */
  function PickPart<T>(part: seq<Cmd>, f: Cmd -> Option<T>): seq<T>
  {
    if part == [] then [] else Pick(f, part[0])
  }

  /** Splits the selection over the four parts of a reconcile. */
  lemma SelectReconcile<T>(oldData: PipelineData, data: PipelineData, shadow: Timeline, f: Cmd -> Option<T>)
    ensures Select(Reconcile(oldData, data, shadow), f)
         == PickPart(StateCmds(oldData.state, data.state), f)
          + PickPart(SeekCmds(shadow, data.timeline), f)
          + PickPart(VolumeCmds(oldData.volume, data.volume), f)
          + PickPart(MuteCmds(oldData.muted, data.muted), f)
  {
    var s := StateCmds(oldData.state, data.state);
    var k := SeekCmds(shadow, data.timeline);
    var v := VolumeCmds(oldData.volume, data.volume);
    var m := MuteCmds(oldData.muted, data.muted);
    SelectAppend(s, k, f);
    SelectAppend(s + k, v, f);
    SelectAppend(s + k + v, m, f);
    SelectShort(s, f);
    SelectShort(k, f);
    SelectShort(v, f);
    SelectShort(m, f);
  }

  /**
   * Exactly one state change per Play/Pause flip, in the direction of the
   * flip, and none when the intent is unchanged.
   */
  lemma ReconcileStateChanges(oldData: PipelineData, data: PipelineData, shadow: Timeline)
    ensures StateChanges(Reconcile(oldData, data, shadow))
         == if oldData.state == data.state then []
            else if data.state == Play then [Playing]
            else [Paused]
  {
    SelectReconcile(oldData, data, shadow, AsStateChange);
    assert PickPart(SeekCmds(shadow, data.timeline), AsStateChange) == [];
    assert PickPart(VolumeCmds(oldData.volume, data.volume), AsStateChange) == [];
    assert PickPart(MuteCmds(oldData.muted, data.muted), AsStateChange) == [];
  }

  /**
   * A seek is issued iff the new timeline differs from the shadow, and then
   * exactly one, to `frac * duration` of the new timeline.
   */
  lemma ReconcileSeeks(oldData: PipelineData, data: PipelineData, shadow: Timeline)
    ensures Seeks(Reconcile(oldData, data, shadow))
         == if shadow != data.timeline then [SeekTarget(data.timeline)] else []
  {
    SelectReconcile(oldData, data, shadow, AsSeek);
    assert PickPart(StateCmds(oldData.state, data.state), AsSeek) == [];
    assert PickPart(SeekCmds(shadow, data.timeline), AsSeek)
        == if shadow != data.timeline then [SeekTarget(data.timeline)] else [];
    assert PickPart(VolumeCmds(oldData.volume, data.volume), AsSeek) == [];
    assert PickPart(MuteCmds(oldData.muted, data.muted), AsSeek) == [];
  }

  /** The volume is pushed iff it changed, once, with the new value. */
  lemma ReconcileVolume(oldData: PipelineData, data: PipelineData, shadow: Timeline)
    ensures VolumePushes(Reconcile(oldData, data, shadow))
         == if oldData.volume != data.volume then [data.volume] else []
  {
    SelectReconcile(oldData, data, shadow, AsVolume);
  }

  /** The mute flag is pushed iff it changed, once, with the new value. */
  lemma ReconcileMute(oldData: PipelineData, data: PipelineData, shadow: Timeline)
    ensures MutePushes(Reconcile(oldData, data, shadow))
         == if oldData.muted != data.muted then [data.muted] else []
  {
    SelectReconcile(oldData, data, shadow, AsMute);
  }

  /** Commands come out in the order state, seek, volume, mute, at most one of each kind. */
  lemma ReconcileOrder(oldData: PipelineData, data: PipelineData, shadow: Timeline)
    ensures var cmds := Reconcile(oldData, data, shadow);
      |cmds| <= 4 &&
      forall i, j :: 0 <= i < j < |cmds| ==> Rank(cmds[i]) < Rank(cmds[j])
  {
    var s := StateCmds(oldData.state, data.state);
    var k := SeekCmds(shadow, data.timeline);
    var v := VolumeCmds(oldData.volume, data.volume);
    var m := MuteCmds(oldData.muted, data.muted);
    var cmds := s + k + v + m;
    assert cmds == Reconcile(oldData, data, shadow);
    forall i | 0 <= i < |cmds|
      ensures Rank(cmds[i]) == if i < |s| then 0
                               else if i < |s| + |k| then 1
                               else if i < |s| + |k| + |v| then 2
                               else 3
    {
    }
  }

  /**
   * Idempotence: once `update` has synchronised the shadow to `data.timeline`,
   * a second `update` with the same data issues no seek, and nothing at all
   * when nothing else changed either.
   */
  lemma ReconcileTwiceNoSeek(first: PipelineData, data: PipelineData)
    ensures Seeks(Reconcile(first, data, data.timeline)) == []
    ensures Reconcile(data, data, data.timeline) == []
  {
    ReconcileSeeks(first, data, data.timeline);
  }

  /** The initial data's timeline is the controller's initial shadow, so the first `update` issues no seek. */
  lemma FirstUpdateNoSeek(data: PipelineData)
    requires data.timeline == NewPipelineData().timeline
    ensures Seeks(Reconcile(NewPipelineData(), data, NewTimeline())) == []
  {
    ReconcileSeeks(NewPipelineData(), data, NewTimeline());
  }

  /** Changing the volume alone triggers exactly one command: the volume push. */
  lemma VolumeOnlyChange(data: PipelineData, v: real)
    requires v != data.volume
    ensures Reconcile(data, data.(volume := v), data.timeline) == [SetVolume(v)]
  {
  }

  /**
   * Dragging the position slider (a new `frac`, same duration) issues exactly
   * one command: a seek to the new fraction of the duration.
   */
  lemma SliderDragSeeks(data: PipelineData, f: real)
    requires f != data.timeline.frac
    ensures var dragged := data.(timeline := data.timeline.(frac := f));
      Reconcile(data, dragged, data.timeline) == [Seek(ToNanos(f * data.timeline.duration))]
  {
    var dragged := data.(timeline := data.timeline.(frac := f));
    assert SeekCmds(data.timeline, dragged.timeline) == [Seek(SeekTarget(dragged.timeline))];
    assert SeekTarget(dragged.timeline) == ToNanos(f * data.timeline.duration);
  }

  /**
   * The fraction is not clamped to [0, 1]: when the duration query fails the
   * duration falls back to 1 ns and the fraction is the position itself, in
   * nanoseconds.
   */
  lemma UnknownDurationFracIsPosition(p: U64)
    ensures GetTimeline(Some(p), None).duration == 1.0
    ensures GetTimeline(Some(p), None).frac == p as real
  {
  }

  /**
   * After a tick with an unknown duration, dragging the slider to any point
   * short of its end seeks to the start: the 1 ns duration scales the
   * fraction down to less than one nanosecond.
   */
  lemma UnknownDurationDragSeeksToStart(data: PipelineData, p: U64, f: real)
    requires data.timeline == GetTimeline(Some(p), None)
    requires 0.0 <= f < 1.0 && f != p as real
    ensures var dragged := data.(timeline := data.timeline.(frac := f));
      Reconcile(data, dragged, data.timeline) == [Seek(0)]
  {
    SliderDragSeeks(data, f);
    assert f * data.timeline.duration == f;
  }

  // ---------------------------------------------------------------------------
  // Button closures built in `Controller::new`
  // ---------------------------------------------------------------------------

  /** The play/pause button's glyph: a pause sign while playing, a play sign while paused. */
  datatype PlayIcon = PauseGlyph | PlayGlyph

  function PlayPauseLabel(s: PipelineState): (icon: PlayIcon)
    ensures icon == PauseGlyph <==> s == Play
    ensures icon == PlayGlyph <==> s == Pause
  {
    match s
    case Play => PauseGlyph
    case Pause => PlayGlyph
  }

  /** The mute button's glyph: crossed out when muted, else by volume level. */
  datatype VolumeIcon = MutedSpeaker | SpeakerSilent | SpeakerLow | SpeakerHigh

  /** How loud a glyph shows the volume to be; a muted speaker shows nothing. */
  function Loudness(icon: VolumeIcon): nat
  {
    match icon
    case MutedSpeaker => 0
    case SpeakerSilent => 0
    case SpeakerLow => 1
    case SpeakerHigh => 2
  }

  function MuteLabel(data: PipelineData): (icon: VolumeIcon)
    ensures icon == MutedSpeaker <==> data.muted
    ensures icon == SpeakerSilent <==> !data.muted && data.volume < 0.01
    ensures icon == SpeakerLow <==> !data.muted && 0.01 <= data.volume < 0.3
    ensures icon == SpeakerHigh <==> !data.muted && 0.3 <= data.volume
  {
    if data.muted then MutedSpeaker
    else if data.volume < 0.01 then SpeakerSilent
    else if data.volume < 0.3 then SpeakerLow
    else SpeakerHigh
  }

  /** A louder volume never shows a quieter glyph. */
  lemma MuteLabelMonotone(data: PipelineData, louder: real)
    requires !data.muted && data.volume <= louder
    ensures Loudness(MuteLabel(data)) <= Loudness(MuteLabel(data.(volume := louder)))
  {
  }

  /** The mute button's click handler flips `muted` and nothing else. */
  function ToggleMute(data: PipelineData): (toggled: PipelineData)
    ensures toggled.muted != data.muted
    ensures toggled.(muted := data.muted) == data
  {
    data.(muted := !data.muted)
  }

  /** Clicking mute twice restores the data; each click makes `update` push exactly the new mute flag. */
  lemma ToggleMuteRoundTrip(data: PipelineData)
    ensures ToggleMute(ToggleMute(data)) == data
    ensures Reconcile(data, ToggleMute(data), data.timeline) == [SetMute(!data.muted)]
  {
  }

  // ---------------------------------------------------------------------------
  // Events: timer ticks and clicks
  // ---------------------------------------------------------------------------

  /** What one event does: the new data, the new shadow and whether a timer and a repaint are requested. */
  datatype Reaction = Reaction(
    data: PipelineData,
    updatedTime: Timeline,
    timerRequested: bool,
    paintRequested: bool)

  /**
   * `Controller::event`. A tick of the awaited timer while playing copies the
   * polled timeline into both the data and the shadow and re-arms the timer;
   * a click toggles the intent and arms the timer only when entering Play;
   * anything else (a stale tick, a tick while paused) changes nothing.
   */
  function React(ev: Event, data: PipelineData, updatedTime: Timeline, timerId: nat,
                 pos: Option<U64>, dur: Option<U64>): (r: Reaction)
    ensures r.timerRequested ==> r.data.state == Play
    ensures r.data.volume == data.volume && r.data.muted == data.muted
    ensures r.data.state != data.state <==> ev == MouseDown
    ensures ev == OtherEvent ==> r == Reaction(data, updatedTime, false, false)
  {
    match ev
    case Timer(id) =>
      if id == timerId && data.state == Play then
        var t := GetTimeline(pos, dur);
        Reaction(data.(timeline := t), t, true, true)
      else
        Reaction(data, updatedTime, false, false)
    case MouseDown =>
      if data.state == Pause then Reaction(data.(state := Play), updatedTime, true, true)
      else Reaction(data.(state := Pause), updatedTime, false, true)
    case OtherEvent =>
      Reaction(data, updatedTime, false, false)
  }

  /**
   * A tick of the awaited timer while playing sets the data's timeline and
   * the shadow to the same polled value, touches nothing else and re-arms.
   */
  lemma TickSyncsShadow(data: PipelineData, updatedTime: Timeline, timerId: nat,
                        pos: Option<U64>, dur: Option<U64>)
    requires data.state == Play
    ensures var r := React(Timer(timerId), data, updatedTime, timerId, pos, dur);
      r.data.timeline == r.updatedTime == GetTimeline(pos, dur) &&
      r.data == data.(timeline := r.data.timeline) &&
      r.timerRequested && r.paintRequested
  {
  }

  /**
   * No feedback loop: the `update` that follows a poll tick issues no
   * command at all, in particular no seek, whatever the shadow was before.
   */
  lemma TickThenUpdateIsSilent(data: PipelineData, updatedTime: Timeline, timerId: nat,
                               pos: Option<U64>, dur: Option<U64>)
    requires data.state == Play
    ensures var r := React(Timer(timerId), data, updatedTime, timerId, pos, dur);
      Reconcile(data, r.data, r.updatedTime) == []
  {
  }

  /** A stale tick, or any tick while paused, changes nothing and requests no timer: the tick chain stops. */
  lemma IgnoredTickChangesNothing(id: nat, data: PipelineData, updatedTime: Timeline, timerId: nat,
                                  pos: Option<U64>, dur: Option<U64>)
    requires id != timerId || data.state == Pause
    ensures React(Timer(id), data, updatedTime, timerId, pos, dur)
         == Reaction(data, updatedTime, false, false)
  {
  }

  /**
   * A click flips the intent and nothing else; a timer is requested exactly
   * when entering Play, and the following `update` issues exactly the
   * matching state change.
   */
  lemma ClickToggles(data: PipelineData, updatedTime: Timeline, timerId: nat,
                     pos: Option<U64>, dur: Option<U64>)
    ensures var r := React(MouseDown, data, updatedTime, timerId, pos, dur);
      r.data.state != data.state &&
      r.data == data.(state := r.data.state) &&
      r.updatedTime == updatedTime &&
      (r.timerRequested <==> data.state == Pause) &&
      r.paintRequested &&
      Reconcile(data, r.data, data.timeline)
        == [SetState(if data.state == Pause then Playing else Paused)]
  {
  }

  // ---------------------------------------------------------------------------
  // The widget as a stateful object
  // ---------------------------------------------------------------------------

  class Controller {
    /** The timeline the pipeline is expected to be at (the shadow). */
    var updatedTime: Timeline
    /** The token of the timer the controller waits for. */
    var timerId: nat
    /** How many timers have been requested: the token allocator. */
    var issuedTimers: nat
    /** Every command sent to the pipeline, oldest first. */
    var commands: seq<Cmd>

    /** The awaited token is the last one handed out (or INVALID before any). */
    ghost predicate Valid()
      reads this
    {
      timerId == issuedTimers
    }

    /** `Controller::new`: an invalid token, a shadow of `Timeline::new()`, no commands yet. */
    constructor ()
      ensures Valid()
      ensures updatedTime == NewTimeline() && timerId == INVALID_TOKEN
      ensures issuedTimers == 0 && commands == []
    {
      updatedTime := NewTimeline();
      timerId := INVALID_TOKEN;
      issuedTimers := 0;
      commands := [];
    }

    /** `ctx.request_timer`: hands out a fresh token. */
    method RequestTimer() returns (token: nat)
      modifies this`issuedTimers
      ensures issuedTimers == old(issuedTimers) + 1 && token == issuedTimers
    {
      issuedTimers := issuedTimers + 1;
      token := issuedTimers;
    }

    /**
     * `Controller::update`: sends the commands that bring the pipeline in
     * line with `data` and leaves the shadow equal to `data.timeline`.
     */
    method Update(oldData: PipelineData, data: PipelineData)
      modifies this`updatedTime, this`commands
      ensures commands == old(commands) + Reconcile(oldData, data, old(updatedTime))
      ensures updatedTime == data.timeline
    {
      ChangeState(oldData.state, data.state);
      SeekIfMoved(data.timeline);
      PushVolume(oldData.volume, data.volume);
      PushMute(oldData.muted, data.muted);
    }

    /** The state-change step of `update`: only a Play/Pause flip sends a command. */
    method ChangeState(before: PipelineState, after: PipelineState)
      modifies this`commands
      ensures commands == old(commands) + StateCmds(before, after)
    {
      if before == Pause && after == Play {
        commands := commands + [SetState(Playing)];
      } else if before == Play && after == Pause {
        commands := commands + [SetState(Paused)];
      }
    }

    /** The seek step of `update`: seeks when `timeline` is not the shadow, then adopts it as the shadow. */
    method SeekIfMoved(timeline: Timeline)
      modifies this`updatedTime, this`commands
      ensures commands == old(commands) + SeekCmds(old(updatedTime), timeline)
      ensures updatedTime == timeline
    {
      if updatedTime != timeline {
        updatedTime := timeline;
        var position := SeekTarget(timeline);  // (frac * duration) as u64
        commands := commands + [Seek(position)];
      }
    }

    /** The volume step of `update`. */
    method PushVolume(before: real, after: real)
      modifies this`commands
      ensures commands == old(commands) + VolumeCmds(before, after)
    {
      if before != after {
        commands := commands + [SetVolume(after)];
      }
    }

    /** The mute step of `update`. */
    method PushMute(before: bool, after: bool)
      modifies this`commands
      ensures commands == old(commands) + MuteCmds(before, after)
    {
      if before != after {
        commands := commands + [SetMute(after)];
      }
    }

    /**
     * `Controller::event`: `pos` and `dur` are what the pipeline's position
     * and duration queries answer at that moment.
     */
    method HandleEvent(ev: Event, data: PipelineData, pos: Option<U64>, dur: Option<U64>)
      returns (newData: PipelineData, paint: bool)
      requires Valid()
      modifies this`updatedTime, this`timerId, this`issuedTimers
      ensures Valid()
      ensures var r := React(ev, data, old(updatedTime), old(timerId), pos, dur);
        newData == r.data && paint == r.paintRequested && updatedTime == r.updatedTime &&
        issuedTimers == old(issuedTimers) + (if r.timerRequested then 1 else 0)
    {
      newData, paint := data, false;
      match ev {
        case Timer(id) =>
          if id == timerId && data.state == Play {
            paint := true;
            newData := newData.(timeline := GetTimeline(pos, dur));
            updatedTime := newData.timeline;
            timerId := RequestTimer();
          }
        case MouseDown =>
          if data.state == Pause {
            newData := newData.(state := Play);
            timerId := RequestTimer();
          } else {
            newData := newData.(state := Pause);
          }
          paint := true;
        case OtherEvent =>
      }
    }

    /** The controller's fields and the command log, seen together with the widget's data. */
    ghost function AsSession(data: PipelineData): Session
      reads this
    {
      Session(data, updatedTime, timerId, issuedTimers, commands)
    }

    /**
     * The framework's dispatch of one input: `event` may change the data,
     * then `update(old, new)` reconciles the pipeline with the result. The
     * controller and its data move exactly as one `Step` of a session.
     */
    method Dispatch(input: Input, data: PipelineData) returns (newData: PipelineData)
      requires Valid()
      modifies this`updatedTime, this`timerId, this`issuedTimers, this`commands
      ensures Valid()
      ensures AsSession(newData) == Step(old(AsSession(data)), input)
    {
      var paint;
      newData, paint := HandleEvent(input.ev, data, input.pos, input.dur);
      Update(data, newData);
    }
  }

  // ---------------------------------------------------------------------------
  // Sessions: the framework's event-then-update dispatch, as values
  // ---------------------------------------------------------------------------

  /** One input: an event together with what the pipeline queries answer when it arrives. */
  datatype Input = Input(ev: Event, pos: Option<U64>, dur: Option<U64>)

  /** The data, the controller's fields and the command log between two inputs. */
  datatype Session = Session(
    data: PipelineData,
    updatedTime: Timeline,
    timerId: nat,
    issuedTimers: nat,
    log: seq<Cmd>)

  /** The session a fresh controller starts with on `PipelineData::new()`. */
  function InitialSession(): (s: Session)
    ensures s.updatedTime == s.data.timeline && s.data.state == Pause
    ensures s.timerId == s.issuedTimers == INVALID_TOKEN && s.log == []
  {
    Session(NewPipelineData(), NewTimeline(), INVALID_TOKEN, 0, [])
  }

  /** One input: `event` mutates the data, then `update(old, new)` reconciles. */
  function Step(s: Session, input: Input): (r: Session)
    ensures s.log <= r.log && |r.log| <= |s.log| + 4
    ensures r.data.volume == s.data.volume && r.data.muted == s.data.muted
    ensures s.timerId == s.issuedTimers ==> r.timerId == r.issuedTimers
    ensures r.updatedTime == r.data.timeline
  {
    var r := React(input.ev, s.data, s.updatedTime, s.timerId, input.pos, input.dur);
    Session(
      r.data,
      r.data.timeline,   // `update` always leaves the shadow equal to the new timeline
      if r.timerRequested then s.issuedTimers + 1 else s.timerId,
      if r.timerRequested then s.issuedTimers + 1 else s.issuedTimers,
      s.log + Reconcile(s.data, r.data, r.updatedTime))
  }

  /**
   * A run of inputs, one `Step` each. The log only grows, by at most four
   * commands per input, and the controller's events never touch the volume
   * or the mute flag.
   */
  function Run(s: Session, inputs: seq<Input>): (r: Session)
    ensures s.log <= r.log && |r.log| <= |s.log| + 4 * |inputs|
    ensures r.data.volume == s.data.volume && r.data.muted == s.data.muted
    decreases |inputs|
  {
    if inputs == [] then s else Run(Step(s, inputs[0]), inputs[1..])
  }

  /** Every step keeps the token invariant and leaves the shadow synchronised with the data. */
  lemma {:induction false} RunKeepsShadowSynced(s: Session, inputs: seq<Input>)
    requires s.timerId == s.issuedTimers
    ensures Run(s, inputs).timerId == Run(s, inputs).issuedTimers
    ensures inputs != [] ==> Run(s, inputs).updatedTime == Run(s, inputs).data.timeline
    decreases |inputs|
  {
    if inputs != [] {
      RunKeepsShadowSynced(Step(s, inputs[0]), inputs[1..]);
    }
  }

  /**
   * Anti-feedback over a whole playback: while only timer events arrive
   * (awaited or stale, with any poll results), the command log does not grow
   * and the intent does not change.
   */
  lemma {:induction false} TicksAreSilent(s: Session, inputs: seq<Input>)
    requires s.updatedTime == s.data.timeline
    requires forall i :: 0 <= i < |inputs| ==> inputs[i].ev.Timer?
    ensures Run(s, inputs).log == s.log
    ensures Run(s, inputs).data.state == s.data.state
    ensures Run(s, inputs).updatedTime == Run(s, inputs).data.timeline
    decreases |inputs|
  {
    if inputs != [] {
      var s' := Step(s, inputs[0]);
      assert s'.log == s.log;
      TicksAreSilent(s', inputs[1..]);
    }
  }

  /** While paused, timer events change nothing at all: no timer is ever armed. */
  lemma {:induction false} PausedTicksChangeNothing(s: Session, inputs: seq<Input>)
    requires s.updatedTime == s.data.timeline && s.data.state == Pause
    requires forall i :: 0 <= i < |inputs| ==> inputs[i].ev.Timer?
    ensures Run(s, inputs) == s
    decreases |inputs|
  {
    if inputs != [] {
      assert Step(s, inputs[0]) == s;
      PausedTicksChangeNothing(s, inputs[1..]);
    }
  }

  /**
   * Pausing ends the tick chain: a click while playing sends exactly one
   * `SetState(Paused)`, and the timer events that follow (the already armed
   * one included) arm nothing and send nothing.
   */
  lemma PauseStopsTickChain(s: Session, click: Input, ticks: seq<Input>)
    requires s.updatedTime == s.data.timeline && s.data.state == Play
    requires click.ev == MouseDown
    requires forall i :: 0 <= i < |ticks| ==> ticks[i].ev.Timer?
    ensures Run(s, [click] + ticks).log == s.log + [SetState(Paused)]
    ensures Run(s, [click] + ticks).issuedTimers == s.issuedTimers
    ensures Run(s, [click] + ticks).data.state == Pause
  {
    var s' := Step(s, click);
    assert s'.log == s.log + [SetState(Paused)];
    assert ([click] + ticks)[1..] == ticks;
    PausedTicksChangeNothing(s', ticks);
  }
}
