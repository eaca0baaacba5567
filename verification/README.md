# druid_media playback core in Dafny

This project models the playback core of druid_media. That library embeds a
GStreamer pipeline in a druid application. The model covers four parts:

- **The reconciler** (`ControllerModel`, `controller.dfy`). This is the
  `Controller` widget. On every `update(old, new)` it decides which commands
  to send to the pipeline:
  - a state change when Play/Pause flips;
  - a flushing seek when the timeline differs from its private shadow
    `updated_time`;
  - a volume push and a mute push when those fields change.

  On every `event` it handles two cases. A poll tick copies the pipeline's
  position into the data and the shadow, then re-arms the timer. A click
  toggles Play/Pause.
  - The pipeline is a log of `Cmd`s.
  - Its position and duration queries are `Option<U64>` nanosecond parameters.
  - Timer tokens come from a counter. `INVALID` is 0.
  - `Controller` is a class with the fields `updatedTime`, `timerId`,
    `issuedTimers` and `commands`.
  - Its methods are specified by the pure functions `Reconcile` and `React`.
  - `Step`/`Run` replay druid's dispatch as values: each event is followed by
    `update(old, new)`. The whole-session lemmas are stated over them.
    `Controller.Dispatch` calls `HandleEvent` then `Update`, and is proved to
    move the object exactly as `Step` moves the session.
- **The data model** (`PipelineModel`, `pipeline_data.dfy`). This holds
  `PipelineData`, `Timeline` and `PipelineState`, with their constructors,
  their defaults and `same`.
- **The letterbox geometry** (`VideoModel.FitVideoRect`), over `real`.
- **The sample slot and paint** (`VideoModel`).
  - `SampleSlot` is a one-slot cell. The `new_sample`/`new_preroll` callbacks
    overwrite it after a successful pull, and `eos` leaves it alone.
  - The chain of checks in `get_sample_image`/`caps_property` becomes
    `SampleImage`/`CapsProperty`.
  - `Paint` gives the decision `paint` takes on that result.

The model follows the code in four places where a reader might expect otherwise:

- `Timeline.duration` is in nanoseconds, not seconds. `get_timeline` builds
  it from clock nanoseconds.
- Pipeline calls are `.unwrap()`ed, so a failure panics. It is not returned
  as an error. The model treats every command as successful.
- A seek is issued whenever the timeline differs from the shadow. This
  includes a timeline whose duration is 0, which seeks to position 0.
- The timeline fraction is not clamped to [0, 1]. When the duration query
  fails or answers 0, `get_timeline` uses a duration of 1 ns. The fraction
  is then the position itself, in nanoseconds. After such a tick, dragging
  the slider anywhere short of its end seeks to the start.

## Model

| member | source | states |
|---|---|---|
| `PipelineModel.NewTimeline` | src/pipeline_data.rs:41-46 | `Timeline::new` has fraction 0 and duration 0 |
| `PipelineModel.DefaultTimeline` | src/pipeline_data.rs:48-52 | `Timeline::default` has the same zero fraction and duration as `new` |
| `PipelineModel.NewPipelineData` | src/pipeline_data.rs:24-31 | `PipelineData::new` is paused, timeline (0, 0), volume 1.0, not muted |
| `PipelineModel.DefaultPipelineData` | src/pipeline_data.rs:34-38 | `PipelineData::default` has the same field values as `new` |
| `PipelineModel.SameState` | src/pipeline_data.rs:54-58 | two intents are `same` iff they are the same variant |
| `PipelineModel.SameTimeline` | src/pipeline_data.rs:60-64 | two timelines are `same` iff both fields are exactly equal, with no tolerance |
| `PipelineModel.SameIsEquivalence` | src/pipeline_data.rs:54-64 | both `same` relations are reflexive, symmetric and transitive, and coincide with equality |
| `ControllerModel.ToNanos` | src/controller.rs:120 | `time as u64` truncates toward zero: result `n` with `n <= t < n + 1` in range; 0 for `t <= 0`; `u64::MAX` from 2^64 up |
| `ControllerModel.GetTimeline` | src/controller.rs:168-178 | duration is always at least 1; a missing or zero duration becomes 1; a present positive duration is kept; `frac * duration` equals the polled position (0 when missing) |
| `ControllerModel.PolledFractionInUnitRange` | src/controller.rs:176 | when position <= duration, the polled fraction lies in [0, 1]; without that hypothesis the bound fails (see `UnknownDurationFracIsPosition`) |
| `ControllerModel.SeekTarget` | src/controller.rs:119-120 | the seek position is `frac * duration` truncated to whole nanoseconds and clamped to the `u64` range |
| `ControllerModel.PolledTimelineSeeksToPosition` | src/controller.rs:168-178 | seeking to a polled timeline lands exactly on the polled position (`get_timeline` and the seek target are inverses) |
| `ControllerModel.Reconcile` | src/controller.rs:106-131 | `update` sends at most four commands, and none exactly when intent, volume and mute are unchanged and the timeline equals the shadow |
| `ControllerModel.ReconcileStateChanges` | src/controller.rs:107-115 | Pause→Play sends exactly one `SetState(Playing)`, Play→Pause exactly one `SetState(Paused)`, equal intents send none |
| `ControllerModel.ReconcileSeeks` | src/controller.rs:117-124 | exactly one seek iff the new timeline differs from the shadow, to the new timeline's `frac * duration`; otherwise none |
| `ControllerModel.ReconcileVolume` | src/controller.rs:126-128 | the volume is pushed once, with the new value, iff it changed |
| `ControllerModel.ReconcileMute` | src/controller.rs:129-131 | the mute flag is pushed once, with the new value, iff it changed, independently of the volume |
| `ControllerModel.ReconcileOrder` | src/controller.rs:106-131 | commands come out in the order state, seek, volume, mute, with at most one of each kind |
| `ControllerModel.ReconcileTwiceNoSeek` | src/controller.rs:117-118 | once the shadow equals `data.timeline`, another `update` with that data sends no seek; with unchanged data it sends nothing |
| `ControllerModel.FirstUpdateNoSeek` | src/controller.rs:64-69 | the initial shadow `Timeline::new()` equals the initial data's timeline, so the first `update` sends no seek |
| `ControllerModel.VolumeOnlyChange` | src/controller.rs:126-131 | changing only the volume sends exactly `[SetVolume(v)]` |
| `ControllerModel.SliderDragSeeks` | src/controller.rs:117-124 | moving only `frac` sends exactly one seek, to `frac * duration` |
| `ControllerModel.UnknownDurationFracIsPosition` | src/controller.rs:169-177 | with no duration, the timeline has duration 1 and its fraction equals the position in nanoseconds, so it can exceed 1 |
| `ControllerModel.UnknownDurationDragSeeksToStart` | src/controller.rs:117-124 | after a tick with no duration, dragging the slider to any point in [0, 1) sends exactly `[Seek(0)]` |
| `ControllerModel.PlayPauseLabel` | src/controller.rs:36-39 | the button shows the pause glyph iff playing and the play glyph iff paused |
| `ControllerModel.MuteLabel` | src/controller.rs:46-56 | muted shows the crossed speaker; otherwise volume < 0.01, < 0.3 and >= 0.3 pick the silent, low and high glyph, each iff its range holds |
| `ControllerModel.MuteLabelMonotone` | src/controller.rs:49-55 | while unmuted, a louder volume never shows a quieter glyph |
| `ControllerModel.ToggleMute` | src/controller.rs:57-59 | the mute button flips `muted` and changes nothing else |
| `ControllerModel.ToggleMuteRoundTrip` | src/controller.rs:57-59 | toggling twice restores the data; one toggle makes `update` send exactly `[SetMute(!muted)]` |
| `ControllerModel.React` | src/controller.rs:135-161 | an event never changes volume or mute; it flips the intent iff it is a click; it arms a timer only when the resulting intent is Play; any other event (the `_ => {}` arm) keeps the data and the shadow and arms no timer |
| `ControllerModel.TickSyncsShadow` | src/controller.rs:137-144 | a tick of the awaited timer while playing sets the data's timeline and the shadow to the same polled value, changes nothing else, re-arms and requests a repaint |
| `ControllerModel.TickThenUpdateIsSilent` | src/controller.rs:137-141 | no feedback: the `update` after a poll tick sends no command, in particular no seek |
| `ControllerModel.IgnoredTickChangesNothing` | src/controller.rs:136-160 | a stale token, or a tick while paused, changes nothing and arms no timer, so the tick chain stops |
| `ControllerModel.ClickToggles` | src/controller.rs:145-158 | a click flips the intent only; a timer is armed iff it enters Play; a repaint is requested; the following `update` sends exactly the matching `SetState` |
| `ControllerModel.Controller.constructor` | src/controller.rs:64-69 | the controller starts with the `INVALID` token, a `Timeline::new()` shadow and no commands |
| `ControllerModel.Controller.RequestTimer` | src/controller.rs:142-143 | requesting a timer hands out a fresh token, one past the previous one |
| `ControllerModel.Controller.Update` | src/controller.rs:99-133 | the command log grows by exactly `Reconcile(old, new, shadow)`, and the shadow becomes `data.timeline` |
| `ControllerModel.Controller.ChangeState` | src/controller.rs:107-115 | the state step appends exactly the state command of the intent flip |
| `ControllerModel.Controller.SeekIfMoved` | src/controller.rs:117-124 | the seek step appends a seek iff the timeline left the shadow, and adopts the timeline as the shadow |
| `ControllerModel.Controller.PushVolume` | src/controller.rs:126-128 | the volume step appends a volume push iff the volume changed |
| `ControllerModel.Controller.PushMute` | src/controller.rs:129-131 | the mute step appends a mute push iff the flag changed |
| `ControllerModel.Controller.HandleEvent` | src/controller.rs:135-161 | the new data, repaint request, shadow and token count are those `React` prescribes; the awaited token stays the last one handed out |
| `ControllerModel.Controller.Dispatch` | src/controller.rs:99-161 | one input as druid dispatches it, `event` then `update(old, new)`: the controller and its data end exactly where `Step` puts the session |
| `ControllerModel.Step` | src/controller.rs:99-161 | one of the controller's own events, then `update`: the log only grows, by at most four commands; volume and mute are untouched; the token invariant is kept; the shadow ends equal to the data's timeline |
| `ControllerModel.Run` | src/controller.rs:99-161 | a run of the controller's own events, each followed by `update`: the log only grows, by at most four commands per input, and these events never change volume or mute |
| `ControllerModel.InitialSession` | src/controller.rs:64-69 | a fresh controller on `PipelineData::new()` is paused, synchronised with its shadow, holding the invalid token, with an empty log |
| `ControllerModel.RunKeepsShadowSynced` | src/controller.rs:117-118 | after any non-empty run of events, each followed by `update`, the shadow equals the data's timeline and the awaited token is the last one issued |
| `ControllerModel.TicksAreSilent` | src/controller.rs:137-144 | while only timer events arrive (awaited or stale, any poll results), the command log never grows and the intent never changes |
| `ControllerModel.PausedTicksChangeNothing` | src/controller.rs:137 | while paused, any run of timer events leaves the whole session unchanged, and no timer is ever armed |
| `ControllerModel.PauseStopsTickChain` | src/controller.rs:154-156 | a click while playing sends exactly one `SetState(Paused)`; the ticks after it (the already armed one included) arm nothing and send nothing |
| `VideoModel.TooWide` | src/video.rs:210 | the "too wide" test `base.width() / base.height() > w / h`; a container of height 0 gives +inf, NaN or -inf, so the test holds iff its width is positive |
| `VideoModel.TooWideByCrossProduct` | src/video.rs:210 | for positive sizes, the container is "too wide" iff `width * h > height * w` |
| `VideoModel.FitVideoRect` | src/video.rs:207-225 | too wide: keeps `y0`/`y1`, width `height * w / h`, same horizontal centre; otherwise keeps `x0`/`x1`, height `width * h / w`, same vertical centre |
| `VideoModel.FitIsLetterbox` | src/video.rs:206-225 | for positive sizes, the result has aspect `w/h`, lies inside the container and spans it along one axis |
| `VideoModel.FitSameAspectIsIdentity` | src/video.rs:217-224 | when the aspect ratios are equal, the result is the container itself |
| `VideoModel.FitWideContainer` | src/video.rs:210-216 | a 16:9 container with 4:3 content gives full height, width `height * 4/3`, centred |
| `VideoModel.FitTallContainer` | src/video.rs:217-224 | a 4:3 container with 16:9 content gives full width, height `width * 9/16`, centred |
| `VideoModel.CapsProperty` | src/video.rs:195-204 | no structure gives `NoCaps`; an integer field gives its value; a field with no value gives `NoProperty(name)`; a missing or mistyped field gives `Get(name)` |
| `VideoModel.SampleImage` | src/video.rs:124-140 | errors follow a fixed order, each an iff on the earlier checks passing: `NoSample` iff the slot is empty; `NoCapsSet` iff there are no caps; a width property error is reported as is; a height error is reported only when the width was read; `BufferError` iff both were read and there is no buffer; `Glib` iff the buffer cannot be mapped; success iff every check passes, with the caps' width and height and the buffer's bytes |
| `VideoModel.Paint` | src/video.rs:153-169 | debug log iff the slot is empty; error log, with that error, iff another check failed; draw iff the image was obtained, into `fit_video_rect` of the widget's rectangle and the frame size |
| `VideoModel.PaintDrawsLetterboxed` | src/video.rs:155-160 | on a widget of positive size, a drawn frame keeps its aspect ratio, stays inside the widget, spans it along one axis and is centred in it |
| `VideoModel.Stored` | src/video.rs:95-108 | a successful pull replaces the slot's content; a failed pull leaves it |
| `VideoModel.AfterCallbacks` | src/video.rs:95-111 | after a run of callbacks the slot holds its initial content or a sample some callback pulled, and it is never emptied once filled |
| `VideoModel.LastWriterWins` | src/video.rs:95-111 | after any run of callbacks the slot holds the most recently pulled sample, or its earlier content when no pull succeeded |
| `VideoModel.SampleSlot.constructor` | src/video.rs:70 | the slot starts empty |
| `VideoModel.SampleSlot.NewSample` | src/video.rs:95-101 | `new_sample` overwrites the slot with a successfully pulled sample and leaves it alone otherwise |
| `VideoModel.SampleSlot.NewPreroll` | src/video.rs:102-108 | `new_preroll` does the same for the preroll sample |
| `VideoModel.SampleSlot.Eos` | src/video.rs:109-111 | `eos` does not modify the slot |
| `VideoModel.SampleSlot.Snapshot` | src/video.rs:125-126 | a paint reads the current content of the slot |

## Left out

- GStreamer pipeline construction is not modelled. This covers `build_player`,
  `build_widget`, the caps builder, the `dynamic_cast` calls and the
  `uri`/`video-sink` properties. They are calls into the media library.
- Image creation and drawing are not modelled: `make_image` and `draw_image`
  are calls into the drawing library.
  - A successful `SampleImage` yields the frame's size and bytes.
  - A piet error from `make_image` is not modelled.
  - `map_readable` is GStreamer's buffer mapping. Only its outcome is
    modelled: a buffer with `readable` false gives the `Glib` error.
- Run: a session's inputs are only the controller's own events. The
  `update(old, new)` calls that follow edits by sibling widgets (the timeline
  and volume sliders, the mute button) are not inputs of `Step`. Those edits
  are covered one `update` at a time by `Reconcile`, `SliderDragSeeks`,
  `VolumeOnlyChange` and `ToggleMuteRoundTrip`. So "volume and mute never
  change" holds for the controller's events, not for a whole application
  session.
- Druid widget glue is not modelled. This covers `layout`, `lifecycle`, the
  delegation to the inner button, `Flex` composition and the slider lenses.
  `request_paint` appears only as a flag in `React`. druid may skip `update`
  when the data is unchanged. `Run` always calls it, which makes no
  difference because `Reconcile` of unchanged, synchronised data is empty.
- The `Arc<Mutex<…>>` around the slot and the producer thread are not
  modelled. The slot is a sequential cell.
- IEEE floats are not modelled: `f64` is `real`, with no rounding, NaN or
  infinities. The one exception is the zero-height comparison in `TooWide`.
- PolledTimelineSeeksToPosition: the round trip is exact over `real`. With
  `f64` it is exact only for positions and durations up to 2^53, and the
  final division and product round.
- ToNanos: the cast is given its saturating, truncating meaning on `real`. A
  NaN time, which `as u64` maps to 0, does not exist here.
- Wall-clock timing is not modelled: the 16 ms deadlines are replaced by a
  counter of issued timer tokens.
- Pipeline call failures are not modelled: the `.unwrap()` calls panic, and
  the model assumes every call succeeds.
- FitVideoRect requires a positive content width and height. Zero-sized
  content divides by zero in the source.
- FitVideoRect models a container of height 0 by the outcome of the float
  comparison (+inf, NaN or -inf). It does not model the infinite or NaN
  coordinates such a comparison can lead to for zero-sized content.
- CapsProperty: caps width and height are positive `i32` values (type
  `Dimension`). A zero or negative dimension from malformed caps is not
  modelled.
- `SampleSlot.Eos` does not model the `println!` of "End of stream.".
- src/audio.rs and src/lib.rs are not part of this model. They are a
  constructor wrapper and re-exports.
- The constructors that call a missing function are not part of this model.
  src/video.rs:59 and src/audio.rs:17 call `Controller::build_widget`, but
  src/controller.rs defines only `Controller::new` (src/controller.rs:33).
- The repository's example programs are not part of this model. They call
  `VideoPlayer::build_widget_with_thumbnail` and `VideoPlayer::new`, which
  src/video.rs does not define.
