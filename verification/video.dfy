/**
 * The video side of the player: the one-slot cell the decoder's callbacks
 * write the latest sample into, the chain of checks that turns the stored
 * sample into a drawable frame, and the letterbox geometry that places the
 * frame in the widget.
 *
 * Sizes and coordinates are `f64` in the program and `real` here.
 */
module VideoModel {
  import opened Wrappers

  // ---------------------------------------------------------------------------
  // Letterbox geometry
  // ---------------------------------------------------------------------------

  /** An axis-aligned rectangle given by two corners, as `Rect::new(x0, y0, x1, y1)`. */
  datatype Rect = Rect(x0: real, y0: real, x1: real, y1: real) {
    function Width(): real { x1 - x0 }
    function Height(): real { y1 - y0 }
  }

  /**
   * Whether the container is wider, relative to its height, than content of
   * size `w` x `h`: `base.width() / base.height() > w / h`. For a container
   * of height 0 the float quotient is +inf, NaN or -inf as the width is
   * positive, zero or negative, so the comparison holds exactly when the
   * width is positive.
   */
  predicate TooWide(base: Rect, w: real, h: real)
    requires h > 0.0
  {
    if base.Height() == 0.0 then base.Width() > 0.0
    else base.Width() / base.Height() > w / h
  }

  /** For a container of positive size, "too wide" is a comparison of cross products. */
  lemma TooWideByCrossProduct(base: Rect, w: real, h: real)
    requires w > 0.0 && h > 0.0 && base.Width() > 0.0 && base.Height() > 0.0
    ensures TooWide(base, w, h) <==> base.Width() * h > base.Height() * w
  {
    var bw, bh := base.Width(), base.Height();
    assert bw / bh * (bh * h) == bw * h;
    assert w / h * (bh * h) == bh * w;
    if bw / bh > w / h {
      assert (bw / bh - w / h) * (bh * h) > 0.0;
    } else {
      assert (w / h - bw / bh) * (bh * h) >= 0.0;
    }
  }

  /**
   * `fit_video_rect`: the largest rectangle of aspect `w/h` centred in
   * `base`. A container that is too wide keeps its vertical extent and gets
   * a width of `height * w / h` about the same horizontal centre; otherwise
   * it keeps its horizontal extent and gets a height of `width * h / w`
   * about the same vertical centre.
   */
  function FitVideoRect(base: Rect, w: real, h: real): (r: Rect)
    requires w > 0.0 && h > 0.0
    ensures TooWide(base, w, h) ==>
      r.y0 == base.y0 && r.y1 == base.y1 &&
      r.Width() == base.Height() * w / h &&
      r.x0 + r.x1 == base.x0 + base.x1
    ensures !TooWide(base, w, h) ==>
      r.x0 == base.x0 && r.x1 == base.x1 &&
      r.Height() == base.Width() * h / w &&
      r.y0 + r.y1 == base.y0 + base.y1
  {
    if TooWide(base, w, h) then
      var newW := base.Height() * w / h;
      var center := (base.x0 + base.x1) * 0.5;
      Rect(center - newW * 0.5, base.y0, center + newW * 0.5, base.y1)
    else
      var newH := base.Width() * h / w;
      var center := (base.y0 + base.y1) * 0.5;
      Rect(base.x0, center - newH * 0.5, base.x1, center + newH * 0.5)
  }

  /** `inner` lies within `outer`. */
  predicate Inside(inner: Rect, outer: Rect)
  {
    outer.x0 <= inner.x0 <= inner.x1 <= outer.x1 &&
    outer.y0 <= inner.y0 <= inner.y1 <= outer.y1
  }

  /**
   * For a container and content of positive size, the fitted rectangle has
   * the content's aspect ratio, lies inside the container and spans it fully
   * along one axis (so no larger rectangle of that aspect fits).
   */
  lemma FitIsLetterbox(base: Rect, w: real, h: real)
    requires w > 0.0 && h > 0.0 && base.Width() > 0.0 && base.Height() > 0.0
    ensures var r := FitVideoRect(base, w, h);
      r.Width() * h == r.Height() * w &&
      Inside(r, base) &&
      (r.Width() == base.Width() || r.Height() == base.Height())
  {
    var r := FitVideoRect(base, w, h);
    TooWideByCrossProduct(base, w, h);
    if TooWide(base, w, h) {
      ScaledSideFits(base.Height(), base.Width(), w, h);
      assert r.Height() == base.Height();
    } else {
      ScaledSideFits(base.Width(), base.Height(), h, w);
      assert r.Width() == base.Width();
    }
  }

  /**
   * Scaling the binding side `kept` by `num/den` gives a side of the content's
   * aspect that does not exceed the other side `room` of the container.
   */
  lemma ScaledSideFits(kept: real, room: real, num: real, den: real)
    requires kept > 0.0 && num > 0.0 && den > 0.0
    requires room * den >= kept * num
    ensures kept * num / den * den == kept * num
    ensures 0.0 < kept * num / den <= room
  {
    var side := kept * num / den;
    assert side * den == kept * num;
    assert (room - side) * den >= 0.0;
  }

  /** When the aspect ratios agree, the fitted rectangle is the container itself. */
  lemma FitSameAspectIsIdentity(base: Rect, w: real, h: real)
    requires w > 0.0 && h > 0.0 && base.Width() > 0.0 && base.Height() > 0.0
    requires base.Width() * h == base.Height() * w
    ensures FitVideoRect(base, w, h) == base
  {
    TooWideByCrossProduct(base, w, h);
    var nh := base.Width() * h / w;
    assert nh * w == base.Height() * w;
    assert (nh - base.Height()) * w == 0.0;
  }

  /** A 16:9 container and 4:3 content: full height, width `height * 4 / 3`, centred. */
  lemma FitWideContainer(x0: real, y0: real, unit: real)
    requires unit > 0.0
    ensures var base := Rect(x0, y0, x0 + 16.0 * unit, y0 + 9.0 * unit);
      var r := FitVideoRect(base, 4.0, 3.0);
      r == Rect(x0 + 2.0 * unit, y0, x0 + 14.0 * unit, y0 + 9.0 * unit) &&
      r.Width() == base.Height() * 4.0 / 3.0
  {
    var base := Rect(x0, y0, x0 + 16.0 * unit, y0 + 9.0 * unit);
    TooWideByCrossProduct(base, 4.0, 3.0);
  }

  /** A 4:3 container and 16:9 content: full width, height `width * 9 / 16`, centred. */
  lemma FitTallContainer(x0: real, y0: real, unit: real)
    requires unit > 0.0
    ensures var base := Rect(x0, y0, x0 + 16.0 * unit, y0 + 12.0 * unit);
      var r := FitVideoRect(base, 16.0, 9.0);
      r == Rect(x0, y0 + 1.5 * unit, x0 + 16.0 * unit, y0 + 10.5 * unit) &&
      r.Height() == base.Width() * 9.0 / 16.0
  {
    var base := Rect(x0, y0, x0 + 16.0 * unit, y0 + 12.0 * unit);
    TooWideByCrossProduct(base, 16.0, 9.0);
  }

  // ---------------------------------------------------------------------------
  // Samples and their metadata
  // ---------------------------------------------------------------------------

  /** A frame dimension; raw-video caps fix width and height to at least 1. */
  type Dimension = n: int | 0 < n < 0x8000_0000 witness 1

  /** A caps field as the `i32` getter sees it. */
  datatype FieldValue =
    | IntValue(n: Dimension)   // an integer field
    | NullValue                // a field holding no value
    | OtherType                // a field of another type

  /** One caps structure: named fields. */
  type Structure = map<string, FieldValue>

  /** A sample's capabilities: a list of structures, the first of which describes the frame. */
  datatype Caps = Caps(structures: seq<Structure>)

  /** A sample's buffer: whether it can be mapped for reading, and its bytes. */
  datatype Buffer = Buffer(readable: bool, bytes: seq<bv8>)

  /** A decoded sample as the sink hands it over: optional caps and an optional buffer. */
  datatype Sample = Sample(caps: Option<Caps>, buffer: Option<Buffer>)

  /** Why a caps field could not be read. */
  datatype GetPropertyError =
    | NoCaps                   // the caps hold no structure
    | NoProperty(name: string) // the field holds no value
    | Get(field: string)       // the field is missing or of another type

  /** Why a paint found nothing to draw. */
  datatype PaintError =
    | NoSample
    | NoCapsSet
    | BufferError
    | GetProperty(cause: GetPropertyError)
    | Glib                     // the buffer could not be mapped for reading

  /**
   * `caps_property`: reads an integer field from the first structure of the
   * caps. No structure is `NoCaps`; a missing field or one of another type
   * is a `Get` error; a field holding no value is `NoProperty`.
   */
  function CapsProperty(caps: Caps, name: string): (r: Result<Dimension, GetPropertyError>)
    ensures r == Err(NoCaps) <==> caps.structures == []
    ensures r.Ok? <==> caps.structures != [] && name in caps.structures[0]
                       && caps.structures[0][name].IntValue?
    ensures r.Ok? ==> r.value == caps.structures[0][name].n
    ensures r == Err(NoProperty(name)) <==>
      caps.structures != [] && name in caps.structures[0] && caps.structures[0][name] == NullValue
    ensures r.Err? ==> r.error in {NoCaps, NoProperty(name), Get(name)}
  {
    if caps.structures == [] then Err(NoCaps)
    else
      var cap := caps.structures[0];
      if name !in cap then Err(Get(name))
      else match cap[name]
        case IntValue(n) => Ok(n)
        case NullValue => Err(NoProperty(name))
        case OtherType => Err(Get(name))
  }

  /** A frame ready to draw: its size and its pixel bytes. */
  datatype Frame = Frame(width: Dimension, height: Dimension, pixels: seq<bv8>)

  /**
   * `get_sample_image`: the checks run in a fixed order, and the first one
   * that fails decides the error: no sample, no caps, the width field, the
   * height field, no buffer, a buffer that cannot be mapped.
   */
  function SampleImage(slot: Option<Sample>): (r: Result<Frame, PaintError>)
    ensures r == Err(NoSample) <==> slot.None?
    ensures r == Err(NoCapsSet) <==> slot.Some? && slot.value.caps.None?
    ensures r.Err? && r.error.GetProperty? ==>
      slot.Some? && slot.value.caps.Some? &&
      (CapsProperty(slot.value.caps.value, "width").Err? ||
       CapsProperty(slot.value.caps.value, "height").Err?)
    ensures (slot.Some? && slot.value.caps.Some? &&
             CapsProperty(slot.value.caps.value, "width").Err?) ==>
      r == Err(GetProperty(CapsProperty(slot.value.caps.value, "width").error))
    ensures (slot.Some? && slot.value.caps.Some? &&
             CapsProperty(slot.value.caps.value, "width").Ok? &&
             CapsProperty(slot.value.caps.value, "height").Err?) ==>
      r == Err(GetProperty(CapsProperty(slot.value.caps.value, "height").error))
    ensures r == Err(BufferError) <==>
      slot.Some? && slot.value.caps.Some? &&
      CapsProperty(slot.value.caps.value, "width").Ok? &&
      CapsProperty(slot.value.caps.value, "height").Ok? &&
      slot.value.buffer.None?
    ensures r == Err(Glib) <==>
      slot.Some? && slot.value.caps.Some? &&
      CapsProperty(slot.value.caps.value, "width").Ok? &&
      CapsProperty(slot.value.caps.value, "height").Ok? &&
      slot.value.buffer.Some? && !slot.value.buffer.value.readable
    ensures r.Ok? <==>
      slot.Some? && slot.value.caps.Some? &&
      CapsProperty(slot.value.caps.value, "width").Ok? &&
      CapsProperty(slot.value.caps.value, "height").Ok? &&
      slot.value.buffer.Some? && slot.value.buffer.value.readable
    ensures r.Ok? ==>
      r.value.width == CapsProperty(slot.value.caps.value, "width").value &&
      r.value.height == CapsProperty(slot.value.caps.value, "height").value &&
      r.value.pixels == slot.value.buffer.value.bytes
  {
    match slot
    case None => Err(NoSample)
    case Some(sample) =>
      match sample.caps
      case None => Err(NoCapsSet)
      case Some(caps) =>
        match CapsProperty(caps, "width")
        case Err(e) => Err(GetProperty(e))
        case Ok(width) =>
          match CapsProperty(caps, "height")
          case Err(e) => Err(GetProperty(e))
          case Ok(height) =>
            match sample.buffer
            case None => Err(BufferError)
            case Some(buffer) =>
              if !buffer.readable then Err(Glib)
              else Ok(Frame(width, height, buffer.bytes))
  }

  /** What one paint does: draw a frame into a rectangle, or log at debug or error level. */
  datatype PaintAction =
    | Draw(frame: Frame, dest: Rect)
    | LogDebug
    | LogError(error: PaintError)

  /**
   * `VideoPlayer::paint` on a widget of size `width` x `height`: a missing
   * sample is the expected case before the first frame and is only logged
   * at debug level; any other failure is logged as an error; a frame is
   * drawn letterboxed into the widget.
   */
  function Paint(slot: Option<Sample>, width: real, height: real): (a: PaintAction)
    ensures a.LogDebug? <==> slot.None?
    ensures a.LogError? <==> SampleImage(slot).Err? && slot.Some?
    ensures a.LogError? ==> a.error == SampleImage(slot).error
    ensures a.Draw? <==> SampleImage(slot).Ok?
    ensures a.Draw? ==> SampleImage(slot) == Ok(a.frame)
    ensures a.Draw? ==> a.dest == FitVideoRect(Rect(0.0, 0.0, width, height),
                                               a.frame.width as real, a.frame.height as real)
  {
    match SampleImage(slot)
    case Ok(frame) =>
      var widget := Rect(0.0, 0.0, width, height);
      Draw(frame, FitVideoRect(widget, frame.width as real, frame.height as real))
    case Err(NoSample) => LogDebug
    case Err(e) => LogError(e)
  }

  /**
   * On a widget of positive size, a drawn frame keeps its aspect ratio,
   * stays inside the widget, spans it along one axis and is centred in it.
   */
  lemma PaintDrawsLetterboxed(slot: Option<Sample>, width: real, height: real)
    requires width > 0.0 && height > 0.0
    requires Paint(slot, width, height).Draw?
    ensures var a := Paint(slot, width, height);
      var widget := Rect(0.0, 0.0, width, height);
      Inside(a.dest, widget) &&
      a.dest.Width() * (a.frame.height as real) == a.dest.Height() * (a.frame.width as real) &&
      (a.dest.Width() == width || a.dest.Height() == height) &&
      a.dest.x0 + a.dest.x1 == width && a.dest.y0 + a.dest.y1 == height
  {
    var a := Paint(slot, width, height);
    FitIsLetterbox(Rect(0.0, 0.0, width, height), a.frame.width as real, a.frame.height as real);
  }

  // ---------------------------------------------------------------------------
  // The sample slot
  // ---------------------------------------------------------------------------

  /** What the slot holds after a callback that pulled `pulled` (None: the pull failed). */
  function Stored(current: Option<Sample>, pulled: Option<Sample>): (next: Option<Sample>)
    ensures pulled.Some? ==> next == pulled
    ensures pulled.None? ==> next == current
  {
    if pulled.Some? then pulled else current
  }

  /** The decoder's callbacks; a pull result of None is a failed pull. */
  datatype Callback = NewSample(pulled: Option<Sample>) | NewPreroll(pulled: Option<Sample>) | Eos

  /** The slot's content after a run of callbacks, starting from `init`. */
  function AfterCallbacks(init: Option<Sample>, callbacks: seq<Callback>): (r: Option<Sample>)
    ensures r == init || exists i :: 0 <= i < |callbacks| && !callbacks[i].Eos? && callbacks[i].pulled == r
    ensures r.None? ==> init.None?
    decreases |callbacks|
  {
    if callbacks == [] then init
    else
      var c := callbacks[0];
      var next := if c.Eos? then init else Stored(init, c.pulled);
      AfterCallbacks(next, callbacks[1..])
  }

  /** The most recent successfully pulled sample in a run of callbacks, if any. */
  function LastPulled(callbacks: seq<Callback>): Option<Sample>
    decreases |callbacks|
  {
    if callbacks == [] then None
    else
      var c := callbacks[|callbacks| - 1];
      if !c.Eos? && c.pulled.Some? then c.pulled
      else LastPulled(callbacks[..|callbacks| - 1])
  }

  /**
   * Last writer wins: after any run of callbacks the slot holds the most
   * recently pulled sample; when no pull succeeded (only failed pulls and
   * end-of-stream notices) it still holds what it held before.
   */
  lemma {:induction false} LastWriterWins(init: Option<Sample>, callbacks: seq<Callback>)
    ensures AfterCallbacks(init, callbacks)
         == if LastPulled(callbacks).Some? then LastPulled(callbacks) else init
    decreases |callbacks|
  {
    if callbacks != [] {
      var n := |callbacks| - 1;
      var prefix, last := callbacks[..n], callbacks[n];
      assert callbacks == prefix + [last];
      AfterCallbacksAppend(init, prefix, last);
      LastWriterWins(init, prefix);
    }
  }

  /** Running one more callback after a run. */
  lemma {:induction false} AfterCallbacksAppend(init: Option<Sample>, callbacks: seq<Callback>, last: Callback)
    ensures var before := AfterCallbacks(init, callbacks);
      AfterCallbacks(init, callbacks + [last])
        == if last.Eos? then before else Stored(before, last.pulled)
    decreases |callbacks|
  {
    if callbacks == [] {
      assert [last][1..] == [];
    } else {
      var c := callbacks[0];
      var next := if c.Eos? then init else Stored(init, c.pulled);
      assert (callbacks + [last])[0] == c;
      assert (callbacks + [last])[1..] == callbacks[1..] + [last];
      AfterCallbacksAppend(next, callbacks[1..], last);
    }
  }

  /**
   * The frame cell shared by the decoder's callbacks (writers) and paint
   * (reader). Taken sequentially, without the lock around it.
   */
  class SampleSlot {
    var sample: Option<Sample>

    /** The slot starts empty. */
    constructor ()
      ensures sample == None
    {
      sample := None;
    }

    /** The `new_sample` callback: a successful pull replaces the content; a failed one leaves it. */
    method NewSample(pulled: Option<Sample>)
      modifies this
      ensures sample == Stored(old(sample), pulled)
    {
      if pulled.Some? {
        sample := pulled;
      }
    }

    /** The `new_preroll` callback: the same replacement, for the first frame before playback. */
    method NewPreroll(pulled: Option<Sample>)
      modifies this
      ensures sample == Stored(old(sample), pulled)
    {
      if pulled.Some? {
        sample := pulled;
      }
    }

    /** The `eos` callback only reports the end of the stream; the slot keeps its frame. */
    method Eos()
      ensures unchanged(this)
    {
    }

    /** What a paint sees: the current content, unchanged. */
    method Snapshot() returns (s: Option<Sample>)
      ensures s == sample
    {
      s := sample;
    }
  }
}
