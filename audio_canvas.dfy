/**
 * `useAudioCanvas` (src/composables/audio-canvas.ts): draws the normalised
 * samples as a row of segments, one per sample, on a 2D canvas context.
 *
 * Numbers are reals (no floating-point rounding). The context is modelled
 * by the log of drawing commands it receives and by the vertical offset of
 * its origin; a caller-supplied segment drawer is recorded as one call with
 * its arguments, since what it draws is the caller's.
 */
module AudioCanvas {
  import opened Wrappers

  /** An angle in radians, written as a multiple of pi. */
  datatype Angle = PiTimes(k: real)

  /** What the context is asked to do. */
  datatype Command =
    | SetLineWidth(lineWidth: real)
    | SetStrokeStyle(color: string)
    | BeginPath
    | MoveTo(x: real, y: real)
    | LineTo(x: real, y: real)
    | Arc(cx: real, cy: real, radius: real, start: Angle, end: Angle, anticlockwise: bool)
    | Stroke
    | ClearRect(x: real, y: real, w: real, h: real)
    | Translate(dx: real, dy: real)
    | CustomSegment(x: real, y: real, width: real, isEven: bool, color: string)

  /** The parent element, of which only the width is read. */
  datatype ParentElement = ParentElement(clientWidth: real)

  /** The options of `useAudioCanvas`, with the two refs read at draw time.
      `samples` is part of the options but `draw` does not read it. */
  datatype CanvasOptions = CanvasOptions(
    parentEl: Option<ParentElement>,
    audioBuffer: Option<seq<real>>,
    height: real,
    samples: int,
    lineWidth: real,
    hasCustomDrawer: bool)

  /** A 2D rendering context. */
  class Context {
    var commands: seq<Command>
    /** The vertical offset of the origin set by `translate`. */
    var originY: real
  }

  /** A canvas element: its size attributes, its laid-out width and the
      context `getContext("2d")` returns (null when there is none). */
  class CanvasElement {
    var width: real
    var height: real
    const offsetWidth: real
    const context: Context?
  }

  /** One segment as `draw` passes it to the segment drawer. */
  datatype Segment = Segment(x: real, height: real, width: real, isEven: bool)

  /** Lines 53-59: the derived height, clamped. */
  function ClampHeight(h: real, maxHeight: real): real
  {
    if h < 0.0 then 0.0
    else if h > maxHeight / 2.0 then maxHeight / 4.0
    else h
  }

  /** Line 61: `!!((i + 1) % 2)`. */
  predicate IsEvenSlot(i: nat)
  {
    (i + 1) % 2 != 0
  }

  /** `options.audioBuffer.value ?? []`. */
  function Samples(o: CanvasOptions): seq<real>
  {
    if o.audioBuffer.Some? then o.audioBuffer.value else []
  }

  /** The segments `draw` emits for `buffer` on a canvas `offsetWidth` wide:
      slot width `offsetWidth / n`, segment `i` at `i` slot widths. */
  function Segments(buffer: seq<real>, offsetWidth: real, maxHeight: real): (segs: seq<Segment>)
    ensures |segs| == |buffer|
  {
    seq(|buffer|, i requires 0 <= i < |buffer| => SegmentAt(buffer, offsetWidth, maxHeight, i))
  }

  /** Segment `i` of `Segments`. */
  function SegmentAt(buffer: seq<real>, offsetWidth: real, maxHeight: real, i: nat): Segment
    requires i < |buffer|
  {
    var width := offsetWidth / (|buffer| as real);
    Segment(width * (i as real), ClampHeight(buffer[i] * maxHeight, maxHeight), width, IsEvenSlot(i))
  }

  /** Lines 22-33: the commands of the default segment drawer. */
  function DefaultSegment(x: real, y: real, width: real, isEven: bool, color: string, lineWidth: real): seq<Command>
  {
    var y' := if isEven then y else -y;
    [SetLineWidth(lineWidth), SetStrokeStyle(color), BeginPath, MoveTo(x, 0.0), LineTo(x, y'),
     Arc(x + width / 2.0, y', width / 2.0, PiTimes(1.0), PiTimes(0.0), isEven),
     LineTo(x + width, 1.0), Stroke]
  }

  /** What drawing one segment sends to the context. */
  function SegmentCommands(seg: Segment, o: CanvasOptions, color: string): seq<Command>
  {
    if o.hasCustomDrawer then [CustomSegment(seg.x, seg.height, seg.width, seg.isEven, color)]
    else DefaultSegment(seg.x, seg.height, seg.width, seg.isEven, color, o.lineWidth)
  }

  /** The commands for a row of segments, in order. */
  function Render(segs: seq<Segment>, o: CanvasOptions, color: string): seq<Command>
  {
    if segs == [] then []
    else Render(segs[..|segs| - 1], o, color) + SegmentCommands(segs[|segs| - 1], o, color)
  }

  lemma RenderStep(segs: seq<Segment>, i: nat, o: CanvasOptions, color: string)
    requires i < |segs|
    ensures Render(segs[..i + 1], o, color) == Render(segs[..i], o, color) + SegmentCommands(segs[i], o, color)
  {
    assert segs[..i + 1][..i] == segs[..i];
  }

  /** `RenderStep` behind the commands already on the context. */
  lemma RenderExtend(prefix: seq<Command>, segs: seq<Segment>, i: nat, o: CanvasOptions, color: string)
    requires i < |segs|
    ensures prefix + Render(segs[..i + 1], o, color)
         == (prefix + Render(segs[..i], o, color)) + SegmentCommands(segs[i], o, color)
  {
    RenderStep(segs, i, o, color);
  }

  /** The objects `draw` may change. */
  function DrawFrame(target: CanvasElement?): set<object>
  {
    if target == null then {}
    else if target.context == null then {target}
    else {target, target.context}
  }

  /** The default `drawLineSegment`: `y` is negated for odd slots. */
  method DrawLineSegment(ctx: Context, x: real, y: real, width: real, isEven: bool, color: string, lineWidth: real)
    modifies ctx
    ensures ctx.commands == old(ctx.commands) + DefaultSegment(x, y, width, isEven, color, lineWidth)
    ensures ctx.originY == old(ctx.originY)
  {
    ctx.commands := ctx.commands + [SetLineWidth(lineWidth), SetStrokeStyle(color), BeginPath];
    var y := if isEven then y else -y;
    ctx.commands := ctx.commands + [MoveTo(x, 0.0), LineTo(x, y)];
    ctx.commands := ctx.commands + [Arc(x + width / 2.0, y, width / 2.0, PiTimes(1.0), PiTimes(0.0), isEven)];
    ctx.commands := ctx.commands + [LineTo(x + width, 1.0), Stroke];
  }

  /** `draw(target, color)`. Nothing happens without a parent element or a
      canvas; without a context only the canvas size is set. Setting the
      canvas size resets the context's transform (HTML Living Standard, the
      canvas element), so the origin ends exactly at half the canvas height. */
  method Draw(o: CanvasOptions, target: CanvasElement?, color: string)
    modifies DrawFrame(target)
    ensures target != null && o.parentEl.None? ==> unchanged(DrawFrame(target))
    ensures target != null && o.parentEl.Some? ==>
      target.width == o.parentEl.value.clientWidth && target.height == o.height + 20.0
    ensures target != null && o.parentEl.Some? && target.context != null ==>
      && target.context.commands ==
           old(target.context.commands)
           + [ClearRect(0.0, 0.0, target.width, o.height + 20.0), Translate(0.0, (o.height + 20.0) / 2.0)]
           + Render(Segments(Samples(o), target.offsetWidth, o.height), o, color)
      && target.context.originY == (o.height + 20.0) / 2.0
  {
    if o.parentEl.None? || target == null {
      return;
    }
    target.width := o.parentEl.value.clientWidth;
    target.height := o.height + 20.0;
    var ctx := target.context;
    if ctx == null {
      return;
    }
    ctx.originY := 0.0;

    ctx.commands := ctx.commands + [ClearRect(0.0, 0.0, target.width, o.height + 20.0)];
    ctx.commands := ctx.commands + [Translate(0.0, (o.height + 20.0) / 2.0)];
    ctx.originY := ctx.originY + (o.height + 20.0) / 2.0;

    DrawSegments(ctx, Samples(o), target.offsetWidth, o, color);
  }

  /** Lines 52-61: the position, clamped height and parity of sample `i`,
      given the slot width. */
  method ProjectSample(buffer: seq<real>, offsetWidth: real, maxHeight: real, width: real, i: nat)
    returns (seg: Segment)
    requires i < |buffer| && width == offsetWidth / (|buffer| as real)
    ensures seg == SegmentAt(buffer, offsetWidth, maxHeight, i)
  {
    var x := width * (i as real);
    var height := buffer[i] * maxHeight;
    if height < 0.0 {
      height := 0.0;
    } else if height > maxHeight / 2.0 {
      height := maxHeight / 4.0;
    }
    var isEven := (i + 1) % 2 != 0;
    seg := Segment(x, height, width, isEven);
    assert height == ClampHeight(buffer[i] * maxHeight, maxHeight);
    SegmentAtHeight(buffer, offsetWidth, maxHeight, i);
  }

  lemma SegmentAtHeight(buffer: seq<real>, offsetWidth: real, maxHeight: real, i: nat)
    requires i < |buffer|
    ensures SegmentAt(buffer, offsetWidth, maxHeight, i).height == ClampHeight(buffer[i] * maxHeight, maxHeight)
  {
  }

  /** Line 61: the caller's `drawLineSegment` if there is one, else the
      default. */
  method DrawSegment(ctx: Context, seg: Segment, o: CanvasOptions, color: string)
    modifies ctx
    ensures ctx.commands == old(ctx.commands) + SegmentCommands(seg, o, color)
    ensures ctx.originY == old(ctx.originY)
  {
    if o.hasCustomDrawer {
      ctx.commands := ctx.commands + [CustomSegment(seg.x, seg.height, seg.width, seg.isEven, color)];
    } else {
      DrawLineSegment(ctx, seg.x, seg.height, seg.width, seg.isEven, color, o.lineWidth);
    }
  }

  /** Lines 47-62: the loop over the samples, one segment per index. */
  method DrawSegments(ctx: Context, buffer: seq<real>, offsetWidth: real, o: CanvasOptions, color: string)
    modifies ctx
    ensures ctx.commands == old(ctx.commands) + Render(Segments(buffer, offsetWidth, o.height), o, color)
    ensures ctx.originY == old(ctx.originY)
  {
    var n := |buffer|;
    // With no samples the slot width would not be finite; the loop does not run then.
    var width := if n == 0 then 0.0 else offsetWidth / (n as real);
    ghost var prefix := ctx.commands;
    ghost var segs := Segments(buffer, offsetWidth, o.height);

    for i := 0 to n
      invariant ctx.commands == prefix + Render(segs[..i], o, color)
      invariant ctx.originY == old(ctx.originY)
    {
      var seg := ProjectSample(buffer, offsetWidth, o.height, width, i);
      assert seg == segs[i];
      DrawSegment(ctx, seg, o, color);
      RenderExtend(prefix, segs, i, o, color);
    }
    assert segs[..n] == segs;
  }
}
