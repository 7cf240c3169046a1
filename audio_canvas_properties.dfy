/**
 * What `draw` and the default segment drawer of `useAudioCanvas`
 * (src/composables/audio-canvas.ts) promise, proved about `Segments`,
 * `ClampHeight` and `Render`.
 */
module AudioCanvasProperties {
  import opened AudioCanvas

  /** The clamp law: a negative height becomes 0, a height above half the
      configured height becomes a quarter of it, any other passes through;
      so for a non-negative configured height every result lies in
      `[0, maxHeight / 2]`. */
  lemma ClampLaw(h: real, maxHeight: real)
    requires maxHeight >= 0.0
    ensures 0.0 <= ClampHeight(h, maxHeight) <= maxHeight / 2.0
    ensures h < 0.0 ==> ClampHeight(h, maxHeight) == 0.0
    ensures h >= 0.0 && h > maxHeight / 2.0 ==> ClampHeight(h, maxHeight) == maxHeight / 4.0
    ensures 0.0 <= h <= maxHeight / 2.0 ==> ClampHeight(h, maxHeight) == h
  {
  }

  /** The clamp is not monotone: just above half the configured height the
      result drops to a quarter, below what half the height itself gives. */
  lemma ClampDropsAboveHalf(maxHeight: real)
    requires maxHeight > 0.0
    ensures ClampHeight(maxHeight * 0.75, maxHeight) < ClampHeight(maxHeight / 2.0, maxHeight)
  {
  }

  /** Parity: the flag is true exactly for even indices. */
  lemma IsEvenSlotIffEven(i: nat)
    ensures IsEvenSlot(i) <==> i % 2 == 0
  {
  }

  /** Segment `i`: slot width `offsetWidth / n`, x at `i` slot widths, the
      clamped height of `buffer[i] * maxHeight`, and the parity of `i`. */
  lemma SegmentsLaw(buffer: seq<real>, offsetWidth: real, maxHeight: real)
    ensures var segs := Segments(buffer, offsetWidth, maxHeight);
      && |segs| == |buffer|
      && forall i :: 0 <= i < |segs| ==>
           && segs[i].width == offsetWidth / (|buffer| as real)
           && segs[i].x == segs[i].width * (i as real)
           && segs[i].height == ClampHeight(buffer[i] * maxHeight, maxHeight)
           && (segs[i].isEven <==> i % 2 == 0)
  {
  }

  /** Example of `SegmentsLaw`: five samples on a canvas 100 wide give slots
      of 20, segment `i` at `20 i`. */
  lemma FiveSlotsOfTwenty(buffer: seq<real>, maxHeight: real)
    requires |buffer| == 5
    ensures var segs := Segments(buffer, 100.0, maxHeight);
      forall i :: 0 <= i < 5 ==> segs[i].width == 20.0 && segs[i].x == 20.0 * (i as real)
  {
  }

  /** Example of `SegmentsLaw`: of four samples, segments 0 and 2 take one arc
      direction, 1 and 3 the other. */
  lemma FourSamplesAlternate(buffer: seq<real>, offsetWidth: real, maxHeight: real)
    requires |buffer| == 4
    ensures var segs := Segments(buffer, offsetWidth, maxHeight);
      segs[0].isEven && !segs[1].isEven && segs[2].isEven && !segs[3].isEven
  {
  }

  /** A caller-supplied drawer replaces the default for every segment, and
      gets each segment's own arguments, in index order. */
  lemma {:induction false} CustomDrawerCalledPerSegment(segs: seq<Segment>, o: CanvasOptions, color: string)
    requires o.hasCustomDrawer
    ensures |Render(segs, o, color)| == |segs|
    ensures forall i :: 0 <= i < |segs| ==>
      Render(segs, o, color)[i] == CustomSegment(segs[i].x, segs[i].height, segs[i].width, segs[i].isEven, color)
  {
    if segs != [] {
      CustomDrawerCalledPerSegment(segs[..|segs| - 1], o, color);
    }
  }

  /** With the default drawer each segment is drawn by its own eight
      commands, in index order. */
  lemma {:induction false} DefaultDrawerPerSegment(segs: seq<Segment>, o: CanvasOptions, color: string)
    requires !o.hasCustomDrawer
    ensures |Render(segs, o, color)| == 8 * |segs|
    ensures forall i :: 0 <= i < |segs| ==>
      Render(segs, o, color)[8 * i..8 * i + 8] == SegmentCommands(segs[i], o, color)
  {
    if segs != [] {
      var init := segs[..|segs| - 1];
      var last := segs[|segs| - 1];
      DefaultDrawerPerSegment(init, o, color);
      var r := Render(segs, o, color);
      var front := Render(init, o, color);
      var tail := SegmentCommands(last, o, color);
      assert |tail| == 8;
      assert r == front + tail;
      forall i | 0 <= i < |segs|
        ensures r[8 * i..8 * i + 8] == SegmentCommands(segs[i], o, color)
      {
        BlockOfAppend(front, tail, |init|, i);
        if i < |init| {
          assert segs[i] == init[i];
        }
      }
    }
  }

  /** Block `i` of eight commands after eight more are appended. */
  lemma BlockOfAppend(front: seq<Command>, tail: seq<Command>, k: nat, i: nat)
    requires |front| == 8 * k && |tail| == 8 && i <= k
    ensures (front + tail)[8 * i..8 * i + 8] == if i < k then front[8 * i..8 * i + 8] else tail
  {
  }

  /** The default drawer's geometry: the stroke goes from `(x, 0)` to height
      `y` for an even slot and `-y` for an odd one, then an arc of radius
      `width / 2` centred at `x + width / 2`, with the sweep chosen by the
      parity, and on to `(x + width, 1)`. */
  lemma DefaultSegmentGeometry(x: real, y: real, width: real, isEven: bool, color: string, lineWidth: real)
    ensures var c := DefaultSegment(x, y, width, isEven, color, lineWidth);
      var tip := if isEven then y else -y;
      && |c| == 8
      && c[3] == MoveTo(x, 0.0) && c[4] == LineTo(x, tip)
      && c[5].Arc? && c[5].cx == x + width / 2.0 && c[5].cy == tip && c[5].radius == width / 2.0
      && c[5].anticlockwise == isEven
      && c[6] == LineTo(x + width, 1.0)
  {
  }

  /** The silhouette: with a non-negative configured height, the default
      drawer takes even slots to one side of the axis and odd slots to the
      other, each as far as its clamped height, never beyond half the
      configured height. */
  lemma DrawnSidesAlternate(buffer: seq<real>, offsetWidth: real, o: CanvasOptions, color: string, i: nat)
    requires !o.hasCustomDrawer && o.height >= 0.0 && i < |buffer|
    ensures var segs := Segments(buffer, offsetWidth, o.height);
      var r := Render(segs, o, color);
      && |r| == 8 * |buffer|
      && r[8 * i + 4] == LineTo(segs[i].x, if i % 2 == 0 then segs[i].height else -segs[i].height)
      && 0.0 <= segs[i].height <= o.height / 2.0
  {
    var segs := Segments(buffer, offsetWidth, o.height);
    DrawnTip(segs, o, color, i);
    SegmentFacts(buffer, offsetWidth, o.height, i);
    ClampLaw(buffer[i] * o.height, o.height);
  }

  /** `SegmentsLaw` at one index: the height and the side of segment `i`. */
  lemma SegmentFacts(buffer: seq<real>, offsetWidth: real, maxHeight: real, i: nat)
    requires i < |buffer|
    ensures var seg := Segments(buffer, offsetWidth, maxHeight)[i];
      && seg.height == ClampHeight(buffer[i] * maxHeight, maxHeight)
      && (seg.isEven <==> i % 2 == 0)
  {
    IsEvenSlotIffEven(i);
  }

  /** The stroke of segment `i` reaches its height, negated for odd slots. */
  lemma DrawnTip(segs: seq<Segment>, o: CanvasOptions, color: string, i: nat)
    requires !o.hasCustomDrawer && i < |segs|
    ensures var r := Render(segs, o, color);
      && |r| == 8 * |segs|
      && r[8 * i + 4] == LineTo(segs[i].x, if segs[i].isEven then segs[i].height else -segs[i].height)
  {
    var seg := segs[i];
    DefaultDrawerPerSegment(segs, o, color);
    var r := Render(segs, o, color);
    var block := r[8 * i..8 * i + 8];
    assert r[8 * i + 4] == block[4];
    DefaultSegmentGeometry(seg.x, seg.height, seg.width, seg.isEven, color, o.lineWidth);
  }
}
