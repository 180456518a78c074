/** What the calls of grx_draw_box look like: independence from corner order,
    the overlay bracket, which sides are drawn, and the shape of every run. */
module BoxLaws {
  import opened Colors
  import opened Box

  predicate IsRun(call: Call) {
    call.HLine? || call.VLine?
  }

  /** Only the order of the two corners along each axis is lost: swapping the x
      coordinates, the y coordinates, or both gives the same calls. */
  lemma BoxCornerOrder(ctx: Context, x1: int, y1: int, x2: int, y2: int, c: Color)
    ensures BoxCalls(ctx, x2, y1, x1, y2, c) == BoxCalls(ctx, x1, y1, x2, y2, c)
    ensures BoxCalls(ctx, x1, y2, x2, y1, c) == BoxCalls(ctx, x1, y1, x2, y2, c)
    ensures BoxCalls(ctx, x2, y2, x1, y1, c) == BoxCalls(ctx, x1, y1, x2, y2, c)
  {
    assert Normalize(x2, y1, x1, y2) == Normalize(x1, y1, x2, y2);
    assert Normalize(x1, y2, x2, y1) == Normalize(x1, y1, x2, y2);
    assert Normalize(x2, y2, x1, y1) == Normalize(x1, y1, x2, y2);
  }

  /** The runs only ever append draws to the log they are given. */
  lemma EdgesAppendRuns(ctx: Context, o: Rect, k: Rect, c: Color, log: seq<Call>)
    ensures var e := Edges(ctx, o, k, c, log);
      |e| >= |log| && e[..|log|] == log && forall i :: |log| <= i < |e| ==> IsRun(e[i])
  {
  }

  /** A box that shares no pixel with the clip window makes no call at all, not
      even to the overlay; any other box is one mouse_block over its visible part,
      then runs only, then one mouse_unblock. */
  lemma BoxBracketing(ctx: Context, x1: int, y1: int, x2: int, y2: int, c: Color)
    ensures var calls := BoxCalls(ctx, x1, y1, x2, y2, c);
      && (calls == [] <==> !exists x, y :: InRect(Normalize(x1, y1, x2, y2), x, y) && InRect(ctx.clip, x, y))
      && (calls != [] ==>
            && |calls| >= 2
            && calls[0].Block?
            && (forall x, y :: InRect(Rect(calls[0].x1, calls[0].y1, calls[0].x2, calls[0].y2), x, y)
                               <==> InRect(Normalize(x1, y1, x2, y2), x, y) && InRect(ctx.clip, x, y))
            && calls[|calls| - 1] == Unblock
            && forall i :: 0 < i < |calls| - 1 ==> IsRun(calls[i]))
  {
    var o := Normalize(x1, y1, x2, y2);
    ClipOrdBoxMeaning(ctx.clip, o);
    var r := ClipOrdBox(ctx.clip, o);
    if r.Some? {
      var k := r.value;
      var block := [Block(k.x1, k.y1, k.x2, k.y2)];
      EdgesAppendRuns(ctx, o, k, c, block);
      BoxCallsVisible(ctx, x1, y1, x2, y2, c, k);
    }
  }

  /** Every run is well formed and lies in the visible part of the box, shifted by
      the context's offset into frame coordinates, and carries the box's colour:
      horizontal runs span from one pixel up to the clipped width, vertical runs
      have a positive length. */
  lemma BoxRunsWellFormed(ctx: Context, x1: int, y1: int, x2: int, y2: int, c: Color)
    ensures var calls := BoxCalls(ctx, x1, y1, x2, y2, c);
      var o := Normalize(x1, y1, x2, y2);
      forall i :: 0 <= i < |calls| && IsRun(calls[i]) ==>
        var call := calls[i];
        var x, y := call.x - ctx.xOffset, call.y - ctx.yOffset;
        && call.c == c
        && InRect(o, x, y) && InRect(ctx.clip, x, y)
        && (call.HLine? ==> call.w >= 1 && InRect(o, x + call.w - 1, y) && InRect(ctx.clip, x + call.w - 1, y))
        && (call.VLine? ==> call.h >= 1 && InRect(o, x, y + call.h - 1) && InRect(ctx.clip, x, y + call.h - 1))
  {
    var o := Normalize(x1, y1, x2, y2);
    ClipOrdBoxMeaning(ctx.clip, o);
    var r := ClipOrdBox(ctx.clip, o);
    if r.Some? {
      var k := r.value;
      assert InRect(o, k.x1, k.y1) && InRect(o, k.x2, k.y2);
      BoxCallsVisible(ctx, x1, y1, x2, y2, c, k);
    }
  }

  /** Edges appends its (at most four) runs to the log, in a fixed order. */
  lemma EdgesAsRuns(ctx: Context, o: Rect, k: Rect, c: Color, log: seq<Call>)
    ensures var w, first, h := k.x2 - k.x1 + 1, RunFirst(o, k), RunLast(o, k) - RunFirst(o, k) + 1;
      Edges(ctx, o, k, c, log)
      == log
       + (if TopDrawn(o, k) then [HLine(k.x1 + ctx.xOffset, k.y1 + ctx.yOffset, w, c)] else [])
       + (if BottomDrawn(o, k) then [HLine(k.x1 + ctx.xOffset, k.y2 + ctx.yOffset, w, c)] else [])
       + (if LeftDrawn(o, k) then [VLine(k.x1 + ctx.xOffset, first + ctx.yOffset, h, c)] else [])
       + (if RightDrawn(o, k) then [VLine(k.x2 + ctx.xOffset, first + ctx.yOffset, h, c)] else [])
  {
    var w := k.x2 - k.x1 + 1;
    var first, h := RunFirst(o, k), RunLast(o, k) - RunFirst(o, k) + 1;
    var t := if TopDrawn(o, k) then [HLine(k.x1 + ctx.xOffset, k.y1 + ctx.yOffset, w, c)] else [];
    var b := if BottomDrawn(o, k) then [HLine(k.x1 + ctx.xOffset, k.y2 + ctx.yOffset, w, c)] else [];
    var l := if LeftDrawn(o, k) then [VLine(k.x1 + ctx.xOffset, first + ctx.yOffset, h, c)] else [];
    var r := if RightDrawn(o, k) then [VLine(k.x2 + ctx.xOffset, first + ctx.yOffset, h, c)] else [];
    var log1 := Emit(log, TopDrawn(o, k), HLine(k.x1 + ctx.xOffset, k.y1 + ctx.yOffset, w, c));
    assert log1 == log + t;
    var log2 := Emit(log1, BottomDrawn(o, k), HLine(k.x1 + ctx.xOffset, k.y2 + ctx.yOffset, w, c));
    assert log2 == log + t + b;
    var log3 := Emit(log2, LeftDrawn(o, k), VLine(k.x1 + ctx.xOffset, first + ctx.yOffset, h, c));
    assert log3 == log + t + b + l;
    assert Edges(ctx, o, k, c, log) == Emit(log3, RightDrawn(o, k), VLine(k.x2 + ctx.xOffset, first + ctx.yOffset, h, c));
  }

  /** Edge selection, in terms of the caller's sorted box o, the clip window and
      the visible part k:
      - the top row is drawn iff it was not clipped;
      - the bottom row iff it was not clipped and is not the row of a drawn top;
      - both span the visible columns;
      - the vertical runs start one row below an unclipped top row (else at the
        window's top) and stop one row above an unclipped bottom row (else at the
        window's bottom), so they never repaint a pixel of a horizontal run;
      - when that span is not empty, the left column is drawn iff it was not
        clipped, and the right column iff it was not clipped and is not the
        column of a drawn left edge; otherwise no vertical run is drawn. */
  lemma BoxEdgeSelection(ctx: Context, x1: int, y1: int, x2: int, y2: int, c: Color)
    requires exists x, y :: InRect(Normalize(x1, y1, x2, y2), x, y) && InRect(ctx.clip, x, y)
    ensures var o, clip := Normalize(x1, y1, x2, y2), ctx.clip;
      var k := ClipOrdBox(clip, o).value;
      var topKept, bottomKept := o.y1 >= clip.y1, o.y2 <= clip.y2;
      var leftKept, rightKept := o.x1 >= clip.x1, o.x2 <= clip.x2;
      var first := if topKept then o.y1 + 1 else clip.y1;
      var last := if bottomKept then o.y2 - 1 else clip.y2;
      var w, h := k.x2 - k.x1 + 1, last - first + 1;
      BoxCalls(ctx, x1, y1, x2, y2, c)
      == [Block(k.x1, k.y1, k.x2, k.y2)]
       + (if topKept then [HLine(k.x1 + ctx.xOffset, o.y1 + ctx.yOffset, w, c)] else [])
       + (if bottomKept && !(topKept && o.y1 == o.y2) then [HLine(k.x1 + ctx.xOffset, o.y2 + ctx.yOffset, w, c)] else [])
       + (if first <= last && leftKept then [VLine(o.x1 + ctx.xOffset, first + ctx.yOffset, h, c)] else [])
       + (if first <= last && rightKept && !(leftKept && o.x1 == o.x2) then [VLine(o.x2 + ctx.xOffset, first + ctx.yOffset, h, c)] else [])
       + [Unblock]
  {
    var o := Normalize(x1, y1, x2, y2);
    ClipOrdBoxMeaning(ctx.clip, o);
    var k := ClipOrdBox(ctx.clip, o).value;
    BoxCallsVisible(ctx, x1, y1, x2, y2, c, k);
    EdgesAsRuns(ctx, o, k, c, [Block(k.x1, k.y1, k.x2, k.y2)]);
  }

  /** A one-pixel box inside the clip window is a single one-pixel horizontal
      run, at the pixel shifted by the context's offset. */
  lemma BoxSinglePixel(ctx: Context, x: int, y: int, c: Color)
    requires InRect(ctx.clip, x, y)
    ensures BoxCalls(ctx, x, y, x, y, c) == [Block(x, y, x, y), HLine(x + ctx.xOffset, y + ctx.yOffset, 1, c), Unblock]
  {
    BoxCallsVisible(ctx, x, y, x, y, c, Rect(x, y, x, y));
  }

  /** Framing a whole w-by-h context, as the test programs do with
      grx_draw_box(0, 0, w - 1, h - 1, c): the top row, the bottom row when it is
      another row, and the two side columns between them when there is room. */
  lemma BoxFramesContext(w: int, h: int, xOffset: int, yOffset: int, c: Color)
    requires w >= 1 && h >= 1
    ensures var ctx := Context(Rect(0, 0, w - 1, h - 1), xOffset, yOffset);
      BoxCalls(ctx, 0, 0, w - 1, h - 1, c)
      == [Block(0, 0, w - 1, h - 1), HLine(xOffset, yOffset, w, c)]
       + (if h > 1 then [HLine(xOffset, h - 1 + yOffset, w, c)] else [])
       + (if h > 2 then [VLine(xOffset, 1 + yOffset, h - 2, c)] else [])
       + (if h > 2 && w > 1 then [VLine(w - 1 + xOffset, 1 + yOffset, h - 2, c)] else [])
       + [Unblock]
  {
    var ctx := Context(Rect(0, 0, w - 1, h - 1), xOffset, yOffset);
    BoxCallsVisible(ctx, 0, 0, w - 1, h - 1, c, Rect(0, 0, w - 1, h - 1));
  }

  /** Clipping is idempotent: the visible part of a box is its own visible part. */
  lemma ClipOrdBoxIdempotent(clip: Rect, b: Rect)
    requires ClipOrdBox(clip, b).Some?
    ensures ClipOrdBox(clip, ClipOrdBox(clip, b).value) == ClipOrdBox(clip, b)
  {
  }
}
