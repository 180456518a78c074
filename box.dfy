/** The rectangle-outline rasterizer grx_draw_box: sort the corners, clip the box
    to the context, hide the pointer overlay, emit at most two horizontal and two
    vertical runs through the frame driver, and show the overlay again. */
module Box {
  import opened Colors

  datatype Option<T> = None | Some(value: T)

  /** A box with inclusive pixel bounds; it is empty when x1 > x2 or y1 > y2. */
  datatype Rect = Rect(x1: int, y1: int, x2: int, y2: int)

  /** The parts of the current context the rasterizer reads: the inclusive clip
      window in context coordinates and the offset of the context inside the
      frame the driver writes to. */
  datatype Context = Context(clip: Rect, xOffset: int, yOffset: int)

  /** What grx_draw_box asks of its collaborators, in order. */
  datatype Call =
    | Block(x1: int, y1: int, x2: int, y2: int)  // mouse_block over a box in context coordinates
    | HLine(x: int, y: int, w: int, c: Color)      // drawhline in frame coordinates
    | VLine(x: int, y: int, h: int, c: Color)      // drawvline in frame coordinates
    | Unblock                                      // mouse_unblock

  predicate InRect(r: Rect, x: int, y: int) {
    r.x1 <= x <= r.x2 && r.y1 <= y <= r.y2
  }

  /** The pixels of the border of r: the pixels of r in its first or last row or column. */
  predicate OnOutline(r: Rect, x: int, y: int) {
    InRect(r, x, y) && (x == r.x1 || x == r.x2 || y == r.y1 || y == r.y2)
  }

  /** Whether one driver call writes the frame pixel (px, py). */
  predicate Paints(call: Call, px: int, py: int) {
    match call
    case HLine(x, y, w, _) => py == y && x <= px < x + w
    case VLine(x, y, h, _) => px == x && y <= py < y + h
    case _ => false
  }

  /** 1 when b holds, 0 otherwise: a pixel counted once or not at all. */
  function Ind(b: bool): nat {
    if b then 1 else 0
  }

  /** How many calls of a log write the frame pixel (px, py). */
  function Hits(calls: seq<Call>, px: int, py: int): nat {
    if calls == [] then 0
    else Ind(Paints(calls[0], px, py)) + Hits(calls[1..], px, py)
  }

  lemma {:induction false} HitsAppend(a: seq<Call>, b: seq<Call>, px: int, py: int)
    ensures Hits(a + b, px, py) == Hits(a, px, py) + Hits(b, px, py)
  {
    if a != [] {
      assert (a + b)[1..] == a[1..] + b;
      HitsAppend(a[1..], b, px, py);
    } else {
      assert a + b == b;
    }
  }

  lemma HitsSingle(call: Call, px: int, py: int)
    ensures Hits([call], px, py) == Ind(Paints(call, px, py))
  {
    assert [call][1..] == [];
  }

  /** isort: the two values in ascending order. */
  function Order(a: int, b: int): (r: (int, int))
    ensures r.0 <= r.1
    ensures (r.0 == a && r.1 == b) || (r.0 == b && r.1 == a)
  {
    if a > b then (b, a) else (a, b)
  }

  /** The box with corners (x1, y1) and (x2, y2), each axis sorted on its own. */
  function Normalize(x1: int, y1: int, x2: int, y2: int): Rect {
    var xs, ys := Order(x1, x2), Order(y1, y2);
    Rect(xs.0, ys.0, xs.1, ys.1)
  }

  /** clip_ordbox: raise the low corner to the clip window's low bounds, lower the
      high corner to its high bounds, and give up when nothing is left. */
  function ClipOrdBox(clip: Rect, b: Rect): Option<Rect> {
    var x1 := if b.x1 < clip.x1 then clip.x1 else b.x1;
    var y1 := if b.y1 < clip.y1 then clip.y1 else b.y1;
    var x2 := if b.x2 > clip.x2 then clip.x2 else b.x2;
    var y2 := if b.y2 > clip.y2 then clip.y2 else b.y2;
    if x1 > x2 || y1 > y2 then None else Some(Rect(x1, y1, x2, y2))
  }

  /** Clipping gives up exactly when the box and the window share no pixel, and
      otherwise keeps exactly the shared pixels, as a non-empty box. */
  lemma ClipOrdBoxMeaning(clip: Rect, b: Rect)
    ensures ClipOrdBox(clip, b).Some? <==> exists x, y :: InRect(b, x, y) && InRect(clip, x, y)
    ensures ClipOrdBox(clip, b).Some? ==>
      var k := ClipOrdBox(clip, b).value;
      && k.x1 <= k.x2 && k.y1 <= k.y2
      && forall x, y :: InRect(k, x, y) <==> InRect(b, x, y) && InRect(clip, x, y)
  {
    var r := ClipOrdBox(clip, b);
    if r.Some? {
      assert InRect(b, r.value.x1, r.value.y1) && InRect(clip, r.value.x1, r.value.y1);
    }
  }

  /** Edge selection for a sorted box o whose visible part is k. Each test reads
      "this side of o survived clipping", with the bottom and right sides also
      dropped when they coincide with a drawn top or left side. */
  predicate TopDrawn(o: Rect, k: Rect) {
    k.y1 == o.y1
  }

  predicate BottomDrawn(o: Rect, k: Rect) {
    k.y2 == o.y2 && !(TopDrawn(o, k) && k.y1 == k.y2)
  }

  /** The rows of the vertical runs: inside k, below a surviving top row and
      above a surviving bottom row. */
  function RunFirst(o: Rect, k: Rect): int {
    if k.y1 == o.y1 then k.y1 + 1 else k.y1
  }

  function RunLast(o: Rect, k: Rect): int {
    if k.y2 == o.y2 then k.y2 - 1 else k.y2
  }

  predicate LeftDrawn(o: Rect, k: Rect) {
    RunFirst(o, k) <= RunLast(o, k) && k.x1 == o.x1
  }

  predicate RightDrawn(o: Rect, k: Rect) {
    RunFirst(o, k) <= RunLast(o, k) && k.x2 == o.x2 && !(LeftDrawn(o, k) && k.x1 == k.x2)
  }

  /** A driver call appended to a log when its condition holds. */
  function Emit(log: seq<Call>, cond: bool, call: Call): seq<Call> {
    if cond then log + [call] else log
  }

  /** The log after the driver calls for the outline of o restricted to its
      visible part k: top and bottom runs across k, then the left and right
      runs between them. */
  function Edges(ctx: Context, o: Rect, k: Rect, c: Color, log: seq<Call>): seq<Call> {
    var w := k.x2 - k.x1 + 1;
    var first, h := RunFirst(o, k), RunLast(o, k) - RunFirst(o, k) + 1;
    var log := Emit(log, TopDrawn(o, k), HLine(k.x1 + ctx.xOffset, k.y1 + ctx.yOffset, w, c));
    var log := Emit(log, BottomDrawn(o, k), HLine(k.x1 + ctx.xOffset, k.y2 + ctx.yOffset, w, c));
    var log := Emit(log, LeftDrawn(o, k), VLine(k.x1 + ctx.xOffset, first + ctx.yOffset, h, c));
    Emit(log, RightDrawn(o, k), VLine(k.x2 + ctx.xOffset, first + ctx.yOffset, h, c))
  }

  /** Reference definition of grx_draw_box's calls: nothing when the sorted box
      misses the clip window, otherwise the overlay bracket around the edges. */
  function BoxCalls(ctx: Context, x1: int, y1: int, x2: int, y2: int, c: Color): seq<Call> {
    var o := Normalize(x1, y1, x2, y2);
    match ClipOrdBox(ctx.clip, o)
    case None => []
    case Some(k) => Edges(ctx, o, k, c, [Block(k.x1, k.y1, k.x2, k.y2)]) + [Unblock]
  }

  lemma BoxCallsVisible(ctx: Context, x1: int, y1: int, x2: int, y2: int, c: Color, k: Rect)
    requires ClipOrdBox(ctx.clip, Normalize(x1, y1, x2, y2)) == Some(k)
    ensures BoxCalls(ctx, x1, y1, x2, y2, c)
         == Edges(ctx, Normalize(x1, y1, x2, y2), k, c, [Block(k.x1, k.y1, k.x2, k.y2)]) + [Unblock]
  {
  }

  /** The pixels grx_draw_box promises to paint, in context coordinates: the
      outline of the sorted box, inside the clip window. */
  predicate Outlined(ctx: Context, x1: int, y1: int, x2: int, y2: int, x: int, y: int) {
    OnOutline(Normalize(x1, y1, x2, y2), x, y) && InRect(ctx.clip, x, y)
  }

  lemma HitsEmit(log: seq<Call>, cond: bool, call: Call, px: int, py: int)
    ensures Hits(Emit(log, cond, call), px, py) == Hits(log, px, py) + Ind(cond && Paints(call, px, py))
  {
    if cond {
      HitsAppend(log, [call], px, py);
      HitsSingle(call, px, py);
    }
  }

  /** The edges' hits on one pixel, side by side, in context coordinates (x, y). */
  lemma EdgesHitsSum(ctx: Context, o: Rect, k: Rect, c: Color, log: seq<Call>, px: int, py: int)
    ensures var x, y := px - ctx.xOffset, py - ctx.yOffset;
      Hits(Edges(ctx, o, k, c, log), px, py)
      == Hits(log, px, py)
       + Ind(TopDrawn(o, k) && y == k.y1 && k.x1 <= x <= k.x2)
       + Ind(BottomDrawn(o, k) && y == k.y2 && k.x1 <= x <= k.x2)
       + Ind(LeftDrawn(o, k) && x == k.x1 && RunFirst(o, k) <= y <= RunLast(o, k))
       + Ind(RightDrawn(o, k) && x == k.x2 && RunFirst(o, k) <= y <= RunLast(o, k))
  {
    var w := k.x2 - k.x1 + 1;
    var first, h := RunFirst(o, k), RunLast(o, k) - RunFirst(o, k) + 1;
    var t := HLine(k.x1 + ctx.xOffset, k.y1 + ctx.yOffset, w, c);
    var b := HLine(k.x1 + ctx.xOffset, k.y2 + ctx.yOffset, w, c);
    var l := VLine(k.x1 + ctx.xOffset, first + ctx.yOffset, h, c);
    var r := VLine(k.x2 + ctx.xOffset, first + ctx.yOffset, h, c);
    var log1 := Emit(log, TopDrawn(o, k), t);
    var log2 := Emit(log1, BottomDrawn(o, k), b);
    var log3 := Emit(log2, LeftDrawn(o, k), l);
    HitsEmit(log, TopDrawn(o, k), t, px, py);
    HitsEmit(log1, BottomDrawn(o, k), b, px, py);
    HitsEmit(log2, LeftDrawn(o, k), l, px, py);
    HitsEmit(log3, RightDrawn(o, k), r, px, py);
  }

  /** Counting the sides: a pixel of the visible part k of a sorted box o is
      covered by exactly one drawn side when it lies on the outline of o, and by
      none when it is interior. */
  lemma SidesPartitionOutline(o: Rect, k: Rect, x: int, y: int)
    requires o.x1 <= k.x1 <= k.x2 <= o.x2 && o.y1 <= k.y1 <= k.y2 <= o.y2
    ensures Ind(TopDrawn(o, k) && y == k.y1 && k.x1 <= x <= k.x2)
          + Ind(BottomDrawn(o, k) && y == k.y2 && k.x1 <= x <= k.x2)
          + Ind(LeftDrawn(o, k) && x == k.x1 && RunFirst(o, k) <= y <= RunLast(o, k))
          + Ind(RightDrawn(o, k) && x == k.x2 && RunFirst(o, k) <= y <= RunLast(o, k))
         == Ind(OnOutline(o, x, y) && InRect(k, x, y))
  {
  }

  /** The calls of a box outline paint every visible outline pixel exactly once
      and nothing else: no interior pixel, nothing outside the clip window. */
  lemma BoxExactOutline(ctx: Context, x1: int, y1: int, x2: int, y2: int, c: Color, px: int, py: int)
    ensures Hits(BoxCalls(ctx, x1, y1, x2, y2, c), px, py)
         == Ind(Outlined(ctx, x1, y1, x2, y2, px - ctx.xOffset, py - ctx.yOffset))
  {
    var o := Normalize(x1, y1, x2, y2);
    var x, y := px - ctx.xOffset, py - ctx.yOffset;
    ClipOrdBoxMeaning(ctx.clip, o);
    match ClipOrdBox(ctx.clip, o)
    case None =>
      assert !(InRect(o, x, y) && InRect(ctx.clip, x, y));
    case Some(k) =>
      var block := [Block(k.x1, k.y1, k.x2, k.y2)];
      assert InRect(o, k.x1, k.y1) && InRect(o, k.x2, k.y2);
      HitsAppend(Edges(ctx, o, k, c, block), [Unblock], px, py);
      HitsSingle(Unblock, px, py);
      HitsSingle(block[0], px, py);
      EdgesHitsSum(ctx, o, k, c, block, px, py);
      SidesPartitionOutline(o, k, x, y);
      assert InRect(k, x, y) <==> InRect(o, x, y) && InRect(ctx.clip, x, y);
  }

  /** The body of grx_draw_box after clipping: the sorted box is
      (ox1, oy1)-(ox2, oy2), its visible part (x1, y1)-(x2, y2), and the runs are
      appended to the log. The differences oy1 - y1, oy2 - y2 and ox1 - x1 are
      zero exactly when that side survived clipping; y1 steps past a drawn top
      row and y2 becomes the length of the vertical runs. */
  method DrawRuns(ctx: Context, ox1: int, oy1: int, ox2: int, oy2: int,
                  x1: int, y1: int, x2: int, y2: int, c: Color, log: seq<Call>)
    returns (calls: seq<Call>)
    ensures calls == Edges(ctx, Rect(ox1, oy1, ox2, oy2), Rect(x1, y1, x2, y2), c, log)
  {
    ghost var o, k := Rect(ox1, oy1, ox2, oy2), Rect(x1, y1, x2, y2);
    ghost var w, h := x2 - x1 + 1, RunLast(o, k) - RunFirst(o, k) + 1;
    var dy1, dy2, dx1 := oy1, oy2, ox1;
    var top, height := y1, y2;
    calls := log;
    dy1 := dy1 - top;
    if dy1 == 0 {
      calls := calls + [HLine(x1 + ctx.xOffset, top + ctx.yOffset, x2 - x1 + 1, c)];
    }
    ghost var log1 := calls;
    assert log1 == Emit(log, TopDrawn(o, k), HLine(x1 + ctx.xOffset, y1 + ctx.yOffset, w, c));
    dy2 := dy2 - height;
    if dy2 == 0 && (top != height || dy1 != 0) {
      calls := calls + [HLine(x1 + ctx.xOffset, height + ctx.yOffset, x2 - x1 + 1, c)];
    }
    ghost var log2 := calls;
    assert log2 == Emit(log1, BottomDrawn(o, k), HLine(x1 + ctx.xOffset, y2 + ctx.yOffset, w, c));
    if dy1 == 0 {
      top := top + 1;
    }
    height := height - top + (if dy2 != 0 then 1 else 0);
    assert top == RunFirst(o, k) && height == h;
    ghost var log3 := calls;
    if height > 0 {
      dx1 := dx1 - x1;
      if dx1 == 0 {
        calls := calls + [VLine(x1 + ctx.xOffset, top + ctx.yOffset, height, c)];
      }
      log3 := calls;
      if ox2 == x2 && (x1 != x2 || dx1 != 0) {
        calls := calls + [VLine(x2 + ctx.xOffset, top + ctx.yOffset, height, c)];
      }
    }
    assert log3 == Emit(log2, LeftDrawn(o, k), VLine(x1 + ctx.xOffset, RunFirst(o, k) + ctx.yOffset, h, c));
  }

  /** The subtractions oy1 -= y1, oy2 -= y2 and ox1 -= x1 take a clipped bound
      from the caller's unclipped coordinate, and can leave the range of a 32-bit
      int. Under two's-complement wrap-around the difference of two int values is
      still zero exactly when they are equal, and that is all the edge tests ask
      of it, so the exact differences used above decide every test the same way. */
  lemma WrappedDifferenceZero(a: int, b: int)
    requires -0x8000_0000 <= a < 0x8000_0000 && -0x8000_0000 <= b < 0x8000_0000
    ensures (a - b) % 0x1_0000_0000 == 0 <==> a == b
  {
  }

  /** grx_draw_box: sort each axis, clip to the context, block the overlay over
      the visible part, draw the runs, unblock. */
  method DrawBox(ctx: Context, x1: int, y1: int, x2: int, y2: int, c: Color) returns (calls: seq<Call>)
    ensures calls == BoxCalls(ctx, x1, y1, x2, y2, c)
    ensures forall px, py :: Hits(calls, px, py) == Ind(Outlined(ctx, x1, y1, x2, y2, px - ctx.xOffset, py - ctx.yOffset))
  {
    var left, top, right, bottom := x1, y1, x2, y2;
    if left > right { left, right := right, left; }
    if top > bottom { top, bottom := bottom, top; }
    assert Rect(left, top, right, bottom) == Normalize(x1, y1, x2, y2);
    var visible := ClipOrdBox(ctx.clip, Rect(left, top, right, bottom));
    if visible.None? {
      calls := [];
    } else {
      var k := visible.value;
      calls := [Block(k.x1, k.y1, k.x2, k.y2)];
      calls := DrawRuns(ctx, left, top, right, bottom, k.x1, k.y1, k.x2, k.y2, c, calls);
      calls := calls + [Unblock];
      BoxCallsVisible(ctx, x1, y1, x2, y2, c, k);
    }
    forall px, py
      ensures Hits(calls, px, py) == Ind(Outlined(ctx, x1, y1, x2, y2, px - ctx.xOffset, py - ctx.yOffset))
    {
      BoxExactOutline(ctx, x1, y1, x2, y2, c, px, py);
    }
  }
}
