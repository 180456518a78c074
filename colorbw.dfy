/** grx_color_get_black and grx_color_get_white: colour values computed on first
    use and kept in the colour-information record. */
module ColorBW {
  import opened Colors

  /** grx_color_get, the RGB-to-colour lookup of the current mode. It is a
      collaborator whose packing is not modelled: `lookup` stands for its
      answers, and `requests` records every call made to it. */
  class ColorSource {
    const lookup: (int, int, int) -> Color
    var requests: seq<(int, int, int)>

    constructor (lookup: (int, int, int) -> Color)
      ensures this.lookup == lookup && requests == []
    {
      this.lookup := lookup;
      requests := [];
    }

    method Get(r: int, g: int, b: int) returns (c: Color)
      modifies this`requests
      ensures c == lookup(r, g, b)
      ensures requests == old(requests) + [(r, g, b)]
    {
      c := lookup(r, g, b);
      requests := requests + [(r, g, b)];
    }
  }

  /** The value a lazily filled slot holds after one lookup: the cached value
      when there is one, else the freshly computed one. */
  function Cached(slot: Color, computed: Color): Color {
    if slot == ColorNone then computed else slot
  }

  /** A filled slot stays as it is: a second lookup returns what the first one
      returned, whatever would be computed the second time, as long as the first
      computation did not itself give ColorNone. */
  lemma CachedIdempotent(slot: Color, first: Color, second: Color)
    requires slot != ColorNone || first != ColorNone
    ensures Cached(Cached(slot, first), second) == Cached(slot, first)
    ensures Cached(slot, first) != ColorNone
  {
  }

  /** If the slot is empty or already holds the black colour, and the lookup of
      (0, 0, 0) gives 0 as the library documents, the black value is 0. */
  lemma BlackIsZero(slot: Color, lookup: (int, int, int) -> Color)
    requires lookup(0, 0, 0) == 0
    requires slot == ColorNone || slot == lookup(0, 0, 0)
    ensures Cached(slot, lookup(0, 0, 0)) == 0
  {
  }

  /** The black and white fields of the colour-information record; ColorNone
      means "not computed yet". */
  class ColorInfo {
    var black: Color
    var white: Color

    constructor ()
      ensures black == ColorNone && white == ColorNone
    {
      black, white := ColorNone, ColorNone;
    }

    /** Each field is either not computed yet or holds what the source gives for
        its colour. */
    predicate Coherent(src: ColorSource)
      reads this
    {
      && (black == ColorNone || black == src.lookup(0, 0, 0))
      && (white == ColorNone || white == src.lookup(255, 255, 255))
    }

    /** grx_color_get_black: on a miss, ask the source for (0, 0, 0) once and
        store the answer; on a hit, return the stored value without asking. The
        white field is not touched. */
    method GetBlack(src: ColorSource) returns (c: Color)
      modifies this`black, src`requests
      ensures black == Cached(old(black), src.lookup(0, 0, 0))
      ensures c == black
      ensures src.requests == old(src.requests) + (if old(black) == ColorNone then [(0, 0, 0)] else [])
      ensures white == old(white)
      ensures old(Coherent(src)) ==> Coherent(src)
    {
      if black == ColorNone {
        black := src.Get(0, 0, 0);
      }
      c := black;
    }

    /** grx_color_get_white: the same, for (255, 255, 255) and the white field. */
    method GetWhite(src: ColorSource) returns (c: Color)
      modifies this`white, src`requests
      ensures white == Cached(old(white), src.lookup(255, 255, 255))
      ensures c == white
      ensures src.requests == old(src.requests) + (if old(white) == ColorNone then [(255, 255, 255)] else [])
      ensures black == old(black)
      ensures old(Coherent(src)) ==> Coherent(src)
    {
      if white == ColorNone {
        white := src.Get(255, 255, 255);
      }
      c := white;
    }
  }

  /** Two calls in a row return the same value, and the second asks the source
      nothing, unless the source answered ColorNone the first time. */
  method GetBlackTwice(info: ColorInfo, src: ColorSource) returns (first: Color, second: Color)
    modifies info`black, src`requests
    ensures src.lookup(0, 0, 0) != ColorNone ==> first == second
    ensures src.lookup(0, 0, 0) != ColorNone ==>
      src.requests == old(src.requests) + (if old(info.black) == ColorNone then [(0, 0, 0)] else [])
  {
    first := info.GetBlack(src);
    second := info.GetBlack(src);
  }
}
