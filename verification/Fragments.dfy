/** How a coordinator cuts the nonce space (fragment_range in pool_coordinator/coordinator.py). */
module Fragments {
  import opened Wrappers

  datatype RangeError = SizeNotPositive

  /** The consecutive pieces of [start, end): all of the given size but perhaps the last. */
  function Tiles(start: int, end: int, size: int): seq<(int, int)>
    requires size > 0
    decreases end - start
  {
    if end <= start then [] else [(start, if start + size < end then start + size else end)] + Tiles(start + size, end, size)
  }

  method FragmentRange(start: int, end: int, fragmentSize: int) returns (r: Result<seq<(int, int)>, RangeError>)
    ensures r.Failure? <==> fragmentSize <= 0
    ensures fragmentSize > 0 ==> r == Success(Tiles(start, end, fragmentSize))
  {
    if fragmentSize <= 0 {
      return Failure(SizeNotPositive);
    }
    if end <= start {
      return Success([]);
    }
    var chunks: seq<(int, int)> := [];
    var cur := start;
    while cur < end
      invariant chunks + Tiles(cur, end, fragmentSize) == Tiles(start, end, fragmentSize)
      decreases end - cur
    {
      chunks := chunks + [(cur, if cur + fragmentSize < end then cur + fragmentSize else end)];
      cur := cur + fragmentSize;
    }
    assert chunks + [] == chunks;
    return Success(chunks);
  }

  /** Tile i is the i-th piece. */
  lemma {:induction false} TileAt(start: int, end: int, size: int, i: nat)
    requires size > 0 && i < |Tiles(start, end, size)|
    ensures var t := Tiles(start, end, size)[i];
      && t.0 == start + i * size && t.0 < end && t.1 == (if t.0 + size < end then t.0 + size else end)
    decreases i
  {
    if i > 0 {
      TileAt(start + size, end, size, i - 1);
      assert start + size + (i - 1) * size == start + i * size;
    }
  }

  /** Every number of the range is in a tile. */
  lemma {:induction false} TilesCover(start: int, end: int, size: int, x: int) returns (i: nat)
    requires size > 0 && start <= x < end
    ensures i < |Tiles(start, end, size)| && Tiles(start, end, size)[i].0 <= x < Tiles(start, end, size)[i].1
    decreases end - start
  {
    if x < start + size {
      i := 0;
    } else {
      var j := TilesCover(start + size, end, size, x);
      i := j + 1;
    }
  }

  /** Tiles do not overlap: each ends where the next begins. */
  lemma TilesDisjoint(start: int, end: int, size: int, i: nat, j: nat)
    requires size > 0 && i < j < |Tiles(start, end, size)|
    ensures Tiles(start, end, size)[i].1 <= Tiles(start, end, size)[j].0
    ensures j == i + 1 ==> Tiles(start, end, size)[i].1 == Tiles(start, end, size)[j].0
  {
    TileAt(start, end, size, i);
    TileAt(start, end, size, j);
    StepsApart(i, j, size);
  }

  lemma {:induction false} StepsApart(i: nat, j: nat, size: int)
    requires i < j && size > 0
    ensures i * size + size <= j * size && (j == i + 1 ==> i * size + size == j * size)
    decreases j
  {
    assert (i + 1) * size == i * size + size;
    if j > i + 1 {
      StepsApart(i, j - 1, size);
      assert j * size == (j - 1) * size + size;
    }
  }
}
