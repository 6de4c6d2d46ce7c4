/**
 * The shadow atlas as LightStorage uses it: a square grid of tiles in which
 * rectangular regions are reserved and freed. Its packing code lives outside
 * the light system's sources; it is modelled here by its occupancy and a
 * first-fit, row-major search.
 */
module Atlas {

  /** A region of tiles, `LVecBase4i(x, y, w, h)`. */
  datatype Region = Region(x: int, y: int, w: int, h: int)

  /** The failure value of `find_and_reserve_region`. */
  const NoRegion: Region := Region(-1, -1, -1, -1)

  /** The tiles a region covers. */
  function Tiles(r: Region): set<(int, int)>
  {
    set x: int, y: int | r.x <= x < r.x + r.w && r.y <= y < r.y + r.h :: (x, y)
  }

  /** Row-major order on tile positions: a search reaches (x, y) before (x', y'). */
  predicate Before(x: int, y: int, x': int, y': int)
  {
    y < y' || (y == y' && x < x')
  }

  /** What the atlas has been asked to do, in call order. */
  datatype AtlasEvent = Freed(region: Region) | Reserved(w: int, h: int, result: Region)

  class ShadowAtlas {
    /** Number of tiles along each side of the atlas. */
    const tilesPerSide: nat
    /** `get_required_tiles`: tiles per side for a shadow-map resolution. */
    const requiredTiles: int -> int
    /** The tiles currently reserved. */
    var occupied: set<(int, int)>
    /** Every free and reserve call so far. */
    ghost var events: seq<AtlasEvent>

    constructor (tilesPerSide: nat, requiredTiles: int -> int)
      ensures this.tilesPerSide == tilesPerSide && this.requiredTiles == requiredTiles
      ensures occupied == {} && events == []
    {
      this.tilesPerSide := tilesPerSide;
      this.requiredTiles := requiredTiles;
      occupied := {};
      events := [];
    }

    /** A region of positive size inside the grid whose tiles are all free. */
    predicate Fits(r: Region)
      reads this
    {
      0 < r.w && 0 < r.h && 0 <= r.x && r.x + r.w <= tilesPerSide &&
      0 <= r.y && r.y + r.h <= tilesPerSide && Tiles(r) !! occupied
    }

    /** `free_region`: the region's tiles become free. */
    method FreeRegion(r: Region)
      modifies this`occupied, this`events
      ensures occupied == old(occupied) - Tiles(r)
      ensures events == old(events) + [Freed(r)]
    {
      occupied := occupied - Tiles(r);
      events := events + [Freed(r)];
    }

    /**
     * `find_and_reserve_region`: the first w-by-h region in row-major order
     * whose tiles are free is reserved and returned; NoRegion when none is.
     */
    method FindAndReserveRegion(w: int, h: int) returns (r: Region)
      modifies this`occupied, this`events
      ensures events == old(events) + [Reserved(w, h, r)]
      ensures r == NoRegion ==> occupied == old(occupied)
      ensures r == NoRegion ==> forall x, y :: !old(Fits(Region(x, y, w, h)))
      ensures r != NoRegion ==> r.w == w && r.h == h && old(Fits(r))
      ensures r != NoRegion ==> occupied == old(occupied) + Tiles(r)
      ensures r != NoRegion ==>
        forall x, y :: Before(x, y, r.x, r.y) ==> !old(Fits(Region(x, y, w, h)))
    {
      r := NoRegion;
      if w <= 0 || h <= 0 || w > tilesPerSide || h > tilesPerSide {
        events := events + [Reserved(w, h, r)];
        return;
      }
      var y := 0;
      while y <= tilesPerSide - h
        invariant 0 <= y <= tilesPerSide - h + 1
        invariant forall x', y' :: y' < y ==> !Fits(Region(x', y', w, h))
      {
        var x := 0;
        while x <= tilesPerSide - w
          invariant 0 <= x <= tilesPerSide - w + 1
          invariant forall x', y' :: Before(x', y', x, y) ==> !Fits(Region(x', y', w, h))
        {
          if Fits(Region(x, y, w, h)) {
            r := Region(x, y, w, h);
            occupied := occupied + Tiles(r);
            events := events + [Reserved(w, h, r)];
            return;
          }
          x := x + 1;
        }
        y := y + 1;
      }
      events := events + [Reserved(w, h, r)];
    }
  }
}
