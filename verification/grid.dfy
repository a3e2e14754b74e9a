/**
  The geo-grid generator (`generate_bounding_boxes`, main.py:149-170).

  Every configured coordinate and the tile size are multiples of a quarter degree,
  so coordinates are integers counting quarter-degrees: 47.0 is 188, 32.75 is 131,
  1.5 is 6. The stepping is then exact, as it is in the source's binary floats.
*/
module Grid {
  import opened Sequences

  /** The tile half-width, 1.5 degrees. */
  const BoxSize: int := 6

  /** An axis interval as configured: iteration starts at `start` and goes towards `end`. */
  datatype Range = Range(start: int, end: int)

  /** Latitude intervals, walked downward: (47.0, 30.0), (30, 27), (32.75, 32.75), (38.5, 38.5). */
  const LatitudeRanges: seq<Range> := [Range(188, 120), Range(120, 108), Range(131, 131), Range(154, 154)]

  /** Longitude intervals, walked upward: (-13.0, 8.0), (-20, -12), (-17, -17), (-28.5, -28.5). */
  const LongitudeRanges: seq<Range> := [Range(-52, 32), Range(-80, -48), Range(-68, -68), Range(-114, -114)]

  /** The 6-tuple yielded per tile: centre, north-east corner, south-west corner. */
  datatype Box = Box(centerLat: int, centerLng: int, neLat: int, neLng: int, swLat: int, swLng: int)

  /** The tile centred on (lat, lng). */
  function BoxAt(lat: int, lng: int): Box
  {
    Box(lat, lng, lat + BoxSize, lng + BoxSize, lat - BoxSize, lng - BoxSize)
  }

  /** A box whose corners lie one tile half-width from its centre on both axes. */
  predicate Framed(b: Box)
  {
    && b.neLat == b.centerLat + BoxSize && b.neLng == b.centerLng + BoxSize
    && b.swLat == b.centerLat - BoxSize && b.swLng == b.centerLng - BoxSize
  }

  /** Number of steps of BoxSize that a walk from 0 takes while staying within `span`
      (inclusive of both ends); a negative span is a walk that never starts. */
  function Steps(span: int): nat
  {
    if span < 0 then 0 else span / BoxSize + 1
  }

  /** The tiles of one latitude row: longitude from `lng` upward while it is at most `endLng`. */
  function RowTiles(lat: int, lng: int, endLng: int): seq<Box>
    decreases endLng - lng
  {
    if lng > endLng then [] else [BoxAt(lat, lng)] + RowTiles(lat, lng + BoxSize, endLng)
  }

  /** The tiles of one range pair: latitude from `lat` downward while it is at least `endLat`,
      and a full row of longitudes for each latitude. */
  function PairTiles(lat: int, endLat: int, startLng: int, endLng: int): seq<Box>
    decreases lat - endLat
  {
    if lat < endLat then []
    else RowTiles(lat, startLng, endLng) + PairTiles(lat - BoxSize, endLat, startLng, endLng)
  }

  /** The tiles of all range pairs, pairing the two lists as `zip` does (the shorter one decides). */
  function GridTiles(lats: seq<Range>, lngs: seq<Range>): seq<Box>
    decreases |lats|
  {
    if lats == [] || lngs == [] then []
    else PairTiles(lats[0].start, lats[0].end, lngs[0].start, lngs[0].end) + GridTiles(lats[1..], lngs[1..])
  }

  /** The generator itself: nested while loops stepping the centre, as the source does. */
  method GenerateBoundingBoxes(lats: seq<Range>, lngs: seq<Range>) returns (boxes: seq<Box>)
    ensures boxes == GridTiles(lats, lngs)
  {
    boxes := [];
    var pairs := if |lats| < |lngs| then |lats| else |lngs|;
    var i := 0;
    while i < pairs
      invariant 0 <= i <= pairs
      invariant boxes + GridTiles(lats[i..], lngs[i..]) == GridTiles(lats, lngs)
    {
      var startLat, endLat := lats[i].start, lats[i].end;
      var startLng, endLng := lngs[i].start, lngs[i].end;
      assert lats[i..][1..] == lats[i + 1..] && lngs[i..][1..] == lngs[i + 1..];
      ghost var pairTiles := PairTiles(startLat, endLat, startLng, endLng);
      ghost var later := GridTiles(lats[i + 1..], lngs[i + 1..]);
      assert GridTiles(lats[i..], lngs[i..]) == pairTiles + later;
      ConcatAssociative(boxes, pairTiles, later);
      ghost var pairStart := boxes;
      var centerLat := startLat;
      while centerLat >= endLat
        invariant boxes + PairTiles(centerLat, endLat, startLng, endLng) == pairStart + pairTiles
        decreases centerLat - endLat
      {
        ghost var rowStart := boxes;
        ghost var lowerRows := PairTiles(centerLat - BoxSize, endLat, startLng, endLng);
        ghost var row := RowTiles(centerLat, startLng, endLng);
        ConcatAssociative(rowStart, row, lowerRows);
        var centerLng := startLng;
        while centerLng <= endLng
          invariant boxes + RowTiles(centerLat, centerLng, endLng) == rowStart + row
          decreases endLng - centerLng
        {
          var neLat := centerLat + BoxSize;
          var neLng := centerLng + BoxSize;
          var swLat := centerLat - BoxSize;
          var swLng := centerLng - BoxSize;
          var tile := Box(centerLat, centerLng, neLat, neLng, swLat, swLng);
          assert tile == BoxAt(centerLat, centerLng);
          ConcatAssociative(boxes, [tile], RowTiles(centerLat, centerLng + BoxSize, endLng));
          boxes := boxes + [tile];
          centerLng := centerLng + BoxSize;
        }
        assert boxes == rowStart + row;
        centerLat := centerLat - BoxSize;
      }
      assert boxes == pairStart + pairTiles;
      i := i + 1;
    }
  }

  /** Every tile of a row is framed by BoxSize around its centre. */
  lemma {:induction false} RowTilesFramed(lat: int, lng: int, endLng: int)
    ensures forall b :: b in RowTiles(lat, lng, endLng) ==> Framed(b)
    decreases endLng - lng
  {
    if lng <= endLng {
      RowTilesFramed(lat, lng + BoxSize, endLng);
    }
  }

  lemma {:induction false} PairTilesFramed(lat: int, endLat: int, startLng: int, endLng: int)
    ensures forall b :: b in PairTiles(lat, endLat, startLng, endLng) ==> Framed(b)
    decreases lat - endLat
  {
    if lat >= endLat {
      RowTilesFramed(lat, startLng, endLng);
      PairTilesFramed(lat - BoxSize, endLat, startLng, endLng);
    }
  }

  /** Every emitted box has ne = centre + BoxSize and sw = centre - BoxSize on both axes. */
  lemma {:induction false} GridTilesFramed(lats: seq<Range>, lngs: seq<Range>)
    ensures forall b :: b in GridTiles(lats, lngs) ==> Framed(b)
    decreases |lats|
  {
    if lats != [] && lngs != [] {
      PairTilesFramed(lats[0].start, lats[0].end, lngs[0].start, lngs[0].end);
      GridTilesFramed(lats[1..], lngs[1..]);
    }
  }

  /** A row holds one tile per step from `lng` up to the last value not above `endLng`. */
  lemma {:induction false} RowTilesCount(lat: int, lng: int, endLng: int)
    ensures |RowTiles(lat, lng, endLng)| == Steps(endLng - lng)
    decreases endLng - lng
  {
    if lng <= endLng {
      RowTilesCount(lat, lng + BoxSize, endLng);
    }
  }

  /** The row's tiles in order: the k-th is centred k steps east of `lng`. */
  lemma {:induction false} RowTilesAt(lat: int, lng: int, endLng: int, k: nat)
    requires k < |RowTiles(lat, lng, endLng)|
    ensures RowTiles(lat, lng, endLng)[k] == BoxAt(lat, lng + k * BoxSize)
    decreases endLng - lng
  {
    if k > 0 {
      RowTilesAt(lat, lng + BoxSize, endLng, k - 1);
    }
  }

  /** The tile centred on (la, ln) is in the row exactly when it lies on the row's latitude,
      between `lng` and `endLng`, a whole number of steps east of `lng`. */
  lemma {:induction false} RowTilesMember(lat: int, lng: int, endLng: int, la: int, ln: int)
    ensures BoxAt(la, ln) in RowTiles(lat, lng, endLng)
        <==> la == lat && lng <= ln <= endLng && (ln - lng) % BoxSize == 0
    decreases endLng - lng
  {
    if lng <= endLng {
      RowTilesMember(lat, lng + BoxSize, endLng, la, ln);
      assert RowTiles(lat, lng, endLng) == [BoxAt(lat, lng)] + RowTiles(lat, lng + BoxSize, endLng);
    }
  }

  /** Taking one more step leaves the remainder modulo the step unchanged. */
  lemma StepRemainder(d: int)
    ensures (d + BoxSize) % BoxSize == d % BoxSize
  {
  }

  /** One range pair yields Steps(start_lat - end_lat) * Steps(end_lng - start_lng) tiles:
      zero when either range is walked the wrong way. */
  lemma {:induction false} PairTilesCount(lat: int, endLat: int, startLng: int, endLng: int)
    ensures |PairTiles(lat, endLat, startLng, endLng)| == Steps(lat - endLat) * Steps(endLng - startLng)
    decreases lat - endLat
  {
    if lat >= endLat {
      var n := Steps(endLng - startLng);
      var m := Steps(lat - BoxSize - endLat);
      RowTilesCount(lat, startLng, endLng);
      PairTilesCount(lat - BoxSize, endLat, startLng, endLng);
      assert Steps(lat - endLat) == m + 1;
      assert (m + 1) * n == m * n + n;
    }
  }

  /** The tile centred on (la, ln) is produced for a range pair exactly when la runs from
      start_lat down to the last value not below end_lat, and ln from start_lng up to the
      last value not above end_lng, both in whole steps. */
  lemma {:induction false} PairTilesMember(lat: int, endLat: int, startLng: int, endLng: int, la: int, ln: int)
    ensures BoxAt(la, ln) in PairTiles(lat, endLat, startLng, endLng)
        <==> && endLat <= la <= lat && (lat - la) % BoxSize == 0
             && startLng <= ln <= endLng && (ln - startLng) % BoxSize == 0
    decreases lat - endLat
  {
    if lat >= endLat {
      RowTilesMember(lat, startLng, endLng, la, ln);
      PairTilesMember(lat - BoxSize, endLat, startLng, endLng, la, ln);
      assert PairTiles(lat, endLat, startLng, endLng)
          == RowTiles(lat, startLng, endLng) + PairTiles(lat - BoxSize, endLat, startLng, endLng);
      StepRemainder(lat - BoxSize - la);
    }
  }

  /** A degenerate pair (start == end on both axes) yields exactly one tile, at that point. */
  lemma DegeneratePairIsOneTile(lat: int, lng: int)
    ensures PairTiles(lat, lat, lng, lng) == [BoxAt(lat, lng)]
  {
    assert PairTiles(lat - BoxSize, lat, lng, lng) == [];
    assert RowTiles(lat, lng + BoxSize, lng) == [];
  }

  /** The number of tiles of a list of range pairs, by the pair counts. */
  function GridCount(lats: seq<Range>, lngs: seq<Range>): nat
    decreases |lats|
  {
    if lats == [] || lngs == [] then 0
    else Steps(lats[0].start - lats[0].end) * Steps(lngs[0].end - lngs[0].start) + GridCount(lats[1..], lngs[1..])
  }

  /** The grid holds, for each range pair that `zip` forms, the tiles of that pair. */
  lemma {:induction false} GridTilesCount(lats: seq<Range>, lngs: seq<Range>)
    ensures |GridTiles(lats, lngs)| == GridCount(lats, lngs)
    decreases |lats|
  {
    if lats != [] && lngs != [] {
      PairTilesCount(lats[0].start, lats[0].end, lngs[0].start, lngs[0].end);
      GridTilesCount(lats[1..], lngs[1..]);
    }
  }

  /** The configured grid: 12 * 15 + 3 * 6 + 1 + 1 = 200 tiles (by `GridTilesCount`, the
      length of `GridTiles(LatitudeRanges, LongitudeRanges)`). */
  lemma ConfiguredGridSize()
    ensures GridCount(LatitudeRanges, LongitudeRanges) == 200
  {
    var lats, lngs := LatitudeRanges, LongitudeRanges;
    assert Steps(68) == 12 && Steps(84) == 15 && Steps(12) == 3 && Steps(32) == 6 && Steps(0) == 1;
    assert GridCount(lats[3..], lngs[3..]) == 1 + GridCount(lats[4..], lngs[4..]) == 1;
    assert GridCount(lats[2..], lngs[2..]) == 1 + GridCount(lats[3..], lngs[3..]);
    assert GridCount(lats[1..], lngs[1..]) == 18 + GridCount(lats[2..], lngs[2..]);
    assert GridCount(lats, lngs) == 180 + GridCount(lats[1..], lngs[1..]);
  }
}
