/**
 * The tile grid: the generator `arange`, the two per-axis origin sequences,
 * the swap of their roles for EPSG:4326, the nested enumeration of origin
 * pairs and each tile's request box and URL.
 */
module TileGrid {
  import opened Text
  import opened Config

  /** A tile's lower-left origin, in the order the request and file name use it. */
  datatype Tile = Tile(w: int, s: int)

  // ---------------------------------------------------------------------
  // arange
  // ---------------------------------------------------------------------

  /** What `arange(start, stop, step)` yields: `start`, then steps of `step` while below `stop`. */
  function Range(start: int, stop: int, step: int): seq<int>
    requires step > 0 || stop <= start
    decreases stop - start
  {
    if start >= stop then [] else [start] + Range(start + step, stop, step)
  }

  /** The generator's loop: `current` starts at `start` and advances by `step`. */
  method Arange(start: int, stop: int, step: int) returns (r: seq<int>)
    requires step > 0 || stop <= start
    ensures r == Range(start, stop, step)
  {
    r := [];
    var current := start;
    while current < stop
      invariant step > 0 || stop <= current
      invariant r + Range(current, stop, step) == Range(start, stop, step)
      decreases stop - current
    {
      r := r + [current];
      current := current + step;
    }
  }

  /** The i-th value yielded is `start + i * step`. */
  lemma {:induction false} RangeAt(start: int, stop: int, step: int, i: nat)
    requires step > 0 || stop <= start
    requires i < |Range(start, stop, step)|
    ensures Range(start, stop, step)[i] == start + i * step
    decreases stop - start
  {
    if i > 0 {
      RangeAt(start + step, stop, step, i - 1);
      assert start + step + (i - 1) * step == start + i * step;
    }
  }

  /** The generator yields exactly the steps that stay below `stop`. */
  lemma {:induction false} RangeLength(start: int, stop: int, step: int, n: nat)
    requires step > 0
    ensures n < |Range(start, stop, step)| <==> start + n * step < stop
    decreases stop - start
  {
    if start >= stop {
      assert n * step >= 0;
    } else if n > 0 {
      RangeLength(start + step, stop, step, n - 1);
      assert start + step + (n - 1) * step == start + n * step;
    }
  }

  /** The number of values is `ceil((stop - start) / step)`, and 0 for an empty extent. */
  lemma RangeCount(start: int, stop: int, step: int)
    requires step > 0
    ensures |Range(start, stop, step)| == if start >= stop then 0 else (stop - start + step - 1) / step
  {
    var len := |Range(start, stop, step)|;
    if start >= stop {
      RangeLength(start, stop, step, 0);
    } else {
      var d := stop - start;
      var c := (d + step - 1) / step;
      var rem := (d + step - 1) % step;
      assert d + step - 1 == c * step + rem && 0 <= rem < step;
      assert c >= 1;
      assert start + c * step >= stop;
      assert start + (c - 1) * step < stop;
      RangeLength(start, stop, step, c);
      RangeLength(start, stop, step, c - 1);
    }
  }

  /**
   * Every value is below `stop` and the values ascend by exactly `step`; when
   * there is a value, the last one's tile reaches `stop` (it may overhang it:
   * the remainder strip is never dropped).
   */
  lemma RangeShape(start: int, stop: int, step: int)
    requires step > 0
    ensures var r := Range(start, stop, step);
      && (forall i :: 0 <= i < |r| ==> start <= r[i] < stop)
      && (forall i :: 0 <= i < |r| - 1 ==> r[i + 1] == r[i] + step)
      && (|r| > 0 ==> r[|r| - 1] + step >= stop)
      && (|r| == 0 <==> start >= stop)
  {
    var r := Range(start, stop, step);
    forall i | 0 <= i < |r|
      ensures start <= r[i] < stop
    {
      RangeAt(start, stop, step, i);
      RangeLength(start, stop, step, i);
      assert i * step >= 0;
    }
    forall i | 0 <= i < |r| - 1
      ensures r[i + 1] == r[i] + step
    {
      RangeAt(start, stop, step, i);
      RangeAt(start, stop, step, i + 1);
      assert (i + 1) * step == i * step + step;
    }
    RangeLength(start, stop, step, 0);
    if |r| > 0 {
      RangeAt(start, stop, step, |r| - 1);
      RangeLength(start, stop, step, |r|);
      assert (|r| - 1) * step + step == |r| * step;
    }
  }

  /** Every point of `[start, stop)` lies in the step-wide strip of exactly one value. */
  lemma RangeCovers(start: int, stop: int, step: int, x: int)
    requires step > 0 && start <= x < stop
    ensures exists i :: 0 <= i < |Range(start, stop, step)| && InStrip(Range(start, stop, step)[i], step, x)
  {
    var i := (x - start) / step;
    assert x - start == i * step + (x - start) % step;
    assert start + i * step <= x;
    RangeLength(start, stop, step, i);
    RangeAt(start, stop, step, i);
    assert InStrip(Range(start, stop, step)[i], step, x);
  }

  predicate InStrip(origin: int, size: int, x: int) {
    origin <= x < origin + size
  }

  /** The strips of two different values never share a point. */
  lemma RangeStripsDisjoint(start: int, stop: int, step: int, i: nat, j: nat, x: int)
    requires step > 0
    requires i < |Range(start, stop, step)| && j < |Range(start, stop, step)|
    requires InStrip(Range(start, stop, step)[i], step, x)
    requires InStrip(Range(start, stop, step)[j], step, x)
    ensures i == j
  {
    if i < j {
      RangeGap(start, stop, step, i, j);
    } else if j < i {
      RangeGap(start, stop, step, j, i);
    }
  }

  /** A later value lies at least one step above an earlier one. */
  lemma RangeGap(start: int, stop: int, step: int, i: nat, j: nat)
    requires step > 0
    requires i < j < |Range(start, stop, step)|
    ensures Range(start, stop, step)[i] + step <= Range(start, stop, step)[j]
  {
    RangeAt(start, stop, step, i);
    RangeAt(start, stop, step, j);
    var k := j - i - 1;
    assert k * step >= 0;
    assert j * step == i * step + k * step + step;
  }

  // ---------------------------------------------------------------------
  // The planned tiles
  // ---------------------------------------------------------------------

  /**
   * The sequences the outer and inner loops run over: `west_range` and
   * `south_range`, exchanged when the projection is EPSG:4326.
   */
  function Axes(cfg: Config): (seq<int>, seq<int>)
    requires Terminates(cfg)
  {
    var westRange := Range(cfg.bbox.west, cfg.bbox.east, cfg.size);
    var southRange := Range(cfg.bbox.south, cfg.bbox.north, cfg.size);
    if cfg.projection == Wgs84 then (southRange, westRange) else (westRange, southRange)
  }

  /** The two origin sequences, exchanged for EPSG:4326, as the loops use them. */
  method PlanAxes(cfg: Config) returns (westRange: seq<int>, southRange: seq<int>)
    requires Terminates(cfg)
    ensures (westRange, southRange) == Axes(cfg)
  {
    westRange := Arange(cfg.bbox.west, cfg.bbox.east, cfg.size);
    southRange := Arange(cfg.bbox.south, cfg.bbox.north, cfg.size);
    if cfg.projection == Wgs84 {
      westRange, southRange := southRange, westRange;
    }
  }

  /** One pass of the inner loop: the outer value paired with every inner value. */
  function Row(w: int, ys: seq<int>): seq<Tile> {
    seq(|ys|, j requires 0 <= j < |ys| => Tile(w, ys[j]))
  }

  /** The nested loops' enumeration: rows in the order of the outer values. */
  function Product(xs: seq<int>, ys: seq<int>): seq<Tile>
    decreases |xs|
  {
    if xs == [] then [] else Product(xs[..|xs| - 1], ys) + Row(xs[|xs| - 1], ys)
  }

  /** The tiles the download loop visits, in visiting order. */
  function Plan(cfg: Config): seq<Tile>
    requires Terminates(cfg)
  {
    Product(Axes(cfg).0, Axes(cfg).1)
  }

  /** The area the tiles cover, in request axis order (`west` and `south` exchanged for EPSG:4326). */
  function RequestArea(cfg: Config): BBox {
    var b := cfg.bbox;
    if cfg.projection == Wgs84 then BBox(b.south, b.west, b.north, b.east) else b
  }

  /** The BBOX parameter of a tile's request: `(w, s, w + size, s + size)`. */
  function RequestBox(cfg: Config, t: Tile): BBox {
    BBox(t.w, t.s, t.w + cfg.size, t.s + cfg.size)
  }

  /** The GetFeature URL requested for a tile (coordinates rendered with `%f`). */
  function TileUrl(cfg: Config, t: Tile): string {
    var box := RequestBox(cfg, t);
    cfg.url + "?service=WFS&request=GetFeature&version=" + cfg.version
      + "&typeNames=" + cfg.layer + "&srsName=" + cfg.projection
      + "&BBOX=" + FixedText(box.west) + "," + FixedText(box.south)
      + "," + FixedText(box.east) + "," + FixedText(box.north)
  }

  /** The cache file a tile is downloaded to. */
  function TileName(cfg: Config, t: Tile): string {
    TileFile(cfg.name, cfg.ext, t.w, t.s)
  }

  predicate BoxContains(box: BBox, a: int, b: int) {
    box.west <= a < box.east && box.south <= b < box.north
  }

  lemma {:induction false} ProductLength(xs: seq<int>, ys: seq<int>)
    ensures |Product(xs, ys)| == |xs| * |ys|
    decreases |xs|
  {
    if xs != [] {
      ProductLength(xs[..|xs| - 1], ys);
      assert (|xs| - 1) * |ys| + |ys| == |xs| * |ys|;
    }
  }

  /** One more pass of the outer loop appends one whole row. */
  lemma ProductSnoc(xs: seq<int>, ys: seq<int>, i: nat)
    requires i < |xs|
    ensures Product(xs[..i + 1], ys) == Product(xs[..i], ys) + Row(xs[i], ys)[..|ys|]
  {
    assert xs[..i + 1][..i] == xs[..i];
    assert Row(xs[i], ys)[..|ys|] == Row(xs[i], ys);
  }

  /** Tile number `i * |ys| + j` pairs the i-th outer value with the j-th inner one. */
  lemma {:induction false} ProductAt(xs: seq<int>, ys: seq<int>, i: nat, j: nat)
    requires i < |xs| && j < |ys|
    ensures i * |ys| + j < |Product(xs, ys)|
    ensures Product(xs, ys)[i * |ys| + j] == Tile(xs[i], ys[j])
    decreases |xs|
  {
    var init := xs[..|xs| - 1];
    ProductLength(init, ys);
    ProductLength(xs, ys);
    if i < |xs| - 1 {
      ProductAt(init, ys, i, j);
      assert i * |ys| + j < (i + 1) * |ys| <= (|xs| - 1) * |ys|;
    } else {
      assert i * |ys| + j == |Product(init, ys)| + j;
    }
  }

  /** A tile is planned exactly when its origin pairs an outer value with an inner one. */
  lemma {:induction false} ProductMember(xs: seq<int>, ys: seq<int>, t: Tile)
    ensures t in Product(xs, ys) <==> t.w in xs && t.s in ys
    decreases |xs|
  {
    if xs != [] {
      var init := xs[..|xs| - 1];
      ProductMember(init, ys, t);
      assert xs == init + [xs[|xs| - 1]];
      var row := Row(xs[|xs| - 1], ys);
      if t.w == xs[|xs| - 1] && t.s in ys {
        var j :| 0 <= j < |ys| && ys[j] == t.s;
        assert row[j] == t;
      }
      assert t in row <==> t.w == xs[|xs| - 1] && t.s in ys;
    }
  }

  /**
   * The planned tiles are exactly the pairs of the two axis sequences, with
   * `south_range` first for EPSG:4326 and `west_range` first otherwise.
   */
  lemma PlanMember(cfg: Config, t: Tile)
    requires Terminates(cfg)
    ensures var westRange := Range(cfg.bbox.west, cfg.bbox.east, cfg.size);
      var southRange := Range(cfg.bbox.south, cfg.bbox.north, cfg.size);
      t in Plan(cfg) <==>
        if cfg.projection == Wgs84 then t.w in southRange && t.s in westRange
        else t.w in westRange && t.s in southRange
  {
    ProductMember(Axes(cfg).0, Axes(cfg).1, t);
  }

  /** The outer loop runs over the first axis, the inner loop over the second. */
  lemma PlanOrder(cfg: Config, i: nat, j: nat)
    requires Terminates(cfg)
    requires i < |Axes(cfg).0| && j < |Axes(cfg).1|
    ensures |Plan(cfg)| == |Axes(cfg).0| * |Axes(cfg).1|
    ensures i * |Axes(cfg).1| + j < |Plan(cfg)|
    ensures Plan(cfg)[i * |Axes(cfg).1| + j] == Tile(Axes(cfg).0[i], Axes(cfg).1[j])
  {
    ProductLength(Axes(cfg).0, Axes(cfg).1);
    ProductAt(Axes(cfg).0, Axes(cfg).1, i, j);
  }

  /**
   * Every point of the area lies in the request box of some planned tile, and
   * no point lies in the boxes of two different planned tiles.
   */
  lemma PlanCovers(cfg: Config, a: int, b: int)
    requires cfg.size > 0
    ensures BoxContains(RequestArea(cfg), a, b) ==>
      exists t :: t in Plan(cfg) && BoxContains(RequestBox(cfg, t), a, b)
    ensures forall t1, t2 ::
      (t1 in Plan(cfg) && t2 in Plan(cfg) &&
       BoxContains(RequestBox(cfg, t1), a, b) && BoxContains(RequestBox(cfg, t2), a, b)) ==> t1 == t2
  {
    var area := RequestArea(cfg);
    var xs, ys := Axes(cfg).0, Axes(cfg).1;
    assert xs == Range(area.west, area.east, cfg.size);
    assert ys == Range(area.south, area.north, cfg.size);
    if BoxContains(area, a, b) {
      RangeCovers(area.west, area.east, cfg.size, a);
      RangeCovers(area.south, area.north, cfg.size, b);
      var i :| 0 <= i < |xs| && InStrip(xs[i], cfg.size, a);
      var j :| 0 <= j < |ys| && InStrip(ys[j], cfg.size, b);
      ProductMember(xs, ys, Tile(xs[i], ys[j]));
      assert BoxContains(RequestBox(cfg, Tile(xs[i], ys[j])), a, b);
    }
    forall t1, t2 | t1 in Plan(cfg) && t2 in Plan(cfg) &&
        BoxContains(RequestBox(cfg, t1), a, b) && BoxContains(RequestBox(cfg, t2), a, b)
      ensures t1 == t2
    {
      ProductMember(xs, ys, t1);
      ProductMember(xs, ys, t2);
      var i1 :| 0 <= i1 < |xs| && xs[i1] == t1.w;
      var i2 :| 0 <= i2 < |xs| && xs[i2] == t2.w;
      var j1 :| 0 <= j1 < |ys| && ys[j1] == t1.s;
      var j2 :| 0 <= j2 < |ys| && ys[j2] == t2.s;
      RangeStripsDisjoint(area.west, area.east, cfg.size, i1, i2, a);
      RangeStripsDisjoint(area.south, area.north, cfg.size, j1, j2, b);
    }
  }
}
