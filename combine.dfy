/**
 * The combine phase up to the deduplication: the choice of the seed file,
 * the tracked count kinds, the loop over the cache directory that adds up
 * the counts and skips files while every total is zero, and the write-back
 * of the totals onto the seed's root element.
 */
module Combine {
  import opened Wrappers
  import opened Text
  import opened Config
  import opened TileGrid
  import opened Counts
  import opened Dedup

  /**
   * The cache directory as `combine_files` reads it: the names `os.listdir`
   * returns, in its order; the root attributes of every file that
   * `etree.parse` reads (a listed name without an entry does not parse); and
   * the features GDAL reads from each file (none for a file without an entry).
   */
  datatype Directory = Directory(listing: seq<string>, docs: map<string, Attrs>, features: map<string, seq<Fields>>)

  datatype MergeError =
    | SeedUnreadable                     // etree.parse(first_filename) raises
    | Unreadable(file: string)           // etree.parse of another file raises
    | BadCount(file: string, kind: Kind) // int(root.get(name)) raises

  /** The running totals and the files imported into the merged dataset so far. */
  datatype Merge = Merge(totals: Totals, imported: seq<string>)

  /**
   * What the combine phase leaves: totals, imported files, the seed root's
   * attributes and the memory layer's rows after the duplicate removal.
   */
  datatype Combined = Combined(totals: Totals, imported: seq<string>, seedAttrs: Attrs, layer: seq<Feature>)

  // ---------------------------------------------------------------------
  // The seed file
  // ---------------------------------------------------------------------

  /** The seed file name: `name_{bbox.south}_{bbox.west}{ext}`, whatever the projection. */
  function SeedName(cfg: Config): string {
    TileFile(cfg.name, cfg.ext, cfg.bbox.south, cfg.bbox.west)
  }

  /**
   * The two assignments to `first_filename`: the projection-dependent one,
   * then the unconditional one that replaces it.
   */
  method SelectSeed(cfg: Config) returns (first: string)
    ensures first == TileFile(cfg.name, cfg.ext, cfg.bbox.south, cfg.bbox.west)
  {
    if cfg.projection == Wgs84 {
      first := TileFile(cfg.name, cfg.ext, cfg.bbox.west, cfg.bbox.south);
    } else {
      first := TileFile(cfg.name, cfg.ext, cfg.bbox.south, cfg.bbox.west);
    }
    first := TileFile(cfg.name, cfg.ext, cfg.bbox.south, cfg.bbox.west);
  }

  /**
   * The seed is the file of the first planned tile exactly when the
   * projection is EPSG:4326 or the area's west and south edges coincide.
   */
  lemma SeedIsFirstTile(cfg: Config)
    requires cfg.size > 0 && cfg.bbox.west < cfg.bbox.east && cfg.bbox.south < cfg.bbox.north
    ensures |Plan(cfg)| > 0
    ensures TileName(cfg, Plan(cfg)[0]) == SeedName(cfg) <==> (cfg.projection == Wgs84 || cfg.bbox.west == cfg.bbox.south)
  {
    var b := cfg.bbox;
    RangeLength(b.west, b.east, cfg.size, 0);
    RangeLength(b.south, b.north, cfg.size, 0);
    PlanOrder(cfg, 0, 0);
    RangeAt(b.west, b.east, cfg.size, 0);
    RangeAt(b.south, b.north, cfg.size, 0);
    var first := Plan(cfg)[0];
    assert first == if cfg.projection == Wgs84 then Tile(b.south, b.west) else Tile(b.west, b.south);
    if TileName(cfg, first) == SeedName(cfg) {
      TileFileInjective(cfg.name, cfg.ext, first.w, first.s, b.south, b.west);
    }
  }

  // ---------------------------------------------------------------------
  // The merge loop
  // ---------------------------------------------------------------------

  /** `filename.startswith(name)` and `abs_filename != first_filename`. */
  predicate IsCandidate(cfg: Config, f: string) {
    StartsWith(f, cfg.name) && f != SeedName(cfg)
  }

  /**
   * One pass of the loop over the directory: files that are not candidates
   * are passed over; a candidate's counts are added, and the file is
   * imported unless every running total is then zero.
   */
  function MergeOne(cfg: Config, docs: map<string, Attrs>, m: Merge, f: string): Result<Merge, MergeError> {
    if !IsCandidate(cfg, f) then Ok(m)
    else if f !in docs then Err(Unreadable(f))
    else match AddAll(m.totals, docs[f])
      case Err(k) => Err(BadCount(f, k))
      case Ok(t) => Ok(Merge(t, if AllZero(t) then m.imported else m.imported + [f]))
  }

  /** The loop over `files` in order; the first exception ends it. */
  function MergeAll(cfg: Config, docs: map<string, Attrs>, files: seq<string>, init: Merge): Result<Merge, MergeError>
    decreases |files|
  {
    if files == [] then Ok(init)
    else match MergeAll(cfg, docs, files[..|files| - 1], init)
      case Err(e) => Err(e)
      case Ok(m) => MergeOne(cfg, docs, m, files[|files| - 1])
  }

  /** The candidate files of `files`, in order. */
  function Candidates(cfg: Config, files: seq<string>): seq<string>
    decreases |files|
  {
    if files == [] then []
    else
      var init := Candidates(cfg, files[..|files| - 1]);
      if IsCandidate(cfg, files[|files| - 1]) then init + [files[|files| - 1]] else init
  }

  /** The sum of kind `k` over the candidate files of `files` (0 for a file without it). */
  function CountSum(cfg: Config, docs: map<string, Attrs>, files: seq<string>, k: Kind): int
    decreases |files|
  {
    if files == [] then 0
    else
      var f := files[|files| - 1];
      var n := if IsCandidate(cfg, f) && f in docs && AttrInt(docs[f], k).Some? then AttrInt(docs[f], k).value else 0;
      CountSum(cfg, docs, files[..|files| - 1], k) + n
  }

  /** Every candidate file parses and carries every tracked count as an integer. */
  predicate AllReadable(cfg: Config, docs: map<string, Attrs>, files: seq<string>, t: Totals) {
    forall f :: f in files && IsCandidate(cfg, f) ==> f in docs && Readable(t, docs[f])
  }

  /** The seed's attributes with the tracked totals written back (`first_root.set`). */
  function WrittenBack(attrs: Attrs, t: Totals): Attrs {
    var a1 := if t.matched.Tracked? then attrs[AttrName(Matched) := IntText(t.matched.n)] else attrs;
    var a2 := if t.returned.Tracked? then a1[AttrName(Returned) := IntText(t.returned.n)] else a1;
    if t.ofFeatures.Tracked? then a2[AttrName(OfFeatures) := IntText(t.ofFeatures.n)] else a2
  }

  function FeaturesOf(dir: Directory, f: string): seq<Fields> {
    if f in dir.features then dir.features[f] else []
  }

  /** The memory layer after appending the features of `files`, in order, to an empty layer. */
  function ImportedLayer(dir: Directory, files: seq<string>): seq<Feature>
    decreases |files|
  {
    if files == [] then []
    else Appended(ImportedLayer(dir, files[..|files| - 1]), FeaturesOf(dir, files[|files| - 1]))
  }

  /** The whole combine phase, from the seed's parse to the duplicate removal. */
  function CombineSpec(cfg: Config, dir: Directory): Result<Combined, MergeError> {
    var seed := SeedName(cfg);
    if seed !in dir.docs then Err(SeedUnreadable)
    else
      match MergeAll(cfg, dir.docs, dir.listing, Merge(SeedTotals(dir.docs[seed]), [seed]))
      case Err(e) => Err(e)
      case Ok(m) =>
        Ok(Combined(m.totals, m.imported, WrittenBack(dir.docs[seed], m.totals),
                    Finalized(ImportedLayer(dir, m.imported), cfg.uniqueField)))
  }

  /** The seed document's root element, whose attributes the merge overwrites in place. */
  class RootElement {
    var attrs: Attrs

    constructor (attrs: Attrs)
      ensures this.attrs == attrs
    {
      this.attrs := attrs;
    }

    /** `root.set(key, value)`. */
    method Set(key: string, value: string)
      modifies this
      ensures attrs == old(attrs)[key := value]
    {
      attrs := attrs[key := value];
    }
  }

  /** Lines 296-303: write each tracked total onto the seed root as decimal text. */
  method WriteBack(root: RootElement, t: Totals)
    modifies root
    ensures root.attrs == WrittenBack(old(root.attrs), t)
  {
    if t.matched.Tracked? {
      root.Set(AttrName(Matched), IntText(t.matched.n));
    }
    if t.returned.Tracked? {
      root.Set(AttrName(Returned), IntText(t.returned.n));
    }
    if t.ofFeatures.Tracked? {
      root.Set(AttrName(OfFeatures), IntText(t.ofFeatures.n));
    }
  }

  /**
   * The three `if total is not False: total += int(root.get(name))` blocks;
   * the error names the kind whose attribute did not read as an integer.
   */
  method AddCounts(t: Totals, attrs: Attrs) returns (r: Result<Totals, Kind>)
    ensures r == AddAll(t, attrs)
  {
    var matched, returned, ofFeatures := t.matched, t.returned, t.ofFeatures;
    if matched.Tracked? {
      var n := AttrInt(attrs, Matched);
      if n.None? {
        return Err(Matched);
      }
      matched := Tracked(matched.n + n.value);
    }
    if returned.Tracked? {
      var n := AttrInt(attrs, Returned);
      if n.None? {
        return Err(Returned);
      }
      returned := Tracked(returned.n + n.value);
    }
    if ofFeatures.Tracked? {
      var n := AttrInt(attrs, OfFeatures);
      if n.None? {
        return Err(OfFeatures);
      }
      ofFeatures := Tracked(ofFeatures.n + n.value);
    }
    r := Ok(Totals(matched, returned, ofFeatures));
  }

  /**
   * `combine_files` from the seed's parse to the duplicate removal: the
   * result is what `CombineSpec` describes.
   */
  method CombineFiles(cfg: Config, dir: Directory) returns (r: Result<Combined, MergeError>)
    ensures r == CombineSpec(cfg, dir)
  {
    var first := SelectSeed(cfg);
    if first !in dir.docs {
      return Err(SeedUnreadable);
    }
    var root := new RootElement(dir.docs[first]);
    var totals := Totals(SeedCount(root.attrs, Matched), SeedCount(root.attrs, Returned), SeedCount(root.attrs, OfFeatures));
    var imported := [first];
    ghost var init := Merge(totals, imported);
    var layer := new Layer();
    layer.Append(FeaturesOf(dir, first));
    ImportedLayerSnoc(dir, [], first);
    for i := 0 to |dir.listing|
      invariant root.attrs == dir.docs[first]
      invariant layer.Valid() && layer.rows == ImportedLayer(dir, imported)
      invariant MergeAll(cfg, dir.docs, dir.listing[..i], init) == Ok(Merge(totals, imported))
    {
      var filename := dir.listing[i];
      MergeAllSnoc(cfg, dir.docs, dir.listing, i, init);
      if !StartsWith(filename, cfg.name) || filename == first {
        continue;
      }
      if filename !in dir.docs {
        MergeErrorSticks(cfg, dir.docs, dir.listing[..i + 1], dir.listing, init);
        return Err(Unreadable(filename));
      }
      var added := AddCounts(totals, dir.docs[filename]);
      if added.Err? {
        MergeErrorSticks(cfg, dir.docs, dir.listing[..i + 1], dir.listing, init);
        return Err(BadCount(filename, added.error));
      }
      totals := added.value;
      if IsZero(totals.matched) && IsZero(totals.returned) && IsZero(totals.ofFeatures) {
        continue;
      }
      layer.Append(FeaturesOf(dir, filename));
      ImportedLayerSnoc(dir, imported, filename);
      imported := imported + [filename];
    }
    assert dir.listing[..|dir.listing|] == dir.listing;
    WriteBack(root, totals);
    Finalize(layer, cfg.uniqueField);
    r := Ok(Combined(totals, imported, root.attrs, layer.rows));
  }

  lemma ImportedLayerSnoc(dir: Directory, files: seq<string>, f: string)
    ensures ImportedLayer(dir, files + [f]) == Appended(ImportedLayer(dir, files), FeaturesOf(dir, f))
  {
    assert (files + [f])[..|files|] == files;
  }

  lemma MergeAllSnoc(cfg: Config, docs: map<string, Attrs>, files: seq<string>, i: nat, init: Merge)
    requires i < |files|
    ensures MergeAll(cfg, docs, files[..i + 1], init) ==
      match MergeAll(cfg, docs, files[..i], init)
      case Err(e) => Err(e)
      case Ok(m) => MergeOne(cfg, docs, m, files[i])
  {
    assert files[..i + 1][..i] == files[..i];
  }

  /** An exception ends the loop: the files after it are never read. */
  lemma {:induction false} MergeErrorSticks(cfg: Config, docs: map<string, Attrs>, p: seq<string>, files: seq<string>, init: Merge)
    requires p <= files
    requires MergeAll(cfg, docs, p, init).Err?
    ensures MergeAll(cfg, docs, files, init) == MergeAll(cfg, docs, p, init)
    decreases |files|
  {
    if |files| > |p| {
      var init' := files[..|files| - 1];
      assert p <= init';
      MergeErrorSticks(cfg, docs, p, init', init);
    } else {
      assert files == p;
    }
  }

  // ---------------------------------------------------------------------
  // What the merge loop promises
  // ---------------------------------------------------------------------

  /**
   * The loop succeeds exactly when every candidate file parses and carries
   * every tracked count; it then keeps each kind tracked or untracked, and
   * each tracked total grows by the sum of that count over the candidates.
   */
  lemma {:induction false} MergeTotals(cfg: Config, docs: map<string, Attrs>, files: seq<string>, init: Merge)
    ensures MergeAll(cfg, docs, files, init).Ok? <==> AllReadable(cfg, docs, files, init.totals)
    ensures MergeAll(cfg, docs, files, init).Ok? ==> forall k: Kind ::
      && (MergeAll(cfg, docs, files, init).value.totals.Get(k).Tracked? <==> init.totals.Get(k).Tracked?)
      && (init.totals.Get(k).Tracked? ==>
            MergeAll(cfg, docs, files, init).value.totals.Get(k).n == init.totals.Get(k).n + CountSum(cfg, docs, files, k))
    decreases |files|
  {
    if files != [] {
      var front := files[..|files| - 1];
      var f := files[|files| - 1];
      MergeTotals(cfg, docs, front, init);
      assert files == front + [f];
      assert forall g :: g in files <==> g in front || g == f;
      match MergeAll(cfg, docs, front, init)
      case Err(_) =>
        assert !AllReadable(cfg, docs, front, init.totals);
      case Ok(m) =>
        assert forall k: Kind :: m.totals.Get(k).Tracked? <==> init.totals.Get(k).Tracked?;
        if IsCandidate(cfg, f) && f in docs {
          AddAllSpec(m.totals, docs[f]);
          assert Readable(m.totals, docs[f]) <==> Readable(init.totals, docs[f]);
        }
    }
  }

  /**
   * End to end: the combine phase succeeds only if the seed parses, and then a
   * kind is tracked exactly when the seed's attribute reads as an integer, and
   * its total is the seed's value plus the sum over every other file whose
   * name starts with the output's base name.
   */
  lemma CombineTotals(cfg: Config, dir: Directory, k: Kind)
    ensures CombineSpec(cfg, dir).Ok? ==> SeedName(cfg) in dir.docs
    ensures CombineSpec(cfg, dir).Ok? ==>
      var seed := dir.docs[SeedName(cfg)];
      var t := CombineSpec(cfg, dir).value.totals;
      && (t.Get(k).Tracked? <==> AttrInt(seed, k).Some?)
      && (t.Get(k).Tracked? ==> t.Get(k).n == AttrInt(seed, k).value + CountSum(cfg, dir.docs, dir.listing, k))
  {
    if SeedName(cfg) in dir.docs {
      var seed := dir.docs[SeedName(cfg)];
      MergeTotals(cfg, dir.docs, dir.listing, Merge(SeedTotals(seed), [SeedName(cfg)]));
      SeedTracking(seed, k);
    }
  }

  /** Untracked kinds count as zero, so with no kind tracked every other file is skipped. */
  lemma {:induction false} MergeNothingTracked(cfg: Config, docs: map<string, Attrs>, files: seq<string>, init: Merge)
    requires init.totals == Totals(Untracked, Untracked, Untracked)
    requires MergeAll(cfg, docs, files, init).Ok?
    ensures MergeAll(cfg, docs, files, init).value == init
    decreases |files|
  {
    if files != [] {
      MergeNothingTracked(cfg, docs, files[..|files| - 1], init);
    }
  }

  /** Some tracked total is positive. */
  predicate SomePositive(t: Totals) {
    exists k: Kind :: t.Get(k).Tracked? && t.Get(k).n > 0
  }

  /** No candidate file reports a negative count. */
  predicate NonNegativeCounts(cfg: Config, docs: map<string, Attrs>, files: seq<string>) {
    forall f, k: Kind :: f in files && IsCandidate(cfg, f) && f in docs && AttrInt(docs[f], k).Some?
      ==> AttrInt(docs[f], k).value >= 0
  }

  /**
   * With non-negative counts, once some tracked total is positive no later
   * candidate file is skipped: every one of them is imported, in order.
   */
  lemma {:induction false} MergeImportsAfterPositive(cfg: Config, docs: map<string, Attrs>, files: seq<string>, init: Merge)
    requires SomePositive(init.totals)
    requires NonNegativeCounts(cfg, docs, files)
    requires MergeAll(cfg, docs, files, init).Ok?
    ensures SomePositive(MergeAll(cfg, docs, files, init).value.totals)
    ensures MergeAll(cfg, docs, files, init).value.imported == init.imported + Candidates(cfg, files)
    decreases |files|
  {
    if files != [] {
      var front := files[..|files| - 1];
      var f := files[|files| - 1];
      assert forall g :: g in front ==> g in files;
      MergeImportsAfterPositive(cfg, docs, front, init);
      var m := MergeAll(cfg, docs, front, init).value;
      if IsCandidate(cfg, f) {
        AddAllSpec(m.totals, docs[f]);
        var t := MergeAll(cfg, docs, files, init).value.totals;
        var k: Kind :| m.totals.Get(k).Tracked? && m.totals.Get(k).n > 0;
        assert t.Get(k).Tracked? && t.Get(k).n > 0;
        assert !AllZero(t) by {
          match k
          case Matched =>
          case Returned =>
          case OfFeatures =>
        }
      }
    }
  }

  /**
   * The skip test of one file reads the running totals after the addition,
   * not the file's own counts: a candidate is skipped exactly when every
   * total, with untracked kinds as zero, is still zero.
   */
  lemma MergeOneSkips(cfg: Config, docs: map<string, Attrs>, m: Merge, f: string)
    requires IsCandidate(cfg, f) && f in docs
    requires MergeOne(cfg, docs, m, f).Ok?
    ensures var m' := MergeOne(cfg, docs, m, f).value;
      && m'.totals == AddAll(m.totals, docs[f]).value
      && (m'.imported == m.imported <==> AllZero(m'.totals))
      && (m'.imported == m.imported + [f] <==> !AllZero(m'.totals))
  {
  }

  /**
   * Only tracked totals are written back, as decimal text that reads back as
   * the total; untracked attributes and every other attribute are left as
   * they were.
   */
  lemma WriteBackSpec(attrs: Attrs, t: Totals, k: Kind, key: string)
    ensures t.Get(k).Tracked? ==> (
      && AttrName(k) in WrittenBack(attrs, t)
      && WrittenBack(attrs, t)[AttrName(k)] == IntText(t.Get(k).n)
      && AttrInt(WrittenBack(attrs, t), k) == Some(t.Get(k).n))
    ensures t.Get(k).Untracked? ==> (
      && (AttrName(k) in WrittenBack(attrs, t) <==> AttrName(k) in attrs)
      && (AttrName(k) in attrs ==> WrittenBack(attrs, t)[AttrName(k)] == attrs[AttrName(k)]))
    ensures key !in {AttrName(Matched), AttrName(Returned), AttrName(OfFeatures)} ==> (
      && (key in WrittenBack(attrs, t) <==> key in attrs)
      && (key in attrs ==> WrittenBack(attrs, t)[key] == attrs[key]))
  {
    if t.Get(k).Tracked? {
      ParseIntText(t.Get(k).n);
    }
  }

  /** The features of `files`, in import order. */
  function AllFeatures(dir: Directory, files: seq<string>): seq<Fields>
    decreases |files|
  {
    if files == [] then []
    else AllFeatures(dir, files[..|files| - 1]) + FeaturesOf(dir, files[|files| - 1])
  }

  /**
   * The memory layer holds every feature of the imported files, in import
   * order, under ascending rowids.
   */
  lemma {:induction false} ImportedLayerSpec(dir: Directory, files: seq<string>)
    ensures Increasing(ImportedLayer(dir, files))
    ensures |ImportedLayer(dir, files)| == |AllFeatures(dir, files)|
    ensures forall i :: 0 <= i < |AllFeatures(dir, files)| ==> ImportedLayer(dir, files)[i].fields == AllFeatures(dir, files)[i]
    decreases |files|
  {
    if files != [] {
      var front := files[..|files| - 1];
      ImportedLayerSpec(dir, front);
      AppendedSpec(ImportedLayer(dir, front), FeaturesOf(dir, files[|files| - 1]));
    }
  }

  /**
   * With `uniqueid_field` set, the exported layer keeps, for every value of
   * the field, the feature imported first (seed file first, then the
   * directory's order); without it, every imported feature.
   */
  lemma CombinedLayer(cfg: Config, dir: Directory)
    requires CombineSpec(cfg, dir).Ok?
    ensures var c := CombineSpec(cfg, dir).value;
      && (cfg.uniqueField.None? ==> c.layer == ImportedLayer(dir, c.imported))
      && (cfg.uniqueField.Some? ==> c.layer == KeepFirst(ImportedLayer(dir, c.imported), cfg.uniqueField.value))
  {
    var c := CombineSpec(cfg, dir).value;
    ImportedLayerSpec(dir, c.imported);
    if cfg.uniqueField.Some? {
      DedupIsKeepFirst(ImportedLayer(dir, c.imported), cfg.uniqueField.value);
    }
  }

  // ---------------------------------------------------------------------
  // Findings
  // ---------------------------------------------------------------------

  /**
   * As written: outside EPSG:4326 the seed file is not a planned tile. With
   * area (0, 10, 20, 30) and size 10 the planned files are `t_0_10`,
   * `t_0_20`, `t_10_10` and `t_10_20`, and the seed is `t_10_0`.
   */
  lemma SeedNotPlanned()
    ensures var cfg := Config(BBox(0, 10, 20, 30), 10, "u", "2.0.0", "l", "EPSG:3857", "t", ".gml", None);
      forall t :: t in Plan(cfg) ==> TileName(cfg, t) != SeedName(cfg)
  {
    var cfg := Config(BBox(0, 10, 20, 30), 10, "u", "2.0.0", "l", "EPSG:3857", "t", ".gml", None);
    forall t | t in Plan(cfg)
      ensures TileName(cfg, t) != SeedName(cfg)
    {
      PlanMember(cfg, t);
      RangeShape(0, 20, 10);
      if TileName(cfg, t) == SeedName(cfg) {
        TileFileInjective(cfg.name, cfg.ext, t.w, t.s, 10, 0);
      }
    }
  }

  /**
   * Corrected: the seed is the file of the tile at the area's lower corner in
   * request axis order, which is the first tile the download loop visits.
   */
  function IntendedSeedName(cfg: Config): string {
    var area := RequestArea(cfg);
    TileFile(cfg.name, cfg.ext, area.west, area.south)
  }

  lemma IntendedSeedIsFirstTile(cfg: Config)
    requires cfg.size > 0 && cfg.bbox.west < cfg.bbox.east && cfg.bbox.south < cfg.bbox.north
    ensures |Plan(cfg)| > 0 && TileName(cfg, Plan(cfg)[0]) == IntendedSeedName(cfg)
    ensures cfg.projection == Wgs84 ==> IntendedSeedName(cfg) == SeedName(cfg)
  {
    SeedIsFirstTile(cfg);
    RangeAt(cfg.bbox.west, cfg.bbox.east, cfg.size, 0);
    RangeAt(cfg.bbox.south, cfg.bbox.north, cfg.size, 0);
    PlanOrder(cfg, 0, 0);
  }

  /**
   * As written: a tile reporting zero features is imported once an earlier
   * file made a total positive, and a tile reporting features is skipped when
   * the seed carries no count attribute.
   */
  lemma SkipReadsRunningTotals()
    ensures var cfg := Config(BBox(0, 0, 20, 20), 10, "u", "2.0.0", "l", Wgs84, "t", ".gml", None);
      var empty := map["numberReturned" := "0"];
      MergeOne(cfg, map["t_1" := empty], Merge(Totals(Untracked, Tracked(10), Untracked), []), "t_1")
        == Ok(Merge(Totals(Untracked, Tracked(10), Untracked), ["t_1"]))
    ensures var cfg := Config(BBox(0, 0, 20, 20), 10, "u", "2.0.0", "l", Wgs84, "t", ".gml", None);
      var full := map["numberReturned" := "5"];
      MergeOne(cfg, map["t_1" := full], Merge(Totals(Untracked, Untracked, Untracked), []), "t_1")
        == Ok(Merge(Totals(Untracked, Untracked, Untracked), []))
  {
    var cfg := Config(BBox(0, 0, 20, 20), 10, "u", "2.0.0", "l", Wgs84, "t", ".gml", None);
    assert IntText(0) == "0";
    assert SeedName(cfg) == "t_0_0.gml";
    assert IsCandidate(cfg, "t_1");
    var empty := map["numberReturned" := "0"];
    var full := map["numberReturned" := "5"];
    assert DigitsValue("0") == 0;
    assert ParseInt("0") == Some(0);
    assert AttrInt(empty, Returned) == Some(0);
    assert AddAll(Totals(Untracked, Tracked(10), Untracked), empty) == Ok(Totals(Untracked, Tracked(10), Untracked));
    assert !AllZero(Totals(Untracked, Tracked(10), Untracked));
    assert [] + ["t_1"] == ["t_1"];
  }

  /**
   * Corrected: a file is empty when some kind is tracked and each tracked kind
   * reads zero in that file's own attributes.
   */
  predicate EmptyTile(t: Totals, attrs: Attrs)
    requires Readable(t, attrs)
  {
    (exists k: Kind :: t.Get(k).Tracked?)
    && forall k: Kind :: t.Get(k).Tracked? ==> AttrInt(attrs, k).value == 0
  }

  function IntendedMergeOne(cfg: Config, docs: map<string, Attrs>, m: Merge, f: string): Result<Merge, MergeError> {
    if !IsCandidate(cfg, f) then Ok(m)
    else if f !in docs then Err(Unreadable(f))
    else match AddAll(m.totals, docs[f])
      case Err(k) => Err(BadCount(f, k))
      case Ok(t) =>
        AddAllSpec(m.totals, docs[f]);
        Ok(Merge(t, if EmptyTile(m.totals, docs[f]) then m.imported else m.imported + [f]))
  }

  /**
   * The corrected step adds the same totals and skips a candidate exactly when
   * the file itself reports zero features.
   */
  lemma IntendedMergeOneSkips(cfg: Config, docs: map<string, Attrs>, m: Merge, f: string)
    requires IsCandidate(cfg, f) && f in docs && Readable(m.totals, docs[f])
    ensures IntendedMergeOne(cfg, docs, m, f).Ok?
    ensures IntendedMergeOne(cfg, docs, m, f).value.totals == MergeOne(cfg, docs, m, f).value.totals
    ensures IntendedMergeOne(cfg, docs, m, f).value.imported
      == if EmptyTile(m.totals, docs[f]) then m.imported else m.imported + [f]
  {
    AddAllSpec(m.totals, docs[f]);
  }

  /** The corrected fold: the merge loop with the corrected step. */
  function IntendedMergeAll(cfg: Config, docs: map<string, Attrs>, files: seq<string>, init: Merge): Result<Merge, MergeError>
    decreases |files|
  {
    if files == [] then Ok(init)
    else match IntendedMergeAll(cfg, docs, files[..|files| - 1], init)
      case Err(e) => Err(e)
      case Ok(m) => IntendedMergeOne(cfg, docs, m, files[|files| - 1])
  }

  /** Two totals track the same kinds. */
  predicate SameTracking(a: Totals, b: Totals) {
    forall k: Kind :: a.Get(k).Tracked? <==> b.Get(k).Tracked?
  }

  /** Whether a file is readable and empty depends only on which kinds are tracked. */
  lemma SameTrackingEmpty(a: Totals, b: Totals, attrs: Attrs)
    requires SameTracking(a, b) && Readable(a, attrs)
    ensures Readable(b, attrs)
    ensures EmptyTile(a, attrs) <==> EmptyTile(b, attrs)
  {
  }

  /** The candidates of `files` that do not report zero features under the kinds `t` tracks. */
  function NonEmptyCandidates(cfg: Config, docs: map<string, Attrs>, t: Totals, files: seq<string>): seq<string>
    decreases |files|
  {
    if files == [] then []
    else
      var init := NonEmptyCandidates(cfg, docs, t, files[..|files| - 1]);
      var f := files[|files| - 1];
      if IsCandidate(cfg, f) && !(f in docs && Readable(t, docs[f]) && EmptyTile(t, docs[f]))
      then init + [f] else init
  }

  /**
   * The corrected fold fails exactly where the loop as written fails and
   * reaches the same totals; it imports, in order, the candidates whose own
   * counts are not all zero.
   */
  lemma {:induction false} IntendedMergeAllSpec(cfg: Config, docs: map<string, Attrs>, files: seq<string>, init: Merge)
    ensures IntendedMergeAll(cfg, docs, files, init).Ok? <==> MergeAll(cfg, docs, files, init).Ok?
    ensures IntendedMergeAll(cfg, docs, files, init).Ok? ==>
      && IntendedMergeAll(cfg, docs, files, init).value.totals == MergeAll(cfg, docs, files, init).value.totals
      && SameTracking(IntendedMergeAll(cfg, docs, files, init).value.totals, init.totals)
      && IntendedMergeAll(cfg, docs, files, init).value.imported
           == init.imported + NonEmptyCandidates(cfg, docs, init.totals, files)
    decreases |files|
  {
    if files != [] {
      var front := files[..|files| - 1];
      var f := files[|files| - 1];
      IntendedMergeAllSpec(cfg, docs, front, init);
      var r := IntendedMergeAll(cfg, docs, front, init);
      if r.Ok? && IsCandidate(cfg, f) && f in docs {
        var m := r.value;
        AddAllSpec(m.totals, docs[f]);
        if Readable(m.totals, docs[f]) {
          SameTrackingEmpty(m.totals, init.totals, docs[f]);
          assert init.imported + NonEmptyCandidates(cfg, docs, init.totals, front) + [f]
            == init.imported + (NonEmptyCandidates(cfg, docs, init.totals, front) + [f]);
        }
      }
    }
  }

  /**
   * In contrast with `MergeNothingTracked`: when the seed tracks no kind, the
   * corrected fold imports every candidate file, in order.
   */
  lemma {:induction false} IntendedImportsAllUntracked(cfg: Config, docs: map<string, Attrs>, files: seq<string>, init: Merge)
    requires init.totals == Totals(Untracked, Untracked, Untracked)
    requires IntendedMergeAll(cfg, docs, files, init).Ok?
    ensures IntendedMergeAll(cfg, docs, files, init).value == Merge(init.totals, init.imported + Candidates(cfg, files))
    decreases |files|
  {
    if files != [] {
      var front := files[..|files| - 1];
      var f := files[|files| - 1];
      IntendedImportsAllUntracked(cfg, docs, front, init);
      if IsCandidate(cfg, f) {
        assert !EmptyTile(init.totals, docs[f]);
        assert init.imported + Candidates(cfg, front) + [f] == init.imported + (Candidates(cfg, front) + [f]);
      }
    }
  }
}
