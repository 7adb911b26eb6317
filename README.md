# wfs-downloader, modelled in Dafny

`wfs_downloader/download.py` fetches the features of a WFS layer in square
tiles and then merges the tiles into one GeoPackage. This project models the
bookkeeping around that work and proves properties of it:

- **Tile grid** (`tile_grid.dfy`, module `TileGrid`). `arange` is modelled
  twice: as the function `Range` and as the while-loop method `Arange`, which
  is proved equal to it. The two per-axis origin sequences are built with it,
  and swapped for `EPSG:4326`. The nested loops enumerate the tiles. Each tile
  has a request box `(w, s, w + size, s + size)`, a GetFeature URL and a cache
  file `name_{w}_{s}{ext}`.
- **Download loop** (`download.dfy`, module `Download`). `download_files` is a
  method over two objects:
  - a `TileCache` holding the set of file names in the temporary directory;
  - a `Server` whose `Retrieve` plays one `urlretrieve` call. Its outcome
    comes from an oracle indexed by the request number.

  The loop skips a cached tile, retries once, and returns from the whole loop
  after a second failure. The method is proved equal to the state-machine
  function `Run` over the planned tiles, and `Run` carries the properties.
- **Counts** (`counts.dfy`, module `Counts`). These are the three count
  attributes of a WFS response. A kind whose attribute on the seed file is
  missing or does not parse as an integer is `Untracked` (Python's `False`),
  and that attribute is then never read from any other file. The
  module also holds the additions made for each merged file.
- **Combine** (`combine.dfy`, module `Combine`). `combine_files` is modelled
  step by step:
  - the choice of the seed file;
  - the loop over the directory listing, which keeps only names that start
    with the output's base name and are not the seed;
  - the running totals and the skip test on them;
  - the in-memory layer that every imported file is appended to;
  - the write-back of the totals onto the seed's root element (a
    `RootElement` object);
  - the duplicate removal.

  The method `CombineFiles` is proved equal to the function `CombineSpec`.
- **Deduplication** (`dedup.dfy`, module `Dedup`). This is the rule of
  `delete ... where rowid not in (select min(rowid) ... group by field)`,
  applied to a `Layer` object of rows with SQLite rowids. `Append` stands for
  one `-append` import. A missing field is SQL NULL, and NULL forms one group
  of its own.
- `text.dfy` (module `Text`) holds decimal rendering (`str`, `%s`, `%f` of an
  integer) and parsing (`int()`). `config.dfy` (module `Config`) holds the
  configuration record. `wrappers.dfy` holds `Option` and `Result`.

Exceptions are error values. A download ending in an uncaught exception ends
in phase `Raised`. A combine error is a `MergeError`: `SeedUnreadable` when the
seed does not parse, `Unreadable` naming another file that does not parse, or
`BadCount` naming the file and the count kind whose attribute did not read as
an integer.

Behaviours of the code that a reader might not expect:

- `arange` keeps the remainder strip. Each axis has
  `ceil((max - min) / size)` origins, and the last tile overhangs the far
  edge (`TileGrid.RangeCount`, `TileGrid.PlanCovers`).
- The skip test at `wfs_downloader/download.py` line 269 reads the running
  totals after this file's counts were added, not the file's own counts. The
  comment at line 268 ("avoid errors in merging if 0 elements") is about the
  file being merged
  (`Combine.MergeOneSkips`; see Findings).
- After two failed attempts the message at line 111 says the existing files
  will be merged. When neither attempt created the file, `os.remove` at
  line 112 raises instead (see Findings).
- Only a null `uniqueid_field` turns the duplicate removal off: the test that
  takes effect is `is not None` at line 326. The comparison with the string
  `'None'` at line 237 guards only `pass`, so a field named `None` in the
  configuration is grouped on like any other (`Dedup.Finalize`).

## Model

| member | source | states |
|---|---|---|
| Text.TileFile | wfs_downloader/download.py:88-94 | a cache file name starts with the output's base name, which is the prefix the combine loop filters on |
| Text.IntTextInjective | wfs_downloader/download.py:88-94 | different integers render as different decimal text |
| Text.TileFileInjective | wfs_downloader/download.py:88-94 | `name_{w}_{s}{ext}` determines `w` and `s`, so different tiles have different cache files |
| Text.ParseIntText | wfs_downloader/download.py:296-303 | `int(str(n)) == n`: a total written back reads back as the same integer |
| TileGrid.Arange | wfs_downloader/download.py:357-361 | the while loop yields exactly the sequence `Range(start, stop, step)` |
| TileGrid.RangeAt | wfs_downloader/download.py:357-361 | element `i` is `start + i * step` |
| TileGrid.RangeLength | wfs_downloader/download.py:357-361 | index `n` exists iff `start + n * step < stop` |
| TileGrid.RangeCount | wfs_downloader/download.py:357-361 | the length is 0 when `start >= stop`, else `ceil((stop - start) / step)`: the remainder strip is kept |
| TileGrid.RangeShape | wfs_downloader/download.py:357-361 | every element is in `[start, stop)`, consecutive elements differ by `step`, the last plus `step` reaches `stop`, and the sequence is empty iff `start >= stop` |
| TileGrid.PlanAxes | wfs_downloader/download.py:65-72 | the two origin sequences are the `arange` of each axis, exchanged for EPSG:4326 |
| TileGrid.RangeCovers | wfs_downloader/download.py:65-66 | every coordinate in `[start, stop)` lies in the strip of some origin |
| TileGrid.RangeStripsDisjoint | wfs_downloader/download.py:65-66 | no coordinate lies in the strips of two different origins |
| TileGrid.ProductLength | wfs_downloader/download.py:74-75 | the nested loops visit `|xs| * |ys|` tiles |
| TileGrid.ProductAt | wfs_downloader/download.py:74-75 | tile `i * |ys| + j` is `(xs[i], ys[j])`: outer loop on the first axis, inner on the second |
| TileGrid.ProductMember | wfs_downloader/download.py:74-75 | a tile is visited iff its west is in `xs` and its south is in `ys` |
| TileGrid.PlanMember | wfs_downloader/download.py:65-75 | the planned tiles are exactly west range × south range, with the two ranges exchanged for EPSG:4326 |
| TileGrid.PlanOrder | wfs_downloader/download.py:65-75 | the plan's length and the position of every tile after the axis swap |
| TileGrid.PlanCovers | wfs_downloader/download.py:65-86 | the request boxes of the planned tiles cover every point of the requested area, and no point lies in two of them |
| Download.TileCache.Remove | wfs_downloader/download.py:112 | `os.remove` removes the file and reports whether it existed |
| Download.Server.Retrieve | wfs_downloader/download.py:103-110 | a retrieval logs its request, returns the oracle's outcome and leaves the file unless it failed before opening it |
| Download.VisitTile | wfs_downloader/download.py:88-116 | one pass of the loop body does what `Step` says |
| Download.DownloadRow | wfs_downloader/download.py:75-116 | the inner loop ends in the state `Run` gives after a prefix of the row, the whole row unless it returned or raised |
| Download.DownloadFiles | wfs_downloader/download.py:65-116 | the nested loops leave the cache, the request log and the phase as `Run` over the plan says |
| Download.StepSkipsCached | wfs_downloader/download.py:95-98 | a tile whose file exists issues no request and changes nothing |
| Download.StepRetrySucceeds | wfs_downloader/download.py:103-116 | after a failure and a successful retry, the tile's file is cached, two requests were made, and the loop goes on iff the file parses |
| Download.StepDoubleFailure | wfs_downloader/download.py:103-113 | after two failures every earlier file remains and the tile's file is absent; the loop returns iff some attempt had created the file, and raises iff neither did |
| Download.StepFiles | wfs_downloader/download.py:95-116 | one tile adds at most its own file and removes none |
| Download.RunHalted | wfs_downloader/download.py:111-113 | once the loop has returned or raised, no later tile is attempted |
| Download.StepCompletes | wfs_downloader/download.py:95-116 | a tile after which the loop goes on has its file in the cache |
| Download.HaltedPlan | wfs_downloader/download.py:74-113 | when the loop halts inside row `i`, the run over the whole plan ends in that state |
| Download.RunHaltedPrefix | wfs_downloader/download.py:74-113 | the state after a halt is the final state |
| Download.RunFiles | wfs_downloader/download.py:74-116 | the run never deletes a cached file and adds only planned tile files |
| Download.RunAllCached | wfs_downloader/download.py:95-98 | over a cache that holds every tile's file, the run makes no request and changes nothing |
| Download.RunRequests | wfs_downloader/download.py:95-113 | the request log only grows, and every new request is for a tile whose file was missing when the run started |
| Download.FetchRequests | wfs_downloader/download.py:103-110 | a fetch makes one or two requests for its tile |
| Download.RunComplete | wfs_downloader/download.py:74-116 | a run that ends normally leaves every tile's file in the cache |
| Download.DoubleFailureBeforeWriteRaises | wfs_downloader/download.py:112 | two failures that never created the file end in an exception, not the intended return |
| Download.GuardedStepDoubleFailure | wfs_downloader/download.py:108-113 | with the removal guarded, a double failure returns with the cache as it was |
| Download.GuardedStepAgrees | wfs_downloader/download.py:108-113 | the guarded step differs from the code only where the code raises |
| Counts.SeedTracking | wfs_downloader/download.py:168-185 | a kind is tracked iff the seed's attribute reads as an integer, and it starts at that integer |
| Counts.AddAllSpec | wfs_downloader/download.py:253-266 | adding a file succeeds iff it carries every tracked attribute as an integer; untracked kinds stay untracked; tracked totals grow by the file's values |
| Counts.AddAllFirstError | wfs_downloader/download.py:253-266 | the reported error names a tracked kind whose attribute does not read, and each kind added before it was readable where tracked |
| Combine.SelectSeed | wfs_downloader/download.py:141-161 | whatever the projection, the seed is `name_{south}_{west}{ext}` |
| Combine.SeedIsFirstTile | wfs_downloader/download.py:156-161 | the seed is the first planned tile's file iff the projection is EPSG:4326 or west equals south |
| Combine.AddCounts | wfs_downloader/download.py:253-266 | the three guarded additions compute `AddAll` |
| Combine.RootElement.Set | wfs_downloader/download.py:297 | `set` replaces exactly one attribute |
| Combine.WriteBack | wfs_downloader/download.py:296-303 | the seed's attributes become `WrittenBack` of the totals |
| Combine.CombineFiles | wfs_downloader/download.py:136-331 | the seed, the loop, the write-back and the duplicate removal compute `CombineSpec` |
| Combine.MergeErrorSticks | wfs_downloader/download.py:250-266 | an exception ends the loop; later files are not read |
| Combine.MergeTotals | wfs_downloader/download.py:243-266 | the loop succeeds iff every candidate file parses and carries the tracked counts; each kind keeps its tracking; each tracked total is its start plus the sum over the candidates |
| Combine.CombineTotals | wfs_downloader/download.py:164-266 | on success the seed parsed, a kind is tracked iff the seed carries it, and its total is the seed's count plus the sum over every other file with the base-name prefix |
| Combine.MergeNothingTracked | wfs_downloader/download.py:268-271 | with no kind tracked, every other file is skipped |
| Combine.MergeImportsAfterPositive | wfs_downloader/download.py:268-271 | with non-negative counts, once a tracked total is positive every later candidate is imported, in order |
| Combine.MergeOneSkips | wfs_downloader/download.py:268-271 | a candidate is skipped iff every running total after the addition is 0, with untracked kinds counting as 0 |
| Combine.WriteBackSpec | wfs_downloader/download.py:296-303 | only tracked kinds are written, as text that reads back as the total; other attributes are untouched |
| Combine.ImportedLayerSpec | wfs_downloader/download.py:229-278 | the memory layer holds every feature of the imported files in import order, with ascending rowids |
| Combine.CombinedLayer | wfs_downloader/download.py:326-331 | with a unique field, the exported layer keeps the first imported feature of each key value; without one, every feature |
| Combine.SeedNotPlanned | wfs_downloader/download.py:156-161 | a concrete EPSG:3857 configuration whose seed is none of the planned files |
| Combine.IntendedSeedIsFirstTile | wfs_downloader/download.py:156-161 | the corrected seed is always the first planned tile's file, and agrees with the code's seed under EPSG:4326 |
| Combine.SkipReadsRunningTotals | wfs_downloader/download.py:268-271 | a zero-feature file is imported after a positive total, and a non-empty file is skipped when nothing is tracked |
| Combine.IntendedMergeOneSkips | wfs_downloader/download.py:268-271 | the corrected step adds the same totals and skips a file iff its own tracked counts are all 0 |
| Combine.IntendedMergeAllSpec | wfs_downloader/download.py:243-271 | the corrected merge loop fails where the loop as written fails, reaches the same totals, keeps the tracked kinds, and imports in order exactly the candidates whose own counts are not all 0 |
| Combine.IntendedImportsAllUntracked | wfs_downloader/download.py:268-271 | with no kind tracked, the corrected merge loop imports every candidate file in order, where the loop as written imports none |
| Dedup.MinRowid | wfs_downloader/download.py:330 | `min(rowid)` of a group is the rowid of a member of the group and is at most every member's rowid; it is absent iff the group is empty |
| Dedup.KeepMinMember | wfs_downloader/download.py:330 | a row is kept iff its rowid is its group's minimum; the result is a sub-multiset |
| Dedup.DedupMember | wfs_downloader/download.py:330 | the delete keeps exactly the rows holding their group's least rowid, and adds none |
| Dedup.DedupKeepsKeys | wfs_downloader/download.py:330 | every key value of the layer keeps a row |
| Dedup.DedupDistinctKeys | wfs_downloader/download.py:330 | with distinct rowids, the kept rows have pairwise distinct keys |
| Dedup.DedupIdempotent | wfs_downloader/download.py:330 | running the delete again removes nothing |
| Dedup.SurvivesIffFirst | wfs_downloader/download.py:330 | with ascending rowids, a row is kept iff no earlier row has its key |
| Dedup.DedupIsKeepFirst | wfs_downloader/download.py:330 | with ascending rowids, the delete equals keeping the first row of every key |
| Dedup.AppendedSpec | wfs_downloader/download.py:278 | appending keeps the existing rows, adds the file's features in order, and keeps rowids ascending |
| Dedup.Layer.Append | wfs_downloader/download.py:278 | an import appends the file's features under fresh ascending rowids |
| Dedup.Layer.DeleteDuplicates | wfs_downloader/download.py:330 | the layer becomes `Dedup` of its rows and its rowids stay ascending |
| Dedup.Finalize | wfs_downloader/download.py:326-331 | duplicates are removed iff `uniqueid_field` is not null |

## Left out

- HTTP: `urlretrieve`, the user agent and the connection are replaced by an
  outcome oracle. It says for each request whether the file was written,
  whether it is well-formed XML, and whether a failure happened before or
  after the file was opened.
- The cooldown `time.sleep(10)`, the configured interval and the timing in
  `main` only wait.
- Logging: the version-dependent reading and printing of the count
  attributes after a download, the other prints, and the "No results" branch
  after the write-back. None of them changes state.
- XML: a parsed document is its root's attribute map. A file that does not
  parse is missing from the map.
- GDAL/OGR is modelled only as appending features to a layer with ascending
  rowids. Left out are: reprojection to EPSG:4326, `-skipfailures`, `/vsimem`
  staging, deleting an existing output, the export to disk and the spatial
  index. The seed root's attributes are not serialised anywhere, as in the
  code.
- Paths: `os.path.splitext`, `basename` and the join with `tmpdir` are
  replaced by the configured base name and extension. Files are named
  relative to the temporary directory.
- `os.listdir` order is an input (`Directory.listing`), not a fixed order.
- Coordinates and `size` are integers. Float accumulation in `arange` and
  `%f`/`%s` of float values are not modelled. An integer renders under `%f`
  as its decimal text followed by `.000000`. Python's `%f` goes through a
  float, so this holds only for `|n| <= 2^53`. Larger coordinates, which would
  be rounded, are not modelled.
- `main`, argparse and YAML loading, the `--no-download`/`--no-combine`
  flags, Python 2 branches and commented-out code are not modelled.
- Text.ParseInt: accepts an optional sign followed by ASCII digits. Python's
  `int()` also accepts surrounding whitespace, `_` between digits and
  non-ASCII digits. Attributes spelled that way are modelled as unreadable.
- TileGrid.Range: requires `step > 0` or an empty range. For any other input,
  `arange` never returns.

## Findings

| source | as written | input that shows it | evidently intended | confidence | as-written member | corrected member |
|---|---|---|---|---|---|---|
| wfs_downloader/download.py:112 | after two failed retrievals, `os.remove(filename)` runs unguarded | both attempts fail before the file is opened (connection refused, HTTP error status); `os.remove` raises FileNotFoundError, so combine never runs | return from the download loop with the cache unchanged, then merge what exists | not executed | Download.DoubleFailureBeforeWriteRaises | Download.GuardedStepDoubleFailure |
| wfs_downloader/download.py:156-161 | the seed is always `name_{south}_{west}` | EPSG:3857, bbox (0, 10, 20, 30), size 10: the planned files are `t_0_10`, `t_0_20`, `t_10_10` and `t_10_20`; the seed `t_10_0` does not exist, so `etree.parse` raises | the file of the first planned tile: lower corner in request axis order | not executed | Combine.SeedNotPlanned | Combine.IntendedSeedIsFirstTile |
| wfs_downloader/download.py:268-271 | the skip test reads the running totals | a file with `numberReturned="0"` after a total of 10 is imported; with no count attribute on the seed, a file with `numberReturned="5"` is skipped | skip a file iff some kind is tracked and the file's own tracked counts are all 0 | not executed | Combine.SkipReadsRunningTotals | Combine.IntendedMergeAllSpec |

`DownloadFiles` and `CombineFiles` model the code as written, so the
properties above describe what the program does. The corrected definitions
(`GuardedStep`, `IntendedSeedName`, `IntendedMergeOne` and its fold
`IntendedMergeAll`) sit beside them. Each
has its intended property proved, and a lemma states exactly where it departs
from the code as written.
