/**
 * The in-memory GeoPackage layer the merge appends features to, and the
 * duplicate removal run on it before export:
 *   delete from layer where rowid not in
 *     (select min(rowid) from layer group by uniqueid_field)
 */
module Dedup {
  import opened Wrappers

  /** The attribute values of one feature. */
  type Fields = map<string, string>

  /** A row of the layer: its SQLite rowid and its fields. */
  datatype Feature = Feature(rowid: int, fields: Fields)

  /** The value grouped on; None is SQL NULL, which forms one group of its own. */
  function Key(f: Feature, field: string): Option<string> {
    if field in f.fields then Some(f.fields[field]) else None
  }

  /** `select min(rowid) ... group by field` for the group of key `k`; None when the group is empty. */
  function MinRowid(rows: seq<Feature>, field: string, k: Option<string>): (m: Option<int>)
    ensures m.None? <==> forall i :: 0 <= i < |rows| ==> Key(rows[i], field) != k
    ensures m.Some? ==> exists i :: 0 <= i < |rows| && Key(rows[i], field) == k && rows[i].rowid == m.value
    ensures m.Some? ==> forall i :: 0 <= i < |rows| && Key(rows[i], field) == k ==> m.value <= rows[i].rowid
    decreases |rows|
  {
    if rows == [] then None
    else
      var front := rows[..|rows| - 1];
      var last := rows[|rows| - 1];
      assert forall i :: 0 <= i < |front| ==> front[i] == rows[i];
      var m := MinRowid(front, field, k);
      if Key(last, field) != k then m
      else if m.Some? && m.value <= last.rowid then m
      else Some(last.rowid)
  }

  /** A row is kept when its rowid is the least of its group. */
  predicate Survives(all: seq<Feature>, f: Feature, field: string) {
    MinRowid(all, field, Key(f, field)) == Some(f.rowid)
  }

  /** The rows of `part`, in order, that survive the delete over `all`. */
  function KeepMin(all: seq<Feature>, part: seq<Feature>, field: string): seq<Feature>
    decreases |part|
  {
    if part == [] then []
    else
      var rest := KeepMin(all, part[..|part| - 1], field);
      if Survives(all, part[|part| - 1], field) then rest + [part[|part| - 1]] else rest
  }

  /** The layer after the delete statement. */
  function Dedup(rows: seq<Feature>, field: string): seq<Feature> {
    KeepMin(rows, rows, field)
  }

  /** Rowids ascend in scan order, as SQLite assigns them to appended rows. */
  predicate Increasing(rows: seq<Feature>) {
    forall i, j :: 0 <= i < j < |rows| ==> rows[i].rowid < rows[j].rowid
  }

  predicate UniqueRowids(rows: seq<Feature>) {
    forall i, j :: 0 <= i < j < |rows| ==> rows[i].rowid != rows[j].rowid
  }

  /** No earlier row has the same key as row `i`. */
  predicate FirstOfKey(rows: seq<Feature>, i: int, field: string)
    requires 0 <= i < |rows|
  {
    forall j :: 0 <= j < i ==> Key(rows[j], field) != Key(rows[i], field)
  }

  /** Reference definition: keep the first row of every key, in order. */
  function KeepFirst(rows: seq<Feature>, field: string): seq<Feature>
    decreases |rows|
  {
    if rows == [] then []
    else
      var rest := KeepFirst(rows[..|rows| - 1], field);
      if FirstOfKey(rows, |rows| - 1, field) then rest + [rows[|rows| - 1]] else rest
  }

  // ---------------------------------------------------------------------
  // The delete statement
  // ---------------------------------------------------------------------

  /** The delete keeps exactly the rows of `part` that hold their group's least rowid. */
  lemma {:induction false} KeepMinMember(all: seq<Feature>, part: seq<Feature>, field: string)
    ensures forall f :: f in KeepMin(all, part, field) <==> f in part && Survives(all, f, field)
    ensures multiset(KeepMin(all, part, field)) <= multiset(part)
    decreases |part|
  {
    if part != [] {
      var front := part[..|part| - 1];
      KeepMinMember(all, front, field);
      assert part == front + [part[|part| - 1]];
    }
  }

  /** Keeping every row is the identity. */
  lemma {:induction false} KeepMinAll(all: seq<Feature>, part: seq<Feature>, field: string)
    requires forall f :: f in part ==> Survives(all, f, field)
    ensures KeepMin(all, part, field) == part
    decreases |part|
  {
    if part != [] {
      var front := part[..|part| - 1];
      assert forall f :: f in front ==> f in part;
      KeepMinAll(all, front, field);
      assert part == front + [part[|part| - 1]];
    }
  }

  /** The kept rows keep their relative order, so ascending rowids stay ascending. */
  lemma {:induction false} KeepMinIncreasing(all: seq<Feature>, part: seq<Feature>, field: string)
    requires Increasing(part)
    ensures Increasing(KeepMin(all, part, field))
    decreases |part|
  {
    if part != [] {
      var front := part[..|part| - 1];
      var last := part[|part| - 1];
      KeepMinIncreasing(all, front, field);
      KeepMinMember(all, front, field);
      var rest := KeepMin(all, front, field);
      forall f | f in rest
        ensures f.rowid < last.rowid
      {
        var i :| 0 <= i < |front| && front[i] == f;
        assert part[i] == f;
      }
    }
  }

  /** A row is kept iff it is in the layer and its rowid is the least of its group. */
  lemma DedupMember(rows: seq<Feature>, field: string, f: Feature)
    ensures f in Dedup(rows, field) <==> f in rows && MinRowid(rows, field, Key(f, field)) == Some(f.rowid)
    ensures multiset(Dedup(rows, field)) <= multiset(rows)
  {
    KeepMinMember(rows, rows, field);
  }

  /** Every key of the layer keeps a row. */
  lemma DedupKeepsKeys(rows: seq<Feature>, field: string, i: int)
    requires 0 <= i < |rows|
    ensures exists f :: f in Dedup(rows, field) && Key(f, field) == Key(rows[i], field)
  {
    KeepMinMember(rows, rows, field);
    var m := MinRowid(rows, field, Key(rows[i], field));
    var j :| 0 <= j < |rows| && Key(rows[j], field) == Key(rows[i], field) && rows[j].rowid == m.value;
    assert rows[j] in Dedup(rows, field);
  }

  /** With distinct rowids, no two kept rows share a key. */
  lemma DedupDistinctKeys(rows: seq<Feature>, field: string)
    requires UniqueRowids(rows)
    ensures forall i, j :: 0 <= i < j < |Dedup(rows, field)| ==>
      Key(Dedup(rows, field)[i], field) != Key(Dedup(rows, field)[j], field)
  {
    var d := Dedup(rows, field);
    KeepMinMember(rows, rows, field);
    assert UniqueRowids(d) by {
      forall i, j | 0 <= i < j < |d|
        ensures d[i].rowid != d[j].rowid
      {
        KeepMinUnique(rows, rows, field);
      }
    }
    forall i, j | 0 <= i < j < |d|
      ensures Key(d[i], field) != Key(d[j], field)
    {
      assert d[i] in d && d[j] in d;
    }
  }

  /** With distinct rowids the kept rows have distinct rowids too. */
  lemma {:induction false} KeepMinUnique(all: seq<Feature>, part: seq<Feature>, field: string)
    requires UniqueRowids(part)
    ensures UniqueRowids(KeepMin(all, part, field))
    decreases |part|
  {
    if part != [] {
      var front := part[..|part| - 1];
      var last := part[|part| - 1];
      KeepMinUnique(all, front, field);
      KeepMinMember(all, front, field);
      var rest := KeepMin(all, front, field);
      forall f | f in rest
        ensures f.rowid != last.rowid
      {
        var i :| 0 <= i < |front| && front[i] == f;
        assert part[i] == f;
      }
    }
  }

  /** Running the delete a second time removes nothing. */
  lemma DedupIdempotent(rows: seq<Feature>, field: string)
    ensures Dedup(Dedup(rows, field), field) == Dedup(rows, field)
  {
    var d := Dedup(rows, field);
    KeepMinMember(rows, rows, field);
    forall f | f in d
      ensures Survives(d, f, field)
    {
      var m := MinRowid(d, field, Key(f, field));
      var i :| 0 <= i < |d| && d[i] == f;
      var j :| 0 <= j < |d| && Key(d[j], field) == Key(f, field) && d[j].rowid == m.value;
      assert d[j] in d;
    }
    KeepMinAll(d, d, field);
  }

  /** With ascending rowids, a row holds its group's least rowid iff no earlier row has its key. */
  lemma SurvivesIffFirst(rows: seq<Feature>, field: string, i: int)
    requires Increasing(rows) && 0 <= i < |rows|
    ensures Survives(rows, rows[i], field) <==> FirstOfKey(rows, i, field)
  {
    var m := MinRowid(rows, field, Key(rows[i], field));
    var w :| 0 <= w < |rows| && Key(rows[w], field) == Key(rows[i], field) && rows[w].rowid == m.value;
    if FirstOfKey(rows, i, field) {
      assert w >= i;
    }
  }

  /**
   * With ascending rowids the delete keeps, in order, the first row of every
   * key: on an appended layer, the feature imported first.
   */
  lemma DedupIsKeepFirst(rows: seq<Feature>, field: string)
    requires Increasing(rows)
    ensures Dedup(rows, field) == KeepFirst(rows, field)
  {
    KeepMinPrefix(rows, field, |rows|);
    assert rows[..|rows|] == rows;
  }

  lemma {:induction false} KeepMinPrefix(rows: seq<Feature>, field: string, n: nat)
    requires Increasing(rows) && n <= |rows|
    ensures KeepMin(rows, rows[..n], field) == KeepFirst(rows[..n], field)
  {
    if n > 0 {
      KeepMinPrefix(rows, field, n - 1);
      var p, q := rows[..n], rows[..n - 1];
      assert p[..n - 1] == q;
      assert p[n - 1] == rows[n - 1];
      assert forall j :: 0 <= j < n ==> p[j] == rows[j];
      SurvivesIffFirst(rows, field, n - 1);
      assert FirstOfKey(p, n - 1, field) <==> FirstOfKey(rows, n - 1, field);
      assert KeepFirst(p, field) == if FirstOfKey(p, n - 1, field) then KeepFirst(q, field) + [p[n - 1]] else KeepFirst(q, field);
      assert KeepMin(rows, p, field) == if Survives(rows, p[n - 1], field) then KeepMin(rows, q, field) + [p[n - 1]] else KeepMin(rows, q, field);
    }
  }

  // ---------------------------------------------------------------------
  // The layer
  // ---------------------------------------------------------------------

  /** The rowid SQLite gives the next appended row of an ascending layer. */
  function NextRowid(rows: seq<Feature>): int {
    if rows == [] then 1 else rows[|rows| - 1].rowid + 1
  }

  /** Features appended from `start` on, one rowid each. */
  function Numbered(start: int, fs: seq<Fields>): seq<Feature> {
    seq(|fs|, i requires 0 <= i < |fs| => Feature(start + i, fs[i]))
  }

  /** The layer after `ogr2ogr -append` of one file's features. */
  function Appended(rows: seq<Feature>, fs: seq<Fields>): seq<Feature> {
    rows + Numbered(NextRowid(rows), fs)
  }

  /** Appending keeps rowids ascending and leaves the rows already there as they were. */
  lemma AppendedSpec(rows: seq<Feature>, fs: seq<Fields>)
    requires Increasing(rows)
    ensures Increasing(Appended(rows, fs))
    ensures |Appended(rows, fs)| == |rows| + |fs|
    ensures Appended(rows, fs)[..|rows|] == rows
    ensures forall i :: 0 <= i < |fs| ==> Appended(rows, fs)[|rows| + i].fields == fs[i]
  {
    var r := Appended(rows, fs);
    forall i, j | 0 <= i < j < |r|
      ensures r[i].rowid < r[j].rowid
    {
      if j >= |rows| && i < |rows| {
        assert rows[i].rowid <= rows[|rows| - 1].rowid;
      }
    }
  }

  /** The memory layer (`/vsimem/...gpkg`) the merge writes into. */
  class Layer {
    var rows: seq<Feature>

    predicate Valid()
      reads this
    {
      Increasing(rows)
    }

    constructor ()
      ensures rows == [] && Valid()
    {
      rows := [];
    }

    /** `gdal.VectorTranslate(outmemfile, srcDS=file, options=[..., '-append', ...])`. */
    method Append(fs: seq<Fields>)
      requires Valid()
      modifies this
      ensures Valid()
      ensures rows == Appended(old(rows), fs)
    {
      AppendedSpec(rows, fs);
      rows := Appended(rows, fs);
    }

    /** The delete statement grouped on `field`. */
    method DeleteDuplicates(field: string)
      requires Valid()
      modifies this
      ensures Valid()
      ensures rows == Dedup(old(rows), field)
    {
      KeepMinIncreasing(rows, rows, field);
      rows := Dedup(rows, field);
    }
  }

  /** Duplicates are removed only when `uniqueid_field` is configured. */
  function Finalized(rows: seq<Feature>, uniqueField: Option<string>): seq<Feature> {
    if uniqueField.Some? then Dedup(rows, uniqueField.value) else rows
  }

  /** The `if config['uniqueid_field'] is not None` block. */
  method Finalize(layer: Layer, uniqueField: Option<string>)
    requires layer.Valid()
    modifies layer
    ensures layer.Valid()
    ensures layer.rows == Finalized(old(layer.rows), uniqueField)
  {
    if uniqueField.Some? {
      layer.DeleteDuplicates(uniqueField.value);
    }
  }
}
