/**
 * Reading and writing emitter tables: which mapping keys the CSV and SMAP
 * readers look up, how their columns become the emitter dict, and the column
 * layout the CSV writer produces.
 *
 * A file is its contents: a CSV file is a table of named columns, a SMAP
 * `.mat` file the fields of its `saveloc/loc` group; the writer returns the
 * ordered columns it would hand to pandas.
 */
module EmitterIo {
  import opened Wrappers
  import opened OrderedDict

  /** The Python exceptions these functions can raise. */
  datatype IoError =
    | KeyError(key: string)   // a missing mapping key, column, field or dict entry
    | IndexError              // `xyz[:, j]` on an array without a column j
    | TypeError               // `xyz[:, j]` on None
    | ShapeError              // `torch.cat` of columns of different lengths

  /** Named columns of numbers (a CSV table, or the fields of a `.mat` group). */
  type Columns = map<string, seq<real>>

  /** The column a mapping key names exists. */
  predicate Maps(source: Columns, mapping: map<string, string>, key: string) {
    key in mapping && mapping[key] in source
  }

  /** `source[mapping[key]]`: a KeyError names the mapping key or the missing column. */
  function Lookup(source: Columns, mapping: map<string, string>, key: string): (r: Result<seq<real>, IoError>)
    ensures r.Success? <==> Maps(source, mapping, key)
    ensures r.Success? ==> r.value == source[mapping[key]]
    ensures key !in mapping ==> r == Failure(KeyError(key))
    ensures key in mapping && mapping[key] !in source ==> r == Failure(KeyError(mapping[key]))
  {
    if key !in mapping then Failure(KeyError(key))
    else if mapping[key] !in source then Failure(KeyError(mapping[key]))
    else Success(source[mapping[key]])
  }

  /** `key` is the first key not mapped to a column, after every key in `before` was found. */
  predicate FirstMissing(source: Columns, mapping: map<string, string>, before: seq<string>, key: string) {
    (forall k :: k in before ==> Maps(source, mapping, k)) && !Maps(source, mapping, key)
  }

  /** Rows `(x, y, z)` from three columns: `torch.stack(..., 1)` or `torch.cat` of column vectors. */
  function Stack3(xs: seq<real>, ys: seq<real>, zs: seq<real>): (rows: seq<seq<real>>)
    requires |xs| == |ys| == |zs|
  {
    seq(|xs|, i requires 0 <= i < |xs| => [xs[i], ys[i], zs[i]])
  }

  /** Column `j` of rows that all have more than `j` entries: `a[:, j]`. */
  function ColumnAt(rows: seq<seq<real>>, j: nat): (col: seq<real>)
    requires forall i :: 0 <= i < |rows| ==> j < |rows[i]|
  {
    seq(|rows|, i requires 0 <= i < |rows| => rows[i][j])
  }

  /** Stacking three columns and taking them apart again gives them back. */
  lemma StackColumns(xs: seq<real>, ys: seq<real>, zs: seq<real>)
    requires |xs| == |ys| == |zs|
    ensures |Stack3(xs, ys, zs)| == |xs|
    ensures forall i :: 0 <= i < |xs| ==> |Stack3(xs, ys, zs)[i]| == 3
    ensures ColumnAt(Stack3(xs, ys, zs), 0) == xs
    ensures ColumnAt(Stack3(xs, ys, zs), 1) == ys
    ensures ColumnAt(Stack3(xs, ys, zs), 2) == zs
  {
    var rows := Stack3(xs, ys, zs);
    assert ColumnAt(rows, 0) == xs by {
      forall i | 0 <= i < |xs| ensures ColumnAt(rows, 0)[i] == xs[i] {}
    }
    assert ColumnAt(rows, 1) == ys by {
      forall i | 0 <= i < |xs| ensures ColumnAt(rows, 1)[i] == ys[i] {}
    }
    assert ColumnAt(rows, 2) == zs by {
      forall i | 0 <= i < |xs| ensures ColumnAt(rows, 2)[i] == zs[i] {}
    }
  }

  // ---------------------------------------------------------------- load_csv

  /** A CSV file with a header, as pandas reads it: equally long named columns. */
  datatype CsvTable = CsvTable(columns: Columns, rowCount: nat)

  predicate Rectangular(t: CsvTable) {
    forall name :: name in t.columns ==> |t.columns[name]| == t.rowCount
  }

  /** The dict `load_csv` returns: keys `xyz`, `phot`, `frame_ix` and `id` (None without an id column). */
  datatype CsvEmitters = CsvEmitters(xyz: seq<seq<real>>, phot: seq<real>, frameIx: seq<int>, id: Option<seq<int>>)

  /** The mapping `load_csv` uses when none is given; it has no `frame_ix` entry. */
  const DefaultCsvMapping: map<string, string> := map["x" := "x", "y" := "y", "z" := "z", "phot" := "phot"]

  /** `.long()` of a float: truncation toward zero. */
  function Trunc(r: real): (i: int)
    ensures r >= 0.0 ==> i as real <= r < i as real + 1.0
    ensures r < 0.0 ==> i as real - 1.0 < r <= i as real
  {
    if r >= 0.0 then r.Floor else -((-r).Floor)
  }

  function TruncAll(s: seq<real>): (r: seq<int>)
    ensures |r| == |s|
  {
    seq(|s|, i requires 0 <= i < |s| => Trunc(s[i]))
  }

  /** Every key `load_csv` reads is mapped to a column of the table. */
  predicate CsvReadable(cols: Columns, m: map<string, string>) {
    Maps(cols, m, "x") && Maps(cols, m, "y") && Maps(cols, m, "z") &&
    Maps(cols, m, "phot") && Maps(cols, m, "frame_ix") &&
    ("id" in m ==> Maps(cols, m, "id"))
  }

  /** `load_csv(file, mapping)` on the table the file holds. */
  function LoadCsv(t: CsvTable, mapping: Option<map<string, string>>): (r: Result<CsvEmitters, IoError>)
    requires Rectangular(t)
    ensures r.Success? <==> CsvReadable(t.columns, if mapping.Some? then mapping.value else DefaultCsvMapping)
    // the default mapping always fails: on `frame_ix` once x, y, z and phot are found
    ensures mapping == None ==> r.Failure?
    ensures mapping == None && Maps(t.columns, DefaultCsvMapping, "x") && Maps(t.columns, DefaultCsvMapping, "y") &&
            Maps(t.columns, DefaultCsvMapping, "z") && Maps(t.columns, DefaultCsvMapping, "phot") ==>
              r == Failure(KeyError("frame_ix"))
    // otherwise the KeyError of the first key read that has no column
    ensures var m := if mapping.Some? then mapping.value else DefaultCsvMapping;
            FirstMissing(t.columns, m, [], "x") ==> r == Failure(Lookup(t.columns, m, "x").error)
    ensures var m := if mapping.Some? then mapping.value else DefaultCsvMapping;
            FirstMissing(t.columns, m, ["x"], "y") ==> r == Failure(Lookup(t.columns, m, "y").error)
    ensures var m := if mapping.Some? then mapping.value else DefaultCsvMapping;
            FirstMissing(t.columns, m, ["x", "y"], "z") ==> r == Failure(Lookup(t.columns, m, "z").error)
    ensures var m := if mapping.Some? then mapping.value else DefaultCsvMapping;
            FirstMissing(t.columns, m, ["x", "y", "z"], "phot") ==> r == Failure(Lookup(t.columns, m, "phot").error)
    ensures var m := if mapping.Some? then mapping.value else DefaultCsvMapping;
            FirstMissing(t.columns, m, ["x", "y", "z", "phot"], "frame_ix") ==>
              r == Failure(Lookup(t.columns, m, "frame_ix").error)
    ensures var m := if mapping.Some? then mapping.value else DefaultCsvMapping;
            "id" in m && FirstMissing(t.columns, m, ["x", "y", "z", "phot", "frame_ix"], "id") ==>
              r == Failure(Lookup(t.columns, m, "id").error)
    ensures r.Success? ==> mapping.Some?
    ensures r.Success? ==>
              var m, cols := mapping.value, t.columns;
              |r.value.xyz| == t.rowCount &&
              (forall i :: 0 <= i < t.rowCount ==>
                 r.value.xyz[i] == [cols[m["x"]][i], cols[m["y"]][i], cols[m["z"]][i]]) &&
              r.value.phot == cols[m["phot"]] &&
              |r.value.frameIx| == t.rowCount &&
              (forall i :: 0 <= i < t.rowCount ==> r.value.frameIx[i] == Trunc(cols[m["frame_ix"]][i])) &&
              (r.value.id.Some? <==> "id" in m) &&
              (r.value.id.Some? ==> r.value.id.value == TruncAll(cols[m["id"]]))
  {
    var m := if mapping.Some? then mapping.value else DefaultCsvMapping;
    var xs :- Lookup(t.columns, m, "x");
    var ys :- Lookup(t.columns, m, "y");
    var zs :- Lookup(t.columns, m, "z");
    var phot :- Lookup(t.columns, m, "phot");
    var frames :- Lookup(t.columns, m, "frame_ix");
    if "id" in m then
      var ids :- Lookup(t.columns, m, "id");
      Success(CsvEmitters(Stack3(xs, ys, zs), phot, TruncAll(frames), Some(TruncAll(ids))))
    else
      Success(CsvEmitters(Stack3(xs, ys, zs), phot, TruncAll(frames), None))
  }

  // --------------------------------------------------------------- load_smap

  /** The dict `load_smap` returns. */
  datatype SmapEmitters = SmapEmitters(xyz: seq<seq<real>>, phot: seq<real>, frameIx: seq<real>, bg: seq<real>)

  /** The mapping `load_smap` uses when none is given; it names `frame_ix`, not `frame`. */
  const DefaultSmapMapping: map<string, string> :=
    map["x" := "xnm", "y" := "ynm", "z" := "znm", "phot" := "phot", "frame_ix" := "frame", "bg" := "bg"]

  /** The coordinates are mapped to fields of one length. */
  predicate SmapXyzReadable(loc: Columns, m: map<string, string>) {
    Maps(loc, m, "x") && Maps(loc, m, "y") && Maps(loc, m, "z") &&
    |loc[m["x"]]| == |loc[m["y"]]| == |loc[m["z"]]|
  }

  /** The coordinates are mapped to fields of one length, and `phot` to a field. */
  predicate SmapCoordinatesReadable(loc: Columns, m: map<string, string>) {
    SmapXyzReadable(loc, m) && Maps(loc, m, "phot")
  }

  /** Every key `load_smap` reads is mapped to a field, and the coordinates have one length. */
  predicate SmapReadable(loc: Columns, m: map<string, string>) {
    SmapCoordinatesReadable(loc, m) && Maps(loc, m, "frame") && Maps(loc, m, "bg")
  }

  /** `frame_ix -= 1` on the tensor in place. */
  method ToZeroBased(frameIx: array<real>)
    modifies frameIx
    ensures forall i :: 0 <= i < frameIx.Length ==> frameIx[i] == old(frameIx[i]) - 1.0
  {
    forall i | 0 <= i < frameIx.Length {
      frameIx[i] := frameIx[i] - 1.0;
    }
  }

  /**
   * `load_smap(file, mapping)` on the fields of the file's `saveloc/loc` group,
   * each given as its values.
   */
  method LoadSmap(loc: Columns, mapping: Option<map<string, string>>) returns (r: Result<SmapEmitters, IoError>)
    ensures r.Success? <==> SmapReadable(loc, if mapping.Some? then mapping.value else DefaultSmapMapping)
    // the default mapping always fails: on `frame` once the coordinates and phot are found
    ensures mapping == None ==> r.Failure?
    ensures mapping == None && SmapCoordinatesReadable(loc, DefaultSmapMapping) ==>
              r == Failure(KeyError("frame"))
    // otherwise the KeyError of the first field read that is missing, or a
    // ShapeError from `torch.cat` when the coordinate fields differ in length
    ensures var m := if mapping.Some? then mapping.value else DefaultSmapMapping;
            FirstMissing(loc, m, [], "x") ==> r == Failure(Lookup(loc, m, "x").error)
    ensures var m := if mapping.Some? then mapping.value else DefaultSmapMapping;
            FirstMissing(loc, m, ["x"], "y") ==> r == Failure(Lookup(loc, m, "y").error)
    ensures var m := if mapping.Some? then mapping.value else DefaultSmapMapping;
            FirstMissing(loc, m, ["x", "y"], "z") ==> r == Failure(Lookup(loc, m, "z").error)
    ensures var m := if mapping.Some? then mapping.value else DefaultSmapMapping;
            (Maps(loc, m, "x") && Maps(loc, m, "y") && Maps(loc, m, "z") && !SmapXyzReadable(loc, m)) ==>
              r == Failure(ShapeError)
    ensures var m := if mapping.Some? then mapping.value else DefaultSmapMapping;
            SmapXyzReadable(loc, m) && !Maps(loc, m, "phot") ==> r == Failure(Lookup(loc, m, "phot").error)
    ensures var m := if mapping.Some? then mapping.value else DefaultSmapMapping;
            SmapCoordinatesReadable(loc, m) && !Maps(loc, m, "frame") ==> r == Failure(Lookup(loc, m, "frame").error)
    ensures var m := if mapping.Some? then mapping.value else DefaultSmapMapping;
            SmapCoordinatesReadable(loc, m) && Maps(loc, m, "frame") && !Maps(loc, m, "bg") ==>
              r == Failure(Lookup(loc, m, "bg").error)
    ensures r.Success? ==> mapping.Some?
    ensures r.Success? ==>
              var m := mapping.value;
              |r.value.xyz| == |loc[m["x"]]| &&
              (forall i :: 0 <= i < |r.value.xyz| ==>
                 r.value.xyz[i] == [loc[m["x"]][i], loc[m["y"]][i], loc[m["z"]][i]]) &&
              r.value.phot == loc[m["phot"]] && r.value.bg == loc[m["bg"]] &&
              |r.value.frameIx| == |loc[m["frame"]]| &&
              (forall i :: 0 <= i < |r.value.frameIx| ==> r.value.frameIx[i] == loc[m["frame"]][i] - 1.0)
  {
    var m := if mapping.Some? then mapping.value else DefaultSmapMapping;
    var xs :- Lookup(loc, m, "x");
    var ys :- Lookup(loc, m, "y");
    var zs :- Lookup(loc, m, "z");
    if !(|xs| == |ys| == |zs|) {
      return Failure(ShapeError);
    }
    var xyz := Stack3(xs, ys, zs);
    var phot :- Lookup(loc, m, "phot");
    var frames :- Lookup(loc, m, "frame");
    var bg :- Lookup(loc, m, "bg");
    var frameIx := new real[|frames|](i requires 0 <= i < |frames| => frames[i]);
    ToZeroBased(frameIx);
    r := Success(SmapEmitters(xyz, phot, frameIx[..], bg));
  }

  // ---------------------------------------------------------------- save_csv

  /** A numeric array: one-dimensional, or `rows` of `width` entries each. */
  datatype Array = Vector(elems: seq<real>) | Matrix(width: nat, rows: seq<seq<real>>)

  /** A value of the emitter dict: a torch tensor, a numpy array, or None. */
  datatype Value = Tensor(contents: Array) | NdArray(contents: Array) | NoneValue

  predicate WellShaped(a: Array) {
    a.Matrix? ==> forall i :: 0 <= i < |a.rows| ==> |a.rows[i]| == a.width
  }

  predicate WellShapedDict(d: Dict<Value>) {
    forall i :: 0 <= i < |d| ==> d[i].1.NoneValue? || WellShaped(d[i].1.contents)
  }

  function ToNumpy(v: Value): Value {
    if v.Tensor? then NdArray(v.contents) else v
  }

  /** `convert_dict_torch_numpy` as a value: every tensor becomes a numpy array. */
  function AllToNumpy(d: Dict<Value>): (r: Dict<Value>)
    ensures |r| == |d| && Keys(r) == Keys(d)
    ensures forall i :: 0 <= i < |d| ==> r[i] == (d[i].0, ToNumpy(d[i].1))
  {
    seq(|d|, i requires 0 <= i < |d| => (d[i].0, ToNumpy(d[i].1)))
  }

  /** `convert_dict_torch_numpy(data)`: overwrites each tensor entry with its numpy array. */
  method ConvertDictTorchNumpy(data: PyDict<Value>)
    requires data.Valid()
    modifies data
    ensures data.Valid()
    ensures data.entries == AllToNumpy(old(data.entries))
    ensures forall i :: 0 <= i < |data.entries| ==> !data.entries[i].1.Tensor?
  {
    ghost var target := AllToNumpy(data.entries);
    for i := 0 to |data.entries|
      invariant |data.entries| == |target| && Keys(data.entries) == Keys(target)
      invariant forall j :: 0 <= j < i ==> data.entries[j] == target[j]
      invariant forall j :: i <= j < |data.entries| ==> data.entries[j] == old(data.entries)[j]
    {
      var (k, v) := data.entries[i];
      if v.Tensor? {
        IndexOfDistinct(data.entries, i);
        data.SetItem(k, NdArray(v.contents));
      }
    }
  }

  /** `v[:, j]`. */
  function ColumnOf(v: Value, j: nat): (r: Result<Value, IoError>)
    requires v.NoneValue? || WellShaped(v.contents)
    ensures r.Success? <==> !v.NoneValue? && v.contents.Matrix? && j < v.contents.width
    ensures r.Success? ==> !r.value.NoneValue? && r.value.Tensor? == v.Tensor? && r.value.contents == Vector(ColumnAt(v.contents.rows, j))
    ensures v.NoneValue? ==> r == Failure(TypeError)
    ensures !v.NoneValue? && !(v.contents.Matrix? && j < v.contents.width) ==> r == Failure(IndexError)
  {
    if v.NoneValue? then Failure(TypeError)
    else
      var a := v.contents;
      if a.Vector? || j >= a.width then Failure(IndexError)
      else
        var col := Vector(ColumnAt(a.rows, j));
        Success(if v.Tensor? then Tensor(col) else NdArray(col))
  }

  /** An array with three columns, which is what `xyz` and `xyz_cr` must be. */
  predicate HasThreeColumns(v: Value) {
    !v.NoneValue? && v.contents.Matrix? && v.contents.width >= 3
  }

  /** The three columns of `v` under three names, in order. */
  function SplitXyz(v: Value, names: seq<string>): (r: Result<Dict<Value>, IoError>)
    requires v.NoneValue? || WellShaped(v.contents)
    requires |names| == 3
    ensures r.Success? <==> HasThreeColumns(v)
    ensures r.Success? ==> Keys(r.value) == names
    ensures r.Success? ==> forall j :: 0 <= j < 3 ==> r.value[j] == (names[j], ColumnOf(v, j).value)
  {
    var c0 :- ColumnOf(v, 0);
    var c1 :- ColumnOf(v, 1);
    var c2 :- ColumnOf(v, 2);
    Success([(names[0], c0), (names[1], c1), (names[2], c2)])
  }

  const XyzNames: seq<string> := ["x", "y", "z"]
  const XyzCrNames: seq<string> := ["x_cr", "y_cr", "z_cr"]

  lemma NamesDistinct()
    ensures Distinct(XyzNames) && Distinct(XyzCrNames)
    ensures forall k :: k in XyzCrNames ==> k !in XyzNames
  {
  }

  predicate GetShapedValue(d: Dict<Value>, k: string) {
    Get(d, k).Some? && (Get(d, k).value.NoneValue? || WellShaped(Get(d, k).value.contents))
  }

  /** The value under `k`, when there is one, is None or a well-shaped array. */
  lemma GetShaped(d: Dict<Value>, k: string)
    requires WellShapedDict(d) && Get(d, k).Some?
    ensures GetShapedValue(d, k)
  {
    var i := IndexOf(d, k).value;
    assert Get(d, k).value == d[i].1;
  }

  /** The one-dimensional dict built from `xyz`, the remaining entries and `xyz_cr`. */
  function OneDim(xyz: Value, others: Dict<Value>, xyzCr: Value): (r: Result<Dict<Value>, IoError>)
    requires xyz.NoneValue? || WellShaped(xyz.contents)
    requires xyzCr.NoneValue? || WellShaped(xyzCr.contents)
    requires WellFormed(others)
    ensures r.Success? <==> HasThreeColumns(xyz) && HasThreeColumns(xyzCr)
    ensures r.Success? ==> WellFormed(r.value)
  {
    var front :- SplitXyz(xyz, XyzNames);
    var back :- SplitXyz(xyzCr, XyzCrNames);
    UpdatedWellFormed(front, others);
    UpdatedWellFormed(Updated(front, others), back);
    Success(Updated(Updated(front, others), back))
  }

  /** `change_to_one_dim(data)`: `xyz` and `xyz_cr` replaced by their columns. */
  function ChangeToOneDim(d: Dict<Value>): (r: Result<Dict<Value>, IoError>)
    requires WellFormed(d) && WellShapedDict(d)
    // a missing `xyz` is reported first, a missing `xyz_cr` next
    ensures "xyz" !in Keys(d) ==> r == Failure(KeyError("xyz"))
    ensures "xyz" in Keys(d) && "xyz_cr" !in Keys(d) ==> r == Failure(KeyError("xyz_cr"))
    ensures r.Success? <==>
              Get(d, "xyz").Some? && Get(d, "xyz_cr").Some? &&
              HasThreeColumns(Get(d, "xyz").value) && HasThreeColumns(Get(d, "xyz_cr").value)
    ensures r.Success? ==> WellFormed(r.value)
  {
    match Popped(d, "xyz")
    case Failure(_) => Failure(KeyError("xyz"))
    case Success((xyz, rest)) =>
      GetShaped(d, "xyz");
      GetRemoved(d, "xyz", "xyz_cr");
      match Popped(rest, "xyz_cr")
      case Failure(_) => Failure(KeyError("xyz_cr"))
      case Success((xyzCr, others)) =>
        GetShaped(d, "xyz_cr");
        OneDim(xyz, others, xyzCr)
  }

  lemma {:induction false} UpdatedWellFormed(d: Dict<Value>, e: Dict<Value>)
    requires WellFormed(d)
    ensures WellFormed(Updated(d, e))
    decreases |e|
  {
    if e != [] {
      UpdatedWellFormed(Assigned(d, e[0].0, e[0].1), e[1..]);
    }
  }

  /**
   * `save_csv(file, data)` up to `DataFrame.from_dict(...).to_csv(...)`: the
   * ordered columns handed to pandas. It works on a copy; the caller's dict
   * is outside the method's frame and so cannot change.
   */
  method SaveCsv(data: PyDict<Value>) returns (r: Result<Dict<Value>, IoError>)
    requires data.Valid() && WellShapedDict(data.entries)
    ensures r == ChangeToOneDim(AllToNumpy(data.entries))
  {
    var d := data.Copy();
    ConvertDictTorchNumpy(d);
    ghost var converted := d.entries;
    assert WellFormed(converted) && WellShapedDict(converted);
    var xyz := d.Pop("xyz");
    if xyz.Failure? {
      return Failure(KeyError("xyz"));
    }
    ghost var rest := d.entries;
    assert Popped(converted, "xyz") == Success((xyz.value, rest));
    var xyzCr := d.Pop("xyz_cr");
    if xyzCr.Failure? {
      return Failure(KeyError("xyz_cr"));
    }
    assert Popped(rest, "xyz_cr") == Success((xyzCr.value, d.entries));
    GetShaped(converted, "xyz");
    GetRemoved(converted, "xyz", "xyz_cr");
    GetShaped(converted, "xyz_cr");
    ghost var expected := OneDim(xyz.value, d.entries, xyzCr.value);
    assert ChangeToOneDim(converted) == expected;
    var front :- SplitXyz(xyz.value, XyzNames);
    NamesDistinct();
    var oneDim := new PyDict(front);
    oneDim.Update(d.entries);
    var back :- SplitXyz(xyzCr.value, XyzCrNames);
    oneDim.Update(back);
    r := Success(oneDim.entries);
  }

  /** A successful `change_to_one_dim` is the split `xyz`, updated with the other entries, then with the split `xyz_cr`. */
  lemma OneDimParts(d: Dict<Value>) returns (front: Dict<Value>, back: Dict<Value>)
    requires WellFormed(d) && WellShapedDict(d)
    requires ChangeToOneDim(d).Success?
    ensures Keys(front) == XyzNames && Keys(back) == XyzCrNames
    ensures Get(d, "xyz").Some? && Get(d, "xyz_cr").Some?
    ensures front == SplitXyz(Get(d, "xyz").value, XyzNames).value
    ensures back == SplitXyz(Get(d, "xyz_cr").value, XyzCrNames).value
    ensures ChangeToOneDim(d).value == Updated(Updated(front, Removed(Removed(d, "xyz"), "xyz_cr")), back)
  {
    var rest := Removed(d, "xyz");
    var others := Removed(rest, "xyz_cr");
    var xyz := Popped(d, "xyz").value.0;
    var xyzCr := Popped(rest, "xyz_cr").value.0;
    GetShaped(d, "xyz");
    GetRemoved(d, "xyz", "xyz_cr");
    GetShaped(d, "xyz_cr");
    assert ChangeToOneDim(d) == OneDim(xyz, others, xyzCr);
    front := SplitXyz(xyz, XyzNames).value;
    back := SplitXyz(xyzCr, XyzCrNames).value;
  }

  /**
   * When no other entry uses one of the new column names, `save_csv` writes
   * x, y, z, then the other entries in their order, then x_cr, y_cr, z_cr.
   */
  lemma ColumnOrder(d: Dict<Value>)
    requires WellFormed(d) && WellShapedDict(d)
    requires ChangeToOneDim(d).Success?
    requires forall k :: k in Keys(d) ==> k !in XyzNames && k !in XyzCrNames
    ensures Keys(ChangeToOneDim(d).value) == XyzNames + Keys(Removed(Removed(d, "xyz"), "xyz_cr")) + XyzCrNames
    ensures Get(d, "xyz").Some? && Get(d, "xyz_cr").Some?
    ensures GetShapedValue(d, "xyz") && GetShapedValue(d, "xyz_cr")
    ensures ChangeToOneDim(d).value ==
              SplitXyz(Get(d, "xyz").value, XyzNames).value +
              Removed(Removed(d, "xyz"), "xyz_cr") +
              SplitXyz(Get(d, "xyz_cr").value, XyzCrNames).value
  {
    GetShaped(d, "xyz");
    GetShaped(d, "xyz_cr");
    var others := Removed(Removed(d, "xyz"), "xyz_cr");
    var front, back := OneDimParts(d);
    assert WellFormed(others);
    NamesDistinct();
    assert forall k :: k in Keys(others) ==> k in Keys(d);
    AppendWellFormed(front, others);
    UpdatedFresh(front, others);
    KeysAppend(front, others);
    assert forall k :: k in Keys(back) ==> k !in Keys(front + others);
    AppendWellFormed(front + others, back);
    UpdatedFresh(front + others, back);
    KeysAppend(front + others, back);
  }

  /** `save_csv(d)` hands exactly `columns` to pandas. */
  predicate SavesAs(d: Dict<Value>, columns: Dict<Value>) {
    var n := AllToNumpy(d);
    WellFormed(n) && WellShapedDict(n) && ChangeToOneDim(n) == Success(columns)
  }

  /** The dict with coordinates stacked from three columns, `phot` and `xyz_cr` is written as their columns. */
  lemma WrittenColumns(xs: seq<real>, ys: seq<real>, zs: seq<real>, phot: seq<real>, cr: seq<seq<real>>)
    requires |xs| == |ys| == |zs|
    requires forall i :: 0 <= i < |cr| ==> |cr[i]| == 3
    ensures SavesAs([("xyz", Tensor(Matrix(3, Stack3(xs, ys, zs)))), ("phot", Tensor(Vector(phot))),
                     ("xyz_cr", Tensor(Matrix(3, cr)))],
                    [("x", NdArray(Vector(xs))), ("y", NdArray(Vector(ys))), ("z", NdArray(Vector(zs))),
                     ("phot", NdArray(Vector(phot))),
                     ("x_cr", NdArray(Vector(ColumnAt(cr, 0)))),
                     ("y_cr", NdArray(Vector(ColumnAt(cr, 1)))),
                     ("z_cr", NdArray(Vector(ColumnAt(cr, 2))))])
  {
    StackColumns(xs, ys, zs);
    var xyz, p, xyzCr := NdArray(Matrix(3, Stack3(xs, ys, zs))), NdArray(Vector(phot)), NdArray(Matrix(3, cr));
    var d := [("xyz", Tensor(Matrix(3, Stack3(xs, ys, zs)))), ("phot", Tensor(Vector(phot))),
              ("xyz_cr", Tensor(Matrix(3, cr)))];
    assert AllToNumpy(d) == [("xyz", xyz), ("phot", p), ("xyz_cr", xyzCr)];
    SplitStacked(xs, ys, zs);
    SplitCr(cr);
    ThreeEntriesColumns(xyz, p, xyzCr,
                        NdArray(Vector(xs)), NdArray(Vector(ys)), NdArray(Vector(zs)),
                        NdArray(Vector(ColumnAt(cr, 0))), NdArray(Vector(ColumnAt(cr, 1))), NdArray(Vector(ColumnAt(cr, 2))));
  }

  /** Proof step of `WrittenColumns`: the seven columns as one sequence display. */
  lemma SevenEntries<T>(a0: T, a1: T, a2: T, b: T, c0: T, c1: T, c2: T)
    ensures [a0, a1, a2] + [b] + [c0, c1, c2] == [a0, a1, a2, b, c0, c1, c2]
  {
  }

  /** `ThreeEntries` with the columns of `xyz` and `xyz_cr` named. */
  lemma ThreeEntriesColumns(a: Value, b: Value, c: Value, x: Value, y: Value, z: Value, xCr: Value, yCr: Value, zCr: Value)
    requires HasThreeColumns(a) && WellShaped(a.contents)
    requires HasThreeColumns(c) && WellShaped(c.contents)
    requires b.NoneValue? || WellShaped(b.contents)
    requires SplitXyz(a, XyzNames) == Success([("x", x), ("y", y), ("z", z)])
    requires SplitXyz(c, XyzCrNames) == Success([("x_cr", xCr), ("y_cr", yCr), ("z_cr", zCr)])
    ensures var n := [("xyz", a), ("phot", b), ("xyz_cr", c)];
            WellFormed(n) && WellShapedDict(n) &&
            ChangeToOneDim(n) == Success([("x", x), ("y", y), ("z", z), ("phot", b), ("x_cr", xCr), ("y_cr", yCr), ("z_cr", zCr)])
  {
    var front, back := [("x", x), ("y", y), ("z", z)], [("x_cr", xCr), ("y_cr", yCr), ("z_cr", zCr)];
    var n := [("xyz", a), ("phot", b), ("xyz_cr", c)];
    ThreeEntries(a, b, c);
    assert ChangeToOneDim(n) == Success(front + [("phot", b)] + back);
    SevenEntries(front[0], front[1], front[2], ("phot", b), back[0], back[1], back[2]);
  }

  /** `SplitXyz` of a stacked array gives back the three columns. */
  lemma SplitStacked(xs: seq<real>, ys: seq<real>, zs: seq<real>)
    requires |xs| == |ys| == |zs|
    ensures WellShaped(Matrix(3, Stack3(xs, ys, zs)))
    ensures SplitXyz(NdArray(Matrix(3, Stack3(xs, ys, zs))), XyzNames) ==
            Success([("x", NdArray(Vector(xs))), ("y", NdArray(Vector(ys))), ("z", NdArray(Vector(zs)))])
  {
    StackColumns(xs, ys, zs);
  }

  /** `SplitXyz` of an `xyz_cr` array with three columns gives its columns. */
  lemma SplitCr(cr: seq<seq<real>>)
    requires forall i :: 0 <= i < |cr| ==> |cr[i]| == 3
    ensures WellShaped(Matrix(3, cr))
    ensures SplitXyz(NdArray(Matrix(3, cr)), XyzCrNames) ==
            Success([("x_cr", NdArray(Vector(ColumnAt(cr, 0)))), ("y_cr", NdArray(Vector(ColumnAt(cr, 1)))),
                     ("z_cr", NdArray(Vector(ColumnAt(cr, 2))))])
  {
  }

  /** A dict of `xyz`, one other entry and `xyz_cr` becomes the columns of `xyz`, that entry, the columns of `xyz_cr`. */
  lemma ThreeEntries(a: Value, b: Value, c: Value)
    requires HasThreeColumns(a) && WellShaped(a.contents)
    requires HasThreeColumns(c) && WellShaped(c.contents)
    requires b.NoneValue? || WellShaped(b.contents)
    ensures var n := [("xyz", a), ("phot", b), ("xyz_cr", c)];
            WellFormed(n) && WellShapedDict(n) &&
            ChangeToOneDim(n) == Success(SplitXyz(a, XyzNames).value + [("phot", b)] + SplitXyz(c, XyzCrNames).value)
  {
    var n := [("xyz", a), ("phot", b), ("xyz_cr", c)];
    LiteralEntries(a, b, c);
    assert WellShapedDict(n);
    ColumnOrder(n);
  }

  /**
   * The `xyz` that `load_csv` builds, placed with its `phot` and an `xyz_cr`
   * into a dict `{xyz, phot, xyz_cr}`, is written by `save_csv` as the mapped
   * x, y and z columns. The dict `load_csv` returns itself has no `xyz_cr`
   * (see `LoadedCsvNotSavable`).
   */
  lemma LoadedXyzWrittenBack(t: CsvTable, mapping: map<string, string>, cr: seq<seq<real>>)
    requires Rectangular(t) && LoadCsv(t, Some(mapping)).Success?
    requires forall i :: 0 <= i < |cr| ==> |cr[i]| == 3
    ensures CsvReadable(t.columns, mapping)
    ensures var e := LoadCsv(t, Some(mapping)).value;
            SavesAs([("xyz", Tensor(Matrix(3, e.xyz))), ("phot", Tensor(Vector(e.phot))),
                     ("xyz_cr", Tensor(Matrix(3, cr)))],
                    [("x", NdArray(Vector(t.columns[mapping["x"]]))),
                     ("y", NdArray(Vector(t.columns[mapping["y"]]))),
                     ("z", NdArray(Vector(t.columns[mapping["z"]]))),
                     ("phot", NdArray(Vector(e.phot))),
                     ("x_cr", NdArray(Vector(ColumnAt(cr, 0)))),
                     ("y_cr", NdArray(Vector(ColumnAt(cr, 1)))),
                     ("z_cr", NdArray(Vector(ColumnAt(cr, 2))))])
  {
    var e := LoadCsv(t, Some(mapping)).value;
    var xs, ys, zs := t.columns[mapping["x"]], t.columns[mapping["y"]], t.columns[mapping["z"]];
    assert e.xyz == Stack3(xs, ys, zs);
    WrittenColumns(xs, ys, zs, e.phot, cr);
  }

  function Reals(s: seq<int>): (r: seq<real>)
    ensures |r| == |s| && forall i :: 0 <= i < |s| ==> r[i] == s[i] as real
  {
    seq(|s|, i requires 0 <= i < |s| => s[i] as real)
  }

  /** The dict `load_csv` returns, with its tensors as values; `id` is None without an id column. */
  function CsvDict(e: CsvEmitters): (d: Dict<Value>)
    ensures Keys(d) == ["xyz", "phot", "frame_ix", "id"]
  {
    [("xyz", Tensor(Matrix(3, e.xyz))), ("phot", Tensor(Vector(e.phot))),
     ("frame_ix", Tensor(Vector(Reals(e.frameIx)))),
     ("id", if e.id.Some? then Tensor(Vector(Reals(e.id.value))) else NoneValue)]
  }

  /**
   * The dict `load_csv` returns has no `xyz_cr`, so `save_csv` cannot write
   * it back as it stands: `change_to_one_dim` raises `KeyError('xyz_cr')`.
   */
  lemma LoadedCsvNotSavable(t: CsvTable, mapping: Option<map<string, string>>)
    requires Rectangular(t) && LoadCsv(t, mapping).Success?
    ensures var n := AllToNumpy(CsvDict(LoadCsv(t, mapping).value));
            WellFormed(n) && WellShapedDict(n) && ChangeToOneDim(n) == Failure(KeyError("xyz_cr"))
  {
    var e := LoadCsv(t, mapping).value;
    assert forall i :: 0 <= i < |e.xyz| ==> |e.xyz[i]| == 3;
    CsvDictNotSavable(e);
  }

  lemma CsvDictNotSavable(e: CsvEmitters)
    requires forall i :: 0 <= i < |e.xyz| ==> |e.xyz[i]| == 3
    ensures var n := AllToNumpy(CsvDict(e));
            WellFormed(n) && WellShapedDict(n) && ChangeToOneDim(n) == Failure(KeyError("xyz_cr"))
  {
    var n := AllToNumpy(CsvDict(e));
    assert Keys(n) == ["xyz", "phot", "frame_ix", "id"];
    assert n[0].1 == NdArray(Matrix(3, e.xyz));
  }

  /** The three-entry dict `{'xyz': a, 'phot': b, 'xyz_cr': c}`. */
  lemma LiteralEntries(a: Value, b: Value, c: Value)
    ensures var n := [("xyz", a), ("phot", b), ("xyz_cr", c)];
            WellFormed(n) && Get(n, "xyz") == Some(a) && Get(n, "xyz_cr") == Some(c) &&
            Removed(Removed(n, "xyz"), "xyz_cr") == [("phot", b)] &&
            forall k :: k in Keys(n) ==> k !in XyzNames && k !in XyzCrNames
  {
    var n := [("xyz", a), ("phot", b), ("xyz_cr", c)];
    LiteralKeys(n, a, b, c);
    assert Removed(n, "xyz") == [("phot", b), ("xyz_cr", c)] by {
      RemovedAt(n, 0);
    }
    LiteralRemoved(b, c);
  }

  /** Proof step of `LiteralEntries`, split out to keep the `WrittenColumns` proof small. */
  lemma LiteralKeys(n: Dict<Value>, a: Value, b: Value, c: Value)
    requires n == [("xyz", a), ("phot", b), ("xyz_cr", c)]
    ensures Keys(n) == ["xyz", "phot", "xyz_cr"] && WellFormed(n)
    ensures Get(n, "xyz") == Some(a) && Get(n, "xyz_cr") == Some(c)
    ensures forall k :: k in Keys(n) ==> k !in XyzNames && k !in XyzCrNames
  {
    assert Keys(n) == ["xyz", "phot", "xyz_cr"];
  }

  /** Proof step of `LiteralEntries`, split out to keep the `WrittenColumns` proof small. */
  lemma LiteralRemoved(b: Value, c: Value)
    ensures Removed([("phot", b), ("xyz_cr", c)], "xyz_cr") == [("phot", b)]
  {
    var m := [("phot", b), ("xyz_cr", c)];
    assert Keys(m) == ["phot", "xyz_cr"];
    RemovedAt(m, 1);
  }
}
