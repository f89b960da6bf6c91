/**
 * The table assembler, `preprocessing_dataframes_save_to_cvs` without its
 * `to_csv` calls: one wide table per feature family, one row per labelled
 * record, the union of the family's keys as columns, and a final
 * `fillna(0)` that makes every table dense.
 */
module Assembler {
  import opened Wrappers
  import opened Frames
  import opened Extractor

  /** The three tables the assembler keeps apart. */
  datatype Family = OpcodesFamily | ApiCallsFamily | PermissionsFamily

  function Pick(f: Features, fam: Family): Dict
  {
    match fam
    case OpcodesFamily => f.opcodes
    case ApiCallsFamily => f.apiCalls
    case PermissionsFamily => f.permissions
  }

  /**
   * `pd.DataFrame(d, index=[0])` followed by `dfs_tmp["class"] = label`: the
   * record's one-row frame. The label overwrites a feature that is itself
   * named "class"; every other feature is carried over unchanged.
   */
  function OneRow(d: Dict, classLabel: Label): Dict
  {
    SetItem(d, ClassColumn, classLabel)
  }

  /**
   * The one-row frame has the label under "class", every other feature of
   * the record with its value and nothing more, and the record's keys first.
   */
  lemma OneRowCells(d: Dict, classLabel: Label)
    ensures ClassColumn in OneRow(d, classLabel).vals && OneRow(d, classLabel).vals[ClassColumn] == classLabel
    ensures forall c :: c != ClassColumn ==> (c in OneRow(d, classLabel).vals <==> c in d.vals)
    ensures forall c :: c != ClassColumn && c in d.vals ==> OneRow(d, classLabel).vals[c] == d.vals[c]
    ensures d.keys <= OneRow(d, classLabel).keys
  {
  }

  /** A record's features with the label it was loaded with. */
  type Record = (Features, Label)

  function RowOf(rec: Record, fam: Family): Dict
  {
    OneRow(Pick(rec.0, fam), rec.1)
  }

  /** The one-row frames of a family, one per record, in input order. */
  function FamilyFrames(recs: seq<Record>, fam: Family): (r: seq<Dict>)
    ensures |r| == |recs|
  {
    seq(|recs|, i requires 0 <= i < |recs| => RowOf(recs[i], fam))
  }

  /**
   * Frame i holds record i's label under "class" and exactly the record's
   * other features of the family, with their values.
   */
  lemma FamilyFramesCells(recs: seq<Record>, fam: Family)
    ensures forall i :: 0 <= i < |recs| ==>
      ClassColumn in FamilyFrames(recs, fam)[i].vals && FamilyFrames(recs, fam)[i].vals[ClassColumn] == recs[i].1
    ensures forall i, c :: 0 <= i < |recs| && c != ClassColumn ==>
      (c in FamilyFrames(recs, fam)[i].vals <==> c in Pick(recs[i].0, fam).vals)
    ensures forall i, c :: 0 <= i < |recs| && c != ClassColumn && c in Pick(recs[i].0, fam).vals ==>
      FamilyFrames(recs, fam)[i].vals[c] == Pick(recs[i].0, fam).vals[c]
  {
    forall i | 0 <= i < |recs| {
      OneRowCells(Pick(recs[i].0, fam), recs[i].1);
    }
  }

  /** The keys of the frames, frame after frame. */
  function AllKeys(frames: seq<Dict>): seq<Name>
    decreases |frames|
  {
    if frames == [] then [] else AllKeys(frames[..|frames| - 1]) + frames[|frames| - 1].keys
  }

  /**
   * The table `pd.concat` builds from the frames one at a time, before
   * filling: the keys of all frames in first-seen order as columns, and each
   * frame's cells as a row, in input order.
   */
  function Accumulate(frames: seq<Dict>): Table
  {
    Table(Union([], AllKeys(frames)), seq(|frames|, i requires 0 <= i < |frames| => frames[i].vals))
  }

  /** The family's table as handed to `to_csv`: accumulated, then filled with 0. */
  function FamilyTable(recs: seq<Record>, fam: Family): Table
  {
    FillNa(Accumulate(FamilyFrames(recs, fam)))
  }

  /** Concatenating one more frame onto the table of the earlier ones gives the table of all of them. */
  lemma AccumulateStep(frames: seq<Dict>, f: Dict)
    ensures Accumulate(frames + [f]) == Concat(Accumulate(frames), f)
  {
    assert (frames + [f])[..|frames|] == frames;
    UnionAppend([], AllKeys(frames), f.keys);
  }

  lemma FamilyFramesStep(recs: seq<Record>, rec: Record, fam: Family)
    ensures FamilyFrames(recs + [rec], fam) == FamilyFrames(recs, fam) + [RowOf(rec, fam)]
  {
  }

  /** A name is among all keys exactly when some frame has it. */
  lemma {:induction false} AllKeysAt(frames: seq<Dict>)
    ensures forall c :: c in AllKeys(frames) <==> exists i :: 0 <= i < |frames| && c in frames[i].vals
  {
    if frames != [] {
      var n := |frames| - 1;
      var prefix := frames[..n];
      AllKeysAt(prefix);
      assert AllKeys(frames) == AllKeys(prefix) + frames[n].keys;
      forall c | c in AllKeys(frames)
        ensures exists i :: 0 <= i < |frames| && c in frames[i].vals
      {
        if c in AllKeys(prefix) {
          var i :| 0 <= i < n && c in prefix[i].vals;
          assert frames[i] == prefix[i];
        }
      }
      forall c | exists i :: 0 <= i < |frames| && c in frames[i].vals
        ensures c in AllKeys(frames)
      {
        var i :| 0 <= i < |frames| && c in frames[i].vals;
        if i < n {
          assert frames[i] == prefix[i];
        }
      }
    }
  }

  /** The accumulated table: one row per frame, distinct columns, and the union of the frames' keys as columns. */
  lemma AccumulateShape(frames: seq<Dict>)
    ensures Covered(Accumulate(frames))
    ensures Distinct(Accumulate(frames).columns)
    ensures forall c :: c in Accumulate(frames).columns <==> exists i :: 0 <= i < |frames| && c in frames[i].vals
  {
    AllKeysAt(frames);
    UnionDistinct([], AllKeys(frames));
  }

  /** Each finished table has exactly one row per record, a value in every cell, and no column twice. */
  lemma TableIsDense(recs: seq<Record>, fam: Family)
    ensures |FamilyTable(recs, fam).rows| == |recs|
    ensures Dense(FamilyTable(recs, fam))
    ensures Distinct(FamilyTable(recs, fam).columns)
  {
    AccumulateShape(FamilyFrames(recs, fam));
  }

  /**
   * The columns are exactly the family's keys over all records, plus "class"
   * as soon as there is one record.
   */
  lemma TableColumns(recs: seq<Record>, fam: Family)
    ensures forall c :: c in FamilyTable(recs, fam).columns <==>
      (c == ClassColumn && |recs| > 0) || exists i :: 0 <= i < |recs| && c in Pick(recs[i].0, fam).vals
  {
    var frames := FamilyFrames(recs, fam);
    AccumulateShape(frames);
    forall c | c in FamilyTable(recs, fam).columns
      ensures (c == ClassColumn && |recs| > 0) || exists i :: 0 <= i < |recs| && c in Pick(recs[i].0, fam).vals
    {
      var i :| 0 <= i < |frames| && c in frames[i].vals;
      if c != ClassColumn {
        assert c in Pick(recs[i].0, fam).vals;
      }
    }
    forall c | (c == ClassColumn && |recs| > 0) || exists i :: 0 <= i < |recs| && c in Pick(recs[i].0, fam).vals
      ensures c in FamilyTable(recs, fam).columns
    {
      if c == ClassColumn && |recs| > 0 {
        assert c in frames[0].vals;
      } else {
        var i :| 0 <= i < |recs| && c in Pick(recs[i].0, fam).vals;
        assert c in frames[i].vals;
      }
    }
  }

  /** A feature cell holds the record's value for that key, or 0 when the record lacks it. */
  lemma TableCells(recs: seq<Record>, fam: Family)
    ensures |FamilyTable(recs, fam).rows| == |recs|
    ensures forall i, c :: 0 <= i < |recs| && c in FamilyTable(recs, fam).columns && c != ClassColumn ==>
      FamilyTable(recs, fam).rows[i][c] == (if c in Pick(recs[i].0, fam).vals then Pick(recs[i].0, fam).vals[c] else 0)
  {
  }

  /** Every row's "class" cell is the label its record was loaded with. */
  lemma TableLabels(recs: seq<Record>, fam: Family)
    ensures |FamilyTable(recs, fam).rows| == |recs|
    ensures forall i :: 0 <= i < |recs| ==>
      ClassColumn in FamilyTable(recs, fam).rows[i] && FamilyTable(recs, fam).rows[i][ClassColumn] == recs[i].1
  {
  }

  /** The keys of the first k frames come first among all keys. */
  lemma {:induction false} AllKeysPrefix(frames: seq<Dict>, k: nat)
    requires k <= |frames|
    ensures AllKeys(frames[..k]) <= AllKeys(frames)
    decreases |frames|
  {
    if k < |frames| {
      var n := |frames| - 1;
      assert frames[..n][..k] == frames[..k];
      AllKeysPrefix(frames[..n], k);
    } else {
      assert frames[..k] == frames;
    }
  }

  /**
   * Columns are only ever added at the end: the table over the first k
   * records has a prefix of the final table's columns.
   */
  lemma ColumnsFirstSeen(recs: seq<Record>, k: nat, fam: Family)
    requires k <= |recs|
    ensures FamilyTable(recs[..k], fam).columns <= FamilyTable(recs, fam).columns
  {
    var frames := FamilyFrames(recs, fam);
    assert FamilyFrames(recs[..k], fam) == frames[..k];
    var all := AllKeys(frames);
    var pre := AllKeys(frames[..k]);
    AllKeysPrefix(frames, k);
    assert pre + all[|pre|..] == all;
    UnionAppend([], pre, all[|pre|..]);
  }

  /** The loop's lookups over all pairs; the first pair with a missing field aborts the run. */
  function ExtractAll(pairs: seq<(Section, Label)>): Result<seq<Record>, Error>
    decreases |pairs|
  {
    if pairs == [] then Ok([])
    else
      var n := |pairs| - 1;
      match ExtractAll(pairs[..n])
      case Err(e) => Err(e)
      case Ok(recs) =>
        match Extract(pairs[n].0)
        case Err(e) => Err(e)
        case Ok(f) => Ok(recs + [(f, pairs[n].1)])
  }

  /**
   * The lookups succeed exactly when every section has its three fields, and
   * then give one record per pair, in order, with the pair's label.
   */
  lemma {:induction false} ExtractAllOk(pairs: seq<(Section, Label)>)
    ensures ExtractAll(pairs).Ok? <==> forall i :: 0 <= i < |pairs| ==> Extract(pairs[i].0).Ok?
    ensures ExtractAll(pairs).Ok? ==> |ExtractAll(pairs).value| == |pairs|
    ensures ExtractAll(pairs).Ok? ==> forall i :: 0 <= i < |pairs| ==>
      Extract(pairs[i].0) == Ok(ExtractAll(pairs).value[i].0) && ExtractAll(pairs).value[i].1 == pairs[i].1
    decreases |pairs|
  {
    if pairs != [] {
      var n := |pairs| - 1;
      var pre := pairs[..n];
      ExtractAllOk(pre);
      assert forall i :: 0 <= i < n ==> pre[i] == pairs[i];
      if ExtractAll(pre).Ok? && Extract(pairs[n].0).Ok? {
        var recs := ExtractAll(pre).value;
        var v := recs + [(Extract(pairs[n].0).value, pairs[n].1)];
        assert ExtractAll(pairs) == Ok(v);
        assert forall i :: 0 <= i < n ==> v[i] == recs[i];
      }
    }
  }

  /** One more pair: the lookups over the first i + 1 pairs are those over the first i, then pair i's. */
  lemma ExtractAllStep(pairs: seq<(Section, Label)>, i: nat)
    requires i < |pairs|
    ensures ExtractAll(pairs[..i + 1]) ==
      match ExtractAll(pairs[..i])
      case Err(e) => Err(e)
      case Ok(recs) =>
        match Extract(pairs[i].0)
        case Err(e) => Err(e)
        case Ok(f) => Ok(recs + [(f, pairs[i].1)])
  {
    assert pairs[..i + 1][..i] == pairs[..i];
  }

  /** Once a prefix of the pairs fails, the whole run fails with that same error. */
  lemma {:induction false} ExtractAllFirstError(pairs: seq<(Section, Label)>, k: nat)
    requires k <= |pairs| && ExtractAll(pairs[..k]).Err?
    ensures ExtractAll(pairs) == ExtractAll(pairs[..k])
    decreases |pairs|
  {
    if k < |pairs| {
      var n := |pairs| - 1;
      assert pairs[..n][..k] == pairs[..k];
      ExtractAllFirstError(pairs[..n], k);
    } else {
      assert pairs[..k] == pairs;
    }
  }

  /** The three finished tables. */
  datatype Tables = Tables(opcodes: Table, apiCalls: Table, permissions: Table)

  /** What the assembler hands to `to_csv` for the given pairs, or the error that stops it. */
  function Preprocess(pairs: seq<(Section, Label)>): Result<Tables, Error>
  {
    match ExtractAll(pairs)
    case Err(e) => Err(e)
    case Ok(recs) =>
      Ok(Tables(FamilyTable(recs, OpcodesFamily), FamilyTable(recs, ApiCallsFamily), FamilyTable(recs, PermissionsFamily)))
  }

  /** A finished table has one dense row per pair, and row i's "class" cell is pair i's label. */
  ghost predicate RowsFollow(t: Table, pairs: seq<(Section, Label)>)
  {
    && |t.rows| == |pairs|
    && Dense(t)
    && forall i :: 0 <= i < |pairs| ==> ClassColumn in t.rows[i] && t.rows[i][ClassColumn] == pairs[i].1
  }

  /**
   * The assembler succeeds exactly when every section has its three fields,
   * and then each of the three tables follows the pairs row by row.
   */
  lemma PreprocessRows(pairs: seq<(Section, Label)>)
    ensures Preprocess(pairs).Ok? <==> forall i :: 0 <= i < |pairs| ==> Extract(pairs[i].0).Ok?
    ensures Preprocess(pairs).Ok? ==> RowsFollow(Preprocess(pairs).value.opcodes, pairs)
    ensures Preprocess(pairs).Ok? ==> RowsFollow(Preprocess(pairs).value.apiCalls, pairs)
    ensures Preprocess(pairs).Ok? ==> RowsFollow(Preprocess(pairs).value.permissions, pairs)
  {
    ExtractAllOk(pairs);
    if Preprocess(pairs).Ok? {
      var recs := ExtractAll(pairs).value;
      FamilyFollows(recs, OpcodesFamily, pairs);
      FamilyFollows(recs, ApiCallsFamily, pairs);
      FamilyFollows(recs, PermissionsFamily, pairs);
    }
  }

  lemma FamilyFollows(recs: seq<Record>, fam: Family, pairs: seq<(Section, Label)>)
    requires |recs| == |pairs| && forall i :: 0 <= i < |pairs| ==> recs[i].1 == pairs[i].1
    ensures RowsFollow(FamilyTable(recs, fam), pairs)
  {
  }

  /**
   * One family's `dfs_tmp = pd.DataFrame(...)`, `dfs_tmp["class"] = class_df`
   * and `table = pd.concat([table, dfs_tmp])` for one more record.
   */
  method AppendRecord(table: FeatureTable, ghost recs: seq<Record>, rec: Record, fam: Family)
    requires table.Valid() && table.Snapshot() == Accumulate(FamilyFrames(recs, fam))
    modifies table
    ensures table.Valid() && table.Snapshot() == Accumulate(FamilyFrames(recs + [rec], fam))
  {
    table.AppendRow(OneRow(Pick(rec.0, fam), rec.1));
    AccumulateStep(FamilyFrames(recs, fam), RowOf(rec, fam));
    FamilyFramesStep(recs, rec, fam);
  }

  /**
   * The start of the loop body: `dframe["Opcodes"]`, `dframe["API calls"]`
   * and the permission comprehension over `dframe["Permissions"]`.
   */
  method ReadRecord(dframe: Section) returns (r: Result<Features, Error>)
    ensures r == Extract(dframe)
  {
    if dframe.opcodes.None? {
      return Err(MissingKey(OpcodesField));
    }
    var opcodes := dframe.opcodes.value;
    if dframe.apiCalls.None? {
      return Err(MissingKey(ApiCallsField));
    }
    var apicalls := dframe.apiCalls.value;
    if dframe.permissions.None? {
      return Err(MissingKey(PermissionsField));
    }
    var permissionDict := PermissionDict(dframe.permissions.value);
    return Ok(Features(opcodes, apicalls, permissionDict));
  }

  /**
   * The loop of `preprocessing_dataframes_save_to_cvs`: three tables grown
   * row by row, then each filled with 0; the finished tables are returned
   * in place of being written out.
   */
  method PreprocessDataframes(dframes: seq<(Section, Label)>) returns (r: Result<Tables, Error>)
    ensures r == Preprocess(dframes)
  {
    var dfsOpcodes := new FeatureTable();
    var dfsApiCalls := new FeatureTable();
    var dfsPermissions := new FeatureTable();
    ghost var recs: seq<Record> := [];
    var i := 0;
    while i < |dframes|
      invariant 0 <= i <= |dframes|
      invariant ExtractAll(dframes[..i]) == Ok(recs)
      invariant dfsOpcodes.Valid() && dfsApiCalls.Valid() && dfsPermissions.Valid()
      invariant dfsOpcodes.Snapshot() == Accumulate(FamilyFrames(recs, OpcodesFamily))
      invariant dfsApiCalls.Snapshot() == Accumulate(FamilyFrames(recs, ApiCallsFamily))
      invariant dfsPermissions.Snapshot() == Accumulate(FamilyFrames(recs, PermissionsFamily))
    {
      var (dframe, classDf) := dframes[i];
      ExtractAllStep(dframes, i);
      var features := ReadRecord(dframe);
      if features.Err? {
        ExtractAllFirstError(dframes, i + 1);
        return Err(features.error);
      }
      var rec := (features.value, classDf);

      AppendRecord(dfsOpcodes, recs, rec, OpcodesFamily);
      AppendRecord(dfsApiCalls, recs, rec, ApiCallsFamily);
      AppendRecord(dfsPermissions, recs, rec, PermissionsFamily);

      recs := recs + [rec];
      i := i + 1;
    }
    dfsOpcodes.Finalize();
    dfsApiCalls.Finalize();
    dfsPermissions.Finalize();
    assert dframes[..i] == dframes;
    r := Ok(Tables(dfsOpcodes.Snapshot(), dfsApiCalls.Snapshot(), dfsPermissions.Snapshot()));
  }
}
