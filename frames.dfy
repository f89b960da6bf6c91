/**
 * The pandas side of the preprocessing script, reduced to what the script uses:
 * a Python dict (or one-row DataFrame) as an ordered map, the wide table that
 * `pd.concat` grows one row at a time, and `fillna(0)`.
 */
module Frames {

  type Name = string

  /** A cell holds a count or a class label. */
  type Cell = int

  /** The column the assembler writes every row's label into. */
  const ClassColumn: Name := "class"

  ghost predicate Distinct(s: seq<Name>)
  {
    forall i, j :: 0 <= i < j < |s| ==> s[i] != s[j]
  }

  /** A dict with its keys in insertion order. */
  datatype DictRep = DictRep(keys: seq<Name>, vals: map<Name, Cell>)

  ghost predicate WellFormed(d: DictRep)
  {
    forall k :: k in d.vals <==> k in d.keys
  }

  /** What a Python dict always is: a value for each listed key and for no other. */
  type Dict = d: DictRep | WellFormed(d) witness DictRep([], map[])

  const EmptyDict: Dict := DictRep([], map[])

  /** `d[k] = v`: an existing key keeps its place, a new one goes last. */
  function SetItem(d: Dict, k: Name, v: Cell): (r: Dict)
    ensures r.vals == d.vals[k := v]
    ensures k in d.vals ==> r.keys == d.keys
    ensures k !in d.vals ==> r.keys == d.keys + [k]
  {
    if k in d.vals then DictRep(d.keys, d.vals[k := v])
    else
      DictRep(d.keys + [k], d.vals[k := v])
  }

  /**
   * A wide table: its columns in the order they were first seen and one
   * row per application. A row lacks the columns that appeared after it
   * (the NaN cells pandas leaves behind) until the table is filled.
   */
  datatype Table = Table(columns: seq<Name>, rows: seq<map<Name, Cell>>)

  const EmptyTable: Table := Table([], [])

  /** The invariant `pd.concat` keeps: no row holds a key that is not a column. */
  ghost predicate Covered(t: Table)
  {
    forall i, k :: 0 <= i < |t.rows| && k in t.rows[i] ==> k in t.columns
  }

  /** Every row has a value for every column and for nothing else. */
  ghost predicate Dense(t: Table)
  {
    forall i, k :: 0 <= i < |t.rows| ==> (k in t.rows[i] <==> k in t.columns)
  }

  /**
   * The column index `pd.concat` builds from the table's columns and the new
   * row's keys: the old columns, then each key not yet present, in its order.
   */
  function Union(columns: seq<Name>, keys: seq<Name>): (r: seq<Name>)
    ensures columns <= r
    ensures forall c :: c in r <==> c in columns || c in keys
    decreases |keys|
  {
    if keys == [] then columns
    else
      var u := Union(columns, keys[..|keys| - 1]);
      var k := keys[|keys| - 1];
      if k in u then u else u + [k]
  }

  /** The union never lists a column twice. */
  lemma {:induction false} UnionDistinct(columns: seq<Name>, keys: seq<Name>)
    requires Distinct(columns)
    ensures Distinct(Union(columns, keys))
    decreases |keys|
  {
    if keys != [] {
      UnionDistinct(columns, keys[..|keys| - 1]);
    }
  }

  /** Taking the union with two key lists in turn is taking it with their concatenation. */
  lemma {:induction false} UnionAppend(columns: seq<Name>, k1: seq<Name>, k2: seq<Name>)
    ensures Union(Union(columns, k1), k2) == Union(columns, k1 + k2)
    decreases |k2|
  {
    if k2 == [] {
      assert k1 + k2 == k1;
    } else {
      var n := |k2| - 1;
      UnionAppend(columns, k1, k2[..n]);
      assert (k1 + k2)[..|k1 + k2| - 1] == k1 + k2[..n];
    }
  }

  /** Distinct new keys are appended in their own order. */
  lemma {:induction false} UnionFresh(columns: seq<Name>, keys: seq<Name>)
    requires Distinct(columns + keys)
    ensures Union(columns, keys) == columns + keys
    decreases |keys|
  {
    if keys != [] {
      var n := |keys| - 1;
      assert (columns + keys[..n]) == (columns + keys)[..|columns| + n];
      UnionFresh(columns, keys[..n]);
      assert keys[n] == (columns + keys)[|columns| + n];
      assert columns + keys == columns + keys[..n] + [keys[n]];
    }
  }

  /** Keys that are already columns add nothing. */
  lemma {:induction false} UnionKnown(columns: seq<Name>, keys: seq<Name>)
    requires forall i :: 0 <= i < |keys| ==> keys[i] in columns
    ensures Union(columns, keys) == columns
    decreases |keys|
  {
    if keys != [] {
      UnionKnown(columns, keys[..|keys| - 1]);
    }
  }

  /** The columns of a two-frame table whose keys are a distinct run p followed only by repeats q. */
  lemma UnionThenKnown(p: seq<Name>, q: seq<Name>)
    requires Distinct(p)
    requires forall i :: 0 <= i < |q| ==> q[i] in p
    ensures Union([], p + q) == p
  {
    UnionAppend([], p, q);
    assert [] + p == p;
    UnionFresh([], p);
    UnionKnown(p, q);
  }

  /** `pd.concat([t, row])` for a one-row frame `row`. */
  function Concat(t: Table, row: Dict): (r: Table)
    ensures Covered(t) ==> Covered(r)
  {
    Table(Union(t.columns, row.keys), t.rows + [row.vals])
  }

  /** One row after `fillna(0)` over the given columns. */
  function Fill(row: map<Name, Cell>, columns: seq<Name>): map<Name, Cell>
  {
    map c | c in columns :: if c in row then row[c] else 0
  }

  /** `t.fillna(0)`: every missing cell becomes 0 and every present cell is kept. */
  function FillNa(t: Table): (r: Table)
    ensures r.columns == t.columns && |r.rows| == |t.rows|
    ensures Dense(r)
    ensures Covered(t) ==> Covered(r)
    ensures forall i, c :: 0 <= i < |t.rows| && c in t.rows[i] && c in t.columns ==> r.rows[i][c] == t.rows[i][c]
    ensures forall i, c :: 0 <= i < |t.rows| && c !in t.rows[i] && c in t.columns ==> r.rows[i][c] == 0
  {
    Table(t.columns, seq(|t.rows|, i requires 0 <= i < |t.rows| => Fill(t.rows[i], t.columns)))
  }

  /**
   * One of the script's accumulating tables. `AppendRow` is the
   * `pd.concat([table, row])` that rebinds the table, `Finalize` the
   * in-place `fillna(0, inplace=True)`.
   */
  class FeatureTable {
    var columns: seq<Name>
    var rows: seq<map<Name, Cell>>

    function Snapshot(): Table
      reads this
    {
      Table(columns, rows)
    }

    ghost predicate Valid()
      reads this
    {
      Covered(Snapshot())
    }

    /** `pd.DataFrame()`: no columns, no rows. */
    constructor ()
      ensures Valid() && Snapshot() == EmptyTable
    {
      columns := [];
      rows := [];
    }

    method AppendRow(row: Dict)
      requires Valid()
      modifies this
      ensures Valid()
      ensures Snapshot() == Concat(old(Snapshot()), row)
    {
      var j := 0;
      while j < |row.keys|
        invariant 0 <= j <= |row.keys|
        invariant columns == Union(old(columns), row.keys[..j])
        invariant rows == old(rows)
      {
        assert row.keys[..j + 1][..j] == row.keys[..j];
        if row.keys[j] !in columns {
          columns := columns + [row.keys[j]];
        }
        j := j + 1;
      }
      assert row.keys[..j] == row.keys;
      rows := rows + [row.vals];
    }

    method Finalize()
      requires Valid()
      modifies this
      ensures Valid() && Dense(Snapshot())
      ensures Snapshot() == FillNa(old(Snapshot()))
      ensures forall i, c :: 0 <= i < |old(rows)| && c in old(rows)[i] ==> rows[i][c] == old(rows)[i][c]
    {
      var i := 0;
      while i < |rows|
        invariant 0 <= i <= |rows| == |old(rows)|
        invariant columns == old(columns)
        invariant forall k :: 0 <= k < i ==> rows[k] == Fill(old(rows)[k], columns)
        invariant forall k :: i <= k < |rows| ==> rows[k] == old(rows)[k]
      {
        rows := rows[i := Fill(rows[i], columns)];
        i := i + 1;
      }
      assert rows == FillNa(old(Snapshot())).rows;
    }
  }
}
