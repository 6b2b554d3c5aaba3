/**
 * The enhanced-mode input: an ordered list of column descriptors, and the
 * two lists every renderer derives from it, the column names and the names
 * of the columns that may not be null.
 */
module Descriptor {

  /** One column: `dataType` is the raw `type` string the caller sent; unknown types are allowed and fall back to defaults. */
  datatype Column = Column(name: string, dataType: string, nullable: bool)

  /** `columns.map(col => col.name)`. */
  function Names(columns: seq<Column>): (r: seq<string>)
  {
    seq(|columns|, i requires 0 <= i < |columns| => columns[i].name)
  }

  /** `columns.filter(col => !col.nullable).map(col => col.name)`. */
  function RequiredNames(columns: seq<Column>): seq<string>
  {
    if columns == [] then []
    else (if columns[0].nullable then [] else [columns[0].name]) + RequiredNames(columns[1..])
  }

  /** Every position moved one place to the right. */
  function Shift(idx: seq<nat>): (r: seq<nat>)
    ensures |r| == |idx| && forall k :: 0 <= k < |idx| ==> r[k] == idx[k] + 1
  {
    seq(|idx|, k requires 0 <= k < |idx| => idx[k] + 1)
  }

  /** The positions of the non-nullable columns, in increasing order. */
  function RequiredIndices(columns: seq<Column>): seq<nat>
  {
    if columns == [] then []
    else (if columns[0].nullable then [] else [0]) + Shift(RequiredIndices(columns[1..]))
  }

  /** The filter keeps as many positions as names. */
  lemma {:induction false} RequiredLengths(columns: seq<Column>)
    ensures |RequiredIndices(columns)| == |RequiredNames(columns)|
  {
    if columns != [] {
      RequiredLengths(columns[1..]);
    }
  }

  /** The k-th kept position points to a non-nullable column. */
  lemma {:induction false} RequiredIndexSound(columns: seq<Column>, k: nat)
    requires k < |RequiredIndices(columns)|
    ensures RequiredIndices(columns)[k] < |columns| && !columns[RequiredIndices(columns)[k]].nullable
    decreases |columns|
  {
    var tail := columns[1..];
    var head := if columns[0].nullable then [] else [0];
    var shifted := Shift(RequiredIndices(tail));
    var idx := RequiredIndices(columns);
    assert idx == head + shifted;
    if k >= |head| {
      RequiredIndexSound(tail, k - |head|);
      assert idx[k] == RequiredIndices(tail)[k - |head|] + 1;
      assert columns[idx[k]] == tail[RequiredIndices(tail)[k - |head|]];
    } else {
      assert idx[k] == 0;
    }
  }

  /** The k-th required name is the name of the column at the k-th kept position. */
  lemma {:induction false} RequiredNameSound(columns: seq<Column>, k: nat)
    requires k < |RequiredIndices(columns)|
    ensures |RequiredIndices(columns)| == |RequiredNames(columns)|
    ensures RequiredIndices(columns)[k] < |columns|
            && RequiredNames(columns)[k] == columns[RequiredIndices(columns)[k]].name
    decreases |columns|
  {
    RequiredLengths(columns);
    var tail := columns[1..];
    var head := if columns[0].nullable then [] else [0];
    var headNames := if columns[0].nullable then [] else [columns[0].name];
    var idx, names := RequiredIndices(columns), RequiredNames(columns);
    assert idx == head + Shift(RequiredIndices(tail));
    assert names == headNames + RequiredNames(tail);
    if k >= |head| {
      RequiredNameSound(tail, k - |head|);
      assert idx[k] == RequiredIndices(tail)[k - |head|] + 1;
      assert names[k] == RequiredNames(tail)[k - |head|];
      assert columns[idx[k]] == tail[RequiredIndices(tail)[k - |head|]];
    } else {
      assert idx[k] == 0 && names[k] == columns[0].name;
    }
  }

  /** The k-th required name is the name of the non-nullable column at the k-th selected position. */
  lemma RequiredIndicesSound(columns: seq<Column>)
    ensures |RequiredIndices(columns)| == |RequiredNames(columns)|
    ensures forall k :: 0 <= k < |RequiredIndices(columns)| ==>
              RequiredIndices(columns)[k] < |columns|
              && !columns[RequiredIndices(columns)[k]].nullable
              && RequiredNames(columns)[k] == columns[RequiredIndices(columns)[k]].name
  {
    RequiredLengths(columns);
    forall k | 0 <= k < |RequiredIndices(columns)|
      ensures RequiredIndices(columns)[k] < |columns|
              && !columns[RequiredIndices(columns)[k]].nullable
              && RequiredNames(columns)[k] == columns[RequiredIndices(columns)[k]].name
    {
      RequiredIndexSound(columns, k);
      RequiredNameSound(columns, k);
    }
  }

  /** The selected positions increase strictly: the filter keeps column order. */
  lemma {:induction false} RequiredIndicesIncreasing(columns: seq<Column>)
    ensures forall k, l :: 0 <= k < l < |RequiredIndices(columns)| ==>
              RequiredIndices(columns)[k] < RequiredIndices(columns)[l]
  {
    if columns != [] {
      RequiredIndicesIncreasing(columns[1..]);
    }
  }

  /** Every non-nullable position is selected. */
  lemma {:induction false} RequiredIndicesComplete(columns: seq<Column>)
    ensures forall i :: 0 <= i < |columns| && !columns[i].nullable ==> i in RequiredIndices(columns)
  {
    forall i | 0 <= i < |columns| && !columns[i].nullable
      ensures i in RequiredIndices(columns)
    {
      RequiredIndexComplete(columns, i);
    }
  }

  lemma ShiftMember(idx: seq<nat>, x: nat)
    requires x in idx
    ensures x + 1 in Shift(idx)
  {
    var k :| 0 <= k < |idx| && idx[k] == x;
    assert Shift(idx)[k] == x + 1;
  }

  /** A non-nullable position is kept. */
  lemma {:induction false} RequiredIndexComplete(columns: seq<Column>, i: nat)
    requires i < |columns| && !columns[i].nullable
    ensures i in RequiredIndices(columns)
    decreases i
  {
    var head := if columns[0].nullable then [] else [0];
    var idx := RequiredIndices(columns);
    assert idx == head + Shift(RequiredIndices(columns[1..]));
    if i > 0 {
      assert columns[1..][i - 1] == columns[i];
      RequiredIndexComplete(columns[1..], i - 1);
      ShiftMember(RequiredIndices(columns[1..]), i - 1);
    } else {
      assert idx[0] == 0;
    }
  }

  /**
   * The filter keeps exactly the non-nullable columns, in column order:
   * the k-th required name is the name of the column at the k-th
   * non-nullable position, the positions increase, and every
   * non-nullable position is among them.
   */
  lemma RequiredNamesSelect(columns: seq<Column>)
    ensures |RequiredIndices(columns)| == |RequiredNames(columns)|
    ensures forall k :: 0 <= k < |RequiredIndices(columns)| ==>
              RequiredIndices(columns)[k] < |columns|
              && !columns[RequiredIndices(columns)[k]].nullable
              && RequiredNames(columns)[k] == columns[RequiredIndices(columns)[k]].name
    ensures forall k, l :: 0 <= k < l < |RequiredIndices(columns)| ==>
              RequiredIndices(columns)[k] < RequiredIndices(columns)[l]
    ensures forall i :: 0 <= i < |columns| && !columns[i].nullable ==> i in RequiredIndices(columns)
  {
    RequiredIndicesSound(columns);
    RequiredIndicesIncreasing(columns);
    RequiredIndicesComplete(columns);
  }

  /** No name is required exactly when every column is nullable. */
  lemma {:induction false} RequiredNamesEmptyIff(columns: seq<Column>)
    ensures RequiredNames(columns) == [] <==> forall i :: 0 <= i < |columns| ==> columns[i].nullable
  {
    if columns != [] {
      RequiredNamesEmptyIff(columns[1..]);
      assert forall i :: 1 <= i < |columns| ==> columns[i] == columns[1..][i - 1];
    }
  }

  /** A name is required exactly when some non-nullable column carries it. */
  lemma RequiredNamesMembers(columns: seq<Column>, x: string)
    ensures x in RequiredNames(columns) <==> exists i :: 0 <= i < |columns| && !columns[i].nullable && columns[i].name == x
  {
    RequiredNamesSelect(columns);
    var idx := RequiredIndices(columns);
    if x in RequiredNames(columns) {
      var k :| 0 <= k < |RequiredNames(columns)| && RequiredNames(columns)[k] == x;
      assert !columns[idx[k]].nullable && columns[idx[k]].name == x;
    }
    if exists i :: 0 <= i < |columns| && !columns[i].nullable && columns[i].name == x {
      var i :| 0 <= i < |columns| && !columns[i].nullable && columns[i].name == x;
      var k :| 0 <= k < |idx| && idx[k] == i;
      assert RequiredNames(columns)[k] == x;
    }
  }
}
