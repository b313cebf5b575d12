/** What the model keeps of a pandas DataFrame: its column labels in order
    and its number of rows. */
module Frames {
  import opened Json

  datatype Frame = Frame(columns: seq<string>, rowCount: nat)

  /** `df.empty`: no rows or no columns. */
  predicate IsEmpty(df: Frame) {
    df.rowCount == 0 || df.columns == []
  }

  /** `len(df)`. */
  function Len(df: Frame): nat {
    df.rowCount
  }

  /** Appends the labels of `keys` not yet in `cols`, in order. */
  function AddNew(cols: seq<string>, keys: seq<string>): (r: seq<string>)
    decreases |keys|
  {
    if keys == [] then cols
    else AddNew(if keys[0] in cols then cols else cols + [keys[0]], keys[1..])
  }

  /** The columns of `pd.DataFrame(records)`: every key of every record, in
      order of first appearance. */
  function ColumnsOf(records: seq<Object>): seq<string>
    decreases |records|
  {
    if records == [] then []
    else AddNew(ColumnsOf(records[..|records| - 1]), Keys(records[|records| - 1]))
  }

  /** `pd.DataFrame(records)` for a list of dicts. */
  function FromRecords(records: seq<Object>): Frame {
    Frame(ColumnsOf(records), |records|)
  }

  lemma {:induction false} AddNewSpec(cols: seq<string>, keys: seq<string>)
    requires UniqueKeys(cols)
    ensures UniqueKeys(AddNew(cols, keys))
    ensures forall c :: c in AddNew(cols, keys) <==> c in cols || c in keys
    decreases |keys|
  {
    if keys != [] {
      var next := if keys[0] in cols then cols else cols + [keys[0]];
      AddNewSpec(next, keys[1..]);
      assert keys == [keys[0]] + keys[1..];
    }
  }

  /** The columns are distinct, and a label is a column exactly when some
      record has it as a key. */
  lemma {:induction false} ColumnsOfSpec(records: seq<Object>)
    ensures UniqueKeys(ColumnsOf(records))
    ensures forall c :: c in ColumnsOf(records) <==>
              exists i :: 0 <= i < |records| && HasKey(records[i], c)
    decreases |records|
  {
    if records != [] {
      var init := records[..|records| - 1];
      ColumnsOfSpec(init);
      AddNewSpec(ColumnsOf(init), Keys(records[|records| - 1]));
      forall c ensures c in ColumnsOf(records) <==>
                 exists i :: 0 <= i < |records| && HasKey(records[i], c)
      {
        if c in ColumnsOf(records) && !HasKey(records[|records| - 1], c) {
          var i :| 0 <= i < |init| && HasKey(init[i], c);
          assert records[i] == init[i];
        }
        if exists i :: 0 <= i < |records| && HasKey(records[i], c) {
          var i :| 0 <= i < |records| && HasKey(records[i], c);
          if i < |init| {
            assert init[i] == records[i];
          }
        }
      }
    }
  }

  /** A frame built from records is empty exactly when there are no records
      or no record has any key. */
  lemma FromRecordsEmpty(records: seq<Object>)
    ensures IsEmpty(FromRecords(records)) <==>
              records == [] || forall i :: 0 <= i < |records| ==> records[i] == []
  {
    ColumnsOfSpec(records);
    forall i | 0 <= i < |records| && records[i] != [] ensures ColumnsOf(records) != [] {
      var c := records[i][0].0;
      assert Keys(records[i])[0] == c;
      assert c in ColumnsOf(records);
    }
    if ColumnsOf(records) != [] {
      var c := ColumnsOf(records)[0];
      assert c in ColumnsOf(records);
      var i :| 0 <= i < |records| && HasKey(records[i], c);
      assert |Keys(records[i])| == |records[i]|;
    }
  }
}
