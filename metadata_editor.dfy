/** The custom-metadata editor of components/metadata-editor.tsx: editable
    rows of key, value text and type, and their conversion to and from the
    metadata entries its parent holds. */
module MetadataEditor {
  import opened Common
  import opened Strings

  datatype RowType = StringType | NumberType

  /** One editable row; the value is the text in its input box. */
  datatype MetadataRow = MetadataRow(key: string, value: string, rowType: RowType)

  /** A partial row given to `updateRow`: the fields it replaces. */
  datatype RowUpdate = RowUpdate(key: Option<string>, value: Option<string>, rowType: Option<RowType>)

  const BlankRow: MetadataRow := MetadataRow("", "", StringType)

  /** Whether a row is kept when the rows are turned into entries: its key
      is not all white space, that is, it does not trim to "". */
  predicate HasKey(r: MetadataRow) {
    !IsBlank(r.key)
  }

  lemma HasKeyIsTrimTest(r: MetadataRow)
    ensures HasKey(r) <==> Trim(r.key) != ""
  {
    TrimSpec(r.key);
  }

  /** An entry as the editor produces it: a non-blank key and exactly one value. */
  predicate WellFormed(m: CustomMetadata) {
    !IsBlank(m.key) && (m.stringValue.Some? != m.numericValue.Some?)
  }

  /** The row shown for an entry: its string value, else the decimal text of
      its numeric value, else nothing; typed as a number exactly when a
      numeric value is present. */
  function ToRow(m: CustomMetadata): (r: MetadataRow)
    ensures r.key == m.key
    ensures r.rowType == (if m.numericValue.Some? then NumberType else StringType)
    ensures m.stringValue.Some? ==> r.value == m.stringValue.value
    ensures m.stringValue.None? && m.numericValue.Some? ==> r.value == IntToString(m.numericValue.value)
    ensures m.stringValue.None? && m.numericValue.Some? ==> ParseInt(r.value) == m.numericValue
    ensures m.stringValue.None? && m.numericValue.None? ==> r.value == ""
  {
    var rowType := if m.numericValue.Some? then NumberType else StringType;
    if m.stringValue.Some? then MetadataRow(m.key, m.stringValue.value, rowType)
    else if m.numericValue.Some? then
      ParseIntOfIntToString(m.numericValue.value);
      MetadataRow(m.key, IntToString(m.numericValue.value), rowType)
    else MetadataRow(m.key, "", rowType)
  }

  /** `toMetadataRows`: one row per entry, in order. */
  function ToMetadataRows(ms: seq<CustomMetadata>): (rows: seq<MetadataRow>)
    ensures |rows| == |ms|
    ensures forall i :: 0 <= i < |ms| ==> rows[i] == ToRow(ms[i])
  {
    if ms == [] then [] else ToMetadataRows(ms[..|ms| - 1]) + [ToRow(ms[|ms| - 1])]
  }

  /** The entry for a kept row: a number row carries the number its text
      starts with, or 0 when it has none; a string row carries its text. */
  function ToEntry(r: MetadataRow): (m: CustomMetadata)
    ensures m.key == r.key
    ensures r.rowType == NumberType ==>
              m.stringValue.None? && m.numericValue == Some(if ParseInt(r.value).Some? then ParseInt(r.value).value else 0)
    ensures r.rowType == StringType ==> m.stringValue == Some(r.value) && m.numericValue.None?
  {
    match r.rowType
    case NumberType =>
      var n := match ParseInt(r.value) case Some(v) => v case None => 0;
      CustomMetadata(r.key, None, Some(n))
    case StringType => CustomMetadata(r.key, Some(r.value), None)
  }

  /** How many rows have a non-blank key. */
  function KeptCount(rows: seq<MetadataRow>): nat {
    if rows == [] then 0 else KeptCount(rows[..|rows| - 1]) + (if HasKey(rows[|rows| - 1]) then 1 else 0)
  }

  /** `toCustomMetadata`: the rows with a blank key are dropped and every
      other row becomes its entry, in order. */
  function ToCustomMetadata(rows: seq<MetadataRow>): seq<CustomMetadata> {
    if rows == [] then []
    else
      var init := ToCustomMetadata(rows[..|rows| - 1]);
      var last := rows[|rows| - 1];
      if HasKey(last) then init + [ToEntry(last)] else init
  }

  /** One entry per row with a non-blank key, and every entry is well formed. */
  lemma {:induction false} EntriesWellFormed(rows: seq<MetadataRow>)
    ensures |ToCustomMetadata(rows)| == KeptCount(rows) <= |rows|
    ensures forall j :: 0 <= j < |ToCustomMetadata(rows)| ==> WellFormed(ToCustomMetadata(rows)[j])
  {
    if rows != [] {
      var init := rows[..|rows| - 1];
      EntriesWellFormed(init);
      var ms, last := ToCustomMetadata(init), rows[|rows| - 1];
      if HasKey(last) {
        assert ToCustomMetadata(rows) == ms + [ToEntry(last)];
        assert WellFormed(ToEntry(last));
      }
    }
  }

  /** When every row has a key, each row gives the entry at its own index. */
  lemma {:induction false} AllRowsKept(rows: seq<MetadataRow>)
    requires forall i :: 0 <= i < |rows| ==> HasKey(rows[i])
    ensures var ms := ToCustomMetadata(rows);
      |ms| == |rows| && forall i :: 0 <= i < |rows| ==> ms[i] == ToEntry(rows[i])
  {
    if rows != [] {
      var init, last := rows[..|rows| - 1], rows[|rows| - 1];
      forall i | 0 <= i < |init|
        ensures HasKey(init[i])
      {
        assert init[i] == rows[i];
      }
      AllRowsKept(init);
      var ms0 := ToCustomMetadata(init);
      assert HasKey(last) by {
        assert last == rows[|rows| - 1];
      }
      assert ToCustomMetadata(rows) == ms0 + [ToEntry(last)];
      forall i | 0 <= i < |rows|
        ensures ToCustomMetadata(rows)[i] == ToEntry(rows[i])
      {
        if i < |init| {
          assert ToCustomMetadata(rows)[i] == ms0[i];
        }
      }
    }
  }

  /** Rows whose keys are all blank give no entries. */
  lemma {:induction false} NoRowsKept(rows: seq<MetadataRow>)
    requires forall i :: 0 <= i < |rows| ==> !HasKey(rows[i])
    ensures ToCustomMetadata(rows) == []
  {
    if rows != [] {
      var init := rows[..|rows| - 1];
      forall i | 0 <= i < |init|
        ensures !HasKey(init[i])
      {
        assert init[i] == rows[i];
      }
      NoRowsKept(init);
      assert !HasKey(rows[|rows| - 1]);
    }
  }

  /** Conversion distributes over joining rows. */
  lemma {:induction false} ToCustomMetadataAppend(a: seq<MetadataRow>, b: seq<MetadataRow>)
    ensures ToCustomMetadata(a + b) == ToCustomMetadata(a) + ToCustomMetadata(b)
    decreases |b|
  {
    if b == [] {
      assert a + b == a;
    } else {
      assert (a + b)[..|a + b| - 1] == a + b[..|b| - 1];
      ToCustomMetadataAppend(a, b[..|b| - 1]);
    }
  }

  /** Well-formed entries survive the trip through the editor's rows unchanged. */
  lemma {:induction false} RowsRoundTrip(ms: seq<CustomMetadata>)
    requires forall j :: 0 <= j < |ms| ==> WellFormed(ms[j])
    ensures ToCustomMetadata(ToMetadataRows(ms)) == ms
  {
    var rows := ToMetadataRows(ms);
    forall i | 0 <= i < |ms|
      ensures HasKey(rows[i]) && ToEntry(rows[i]) == ms[i]
    {
      var m := ms[i];
      if m.numericValue.Some? {
        ParseIntOfIntToString(m.numericValue.value);
      }
    }
    AllRowsKept(rows);
  }

  /** What the editor emits reads back as itself once the parent passes it
      back in: the echo of an emitted value is a fixed point. */
  lemma EmittedIsStable(rows: seq<MetadataRow>)
    ensures ToCustomMetadata(ToMetadataRows(ToCustomMetadata(rows))) == ToCustomMetadata(rows)
  {
    EntriesWellFormed(rows);
    RowsRoundTrip(ToCustomMetadata(rows));
  }

  /** `{ ...row, ...updates }` */
  function Merge(row: MetadataRow, u: RowUpdate): (r: MetadataRow)
    ensures r.key == (if u.key.Some? then u.key.value else row.key)
    ensures r.value == (if u.value.Some? then u.value.value else row.value)
    ensures r.rowType == (if u.rowType.Some? then u.rowType.value else row.rowType)
  {
    MetadataRow(
      match u.key case Some(k) => k case None => row.key,
      match u.value case Some(v) => v case None => row.value,
      match u.rowType case Some(t) => t case None => row.rowType)
  }

  /** `rows.filter((_, i) => i !== index)`: drops the row at `index`, and
      nothing when no row has that index. */
  function RemoveAt(rows: seq<MetadataRow>, index: int): (r: seq<MetadataRow>)
    ensures !(0 <= index < |rows|) ==> r == rows
    ensures 0 <= index < |rows| ==>
              && |r| == |rows| - 1
              && (forall j :: 0 <= j < index ==> r[j] == rows[j])
              && (forall j :: index <= j < |r| ==> r[j] == rows[j + 1])
  {
    if 0 <= index < |rows| then rows[..index] + rows[index + 1..] else rows
  }

  /** Removing a row drops exactly its entry, if it had one. */
  lemma RemoveAtEntries(rows: seq<MetadataRow>, index: int)
    requires 0 <= index < |rows|
    ensures ToCustomMetadata(RemoveAt(rows, index)) ==
              ToCustomMetadata(rows[..index]) + ToCustomMetadata(rows[index + 1..])
    ensures ToCustomMetadata(rows) ==
              ToCustomMetadata(rows[..index]) + ToCustomMetadata([rows[index]]) + ToCustomMetadata(rows[index + 1..])
  {
    var before, after := rows[..index], rows[index + 1..];
    RemoveAtIsSplice(rows, index);
    ToCustomMetadataAppend(before, after);
    SplitEntries(before, rows[index], after);
  }

  lemma RemoveAtIsSplice(rows: seq<MetadataRow>, index: int)
    requires 0 <= index < |rows|
    ensures RemoveAt(rows, index) == rows[..index] + rows[index + 1..]
    ensures rows == rows[..index] + [rows[index]] + rows[index + 1..]
  {
  }

  lemma SplitEntries(before: seq<MetadataRow>, row: MetadataRow, after: seq<MetadataRow>)
    ensures ToCustomMetadata(before + [row] + after) ==
              ToCustomMetadata(before) + ToCustomMetadata([row]) + ToCustomMetadata(after)
  {
    ToCustomMetadataAppend(before + [row], after);
    ToCustomMetadataAppend(before, [row]);
  }

  /** A freshly added row is invisible to the parent. */
  lemma AddedRowInvisible(rows: seq<MetadataRow>)
    ensures ToCustomMetadata(rows + [BlankRow]) == ToCustomMetadata(rows)
  {
    assert (rows + [BlankRow])[..|rows|] == rows;
  }

  predicate HasBlankKey(rows: seq<MetadataRow>) {
    exists i :: 0 <= i < |rows| && !HasKey(rows[i])
  }

  /** The editor component: its rows and the values it passed to `onChange`. */
  class Editor {
    var rows: seq<MetadataRow>
    var emitted: seq<seq<CustomMetadata>>

    constructor (value: seq<CustomMetadata>)
      ensures rows == ToMetadataRows(value) && emitted == []
    {
      rows := ToMetadataRows(value);
      emitted := [];
    }

    /** The `useEffect` run when the parent's value changes: the rows are
        replaced by the value's rows unless some row has a blank key. */
    method ValueChanged(value: seq<CustomMetadata>)
      modifies this
      ensures rows == (if HasBlankKey(old(rows)) then old(rows) else ToMetadataRows(value))
      ensures emitted == old(emitted)
    {
      if !HasBlankKey(rows) {
        rows := ToMetadataRows(value);
      }
    }

    /** `updateRow`; the index is that of a rendered row. */
    method UpdateRow(index: int, u: RowUpdate)
      requires 0 <= index < |rows|
      modifies this
      ensures rows == old(rows)[index := Merge(old(rows)[index], u)]
      ensures emitted == old(emitted) + [ToCustomMetadata(rows)]
    {
      rows := rows[index := Merge(rows[index], u)];
      emitted := emitted + [ToCustomMetadata(rows)];
    }

    /** `addRow`: a blank string row is appended and nothing is emitted. */
    method AddRow()
      modifies this
      ensures rows == old(rows) + [BlankRow] && emitted == old(emitted)
    {
      rows := rows + [BlankRow];
    }

    /** `removeRow` */
    method RemoveRow(index: int)
      modifies this
      ensures rows == RemoveAt(old(rows), index)
      ensures emitted == old(emitted) + [ToCustomMetadata(rows)]
    {
      rows := RemoveAt(rows, index);
      emitted := emitted + [ToCustomMetadata(rows)];
    }
  }

  /** After a row is added, its blank key holds off every resynchronisation
      until it is given a key or removed. */
  lemma AddedRowHoldsOffResync(rows: seq<MetadataRow>)
    ensures HasBlankKey(rows + [BlankRow])
  {
    assert !HasKey((rows + [BlankRow])[|rows|]);
  }
}
