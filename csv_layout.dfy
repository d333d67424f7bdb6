/**
  The tabular writer's layout: a fixed header of eight columns, then one row
  per schema-property record in input order. `csv.DictWriter` places each
  value under the column whose name is the record's key, so a row is built by
  looking each column name up in the record's dict.
 */
module CsvLayout {
  import opened JsonTree
  import opened Schemas

  /** The header, in this order. */
  const Columns: seq<string> :=
    ["schema name", "properties name", "type", "format", "description", "example", "required", "enum"]

  /** One cell before rendering: text, a boolean, or a value copied from the document. */
  datatype Cell = TextCell(text: string) | FlagCell(flag: bool) | ValueCell(value: Json)

  /** What `DictWriter` writes for a key the record lacks (its `restval`). */
  const Missing: Cell := TextCell("")

  datatype Table = Table(header: seq<string>, rows: seq<seq<Cell>>)

  /** The dict `extract_schemas` appends for a record, keys in the order it writes them. */
  function RecordDict(r: SchemaProperty): seq<(string, Cell)>
  {
    [ ("schema name", TextCell(r.schemaName)),
      ("properties name", TextCell(r.propertyName)),
      ("type", ValueCell(r.propType)),
      ("format", ValueCell(r.format)),
      ("description", ValueCell(r.description)),
      ("example", ValueCell(r.example)),
      ("required", FlagCell(r.required)),
      ("enum", TextCell(r.enum)) ]
  }

  /** A row whose cells have the kinds the eight columns hold. */
  predicate RowShaped(row: seq<Cell>)
  {
    && |row| == |Columns|
    && row[0].TextCell? && row[1].TextCell?
    && row[2].ValueCell? && row[3].ValueCell? && row[4].ValueCell? && row[5].ValueCell?
    && row[6].FlagCell? && row[7].TextCell?
  }

  /** Reading a row back into the record it was written from. */
  function RecordOfRow(row: seq<Cell>): SchemaProperty
    requires RowShaped(row)
  {
    SchemaProperty(
      row[0].text, row[1].text,
      row[2].value, row[3].value, row[4].value, row[5].value,
      row[6].flag, row[7].text)
  }

  /**
    The row `DictWriter` writes for a record: every column's value looked up by
    name. The row has one cell per column and loses nothing of the record.
   */
  function Row(r: SchemaProperty): (row: seq<Cell>)
    ensures RowShaped(row)
    ensures RecordOfRow(row) == r
  {
    var fields := RecordDict(r);
    var row := seq(|Columns|, k requires 0 <= k < |Columns| => Lookup(fields, Columns[k], Missing));
    ColumnsFindTheirCells(r);
    assert row[0] == fields[0].1 && row[1] == fields[1].1 && row[2] == fields[2].1 && row[3] == fields[3].1;
    assert row[4] == fields[4].1 && row[5] == fields[5].1 && row[6] == fields[6].1 && row[7] == fields[7].1;
    row
  }

  /** Each column name finds the record's entry at the same position. */
  lemma ColumnsFindTheirCells(r: SchemaProperty)
    ensures forall k :: 0 <= k < |Columns| ==> Lookup(RecordDict(r), Columns[k], Missing) == RecordDict(r)[k].1
  {
    var fields := RecordDict(r);
    RecordKeysAreColumns(r);
    assert DistinctKeys(fields);
    forall k | 0 <= k < |Columns|
      ensures Lookup(fields, Columns[k], Missing) == fields[k].1
    {
      LookupAt(fields, k, Missing);
    }
  }

  /**
    `write_to_csv`: the header, then one row per record in input order; reading
    the rows back gives the records back.
   */
  function WriteToCsv(data: seq<SchemaProperty>): (t: Table)
    ensures t.header == Columns
    ensures |t.rows| == |data|
    ensures forall i :: 0 <= i < |data| ==> RowShaped(t.rows[i]) && RecordOfRow(t.rows[i]) == data[i]
  {
    Table(Columns, seq(|data|, i requires 0 <= i < |data| => Row(data[i])))
  }

  /** A record's keys are exactly the columns, in column order, so `DictWriter` raises no error for it. */
  lemma RecordKeysAreColumns(r: SchemaProperty)
    ensures Keys(RecordDict(r)) == Columns
  {
  }
}
