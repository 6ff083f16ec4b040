/** `export_to_excel` as the exporter runs it: a scan with an early exit for
    the table name, then nested loops that fill each row key by key. Every
    method is proved to compute what the Flattener module specifies. The
    hand-off to the spreadsheet writer is not part of this model; the
    exporter ends with the header and the rows. */
module Export {
  import opened JsonValues
  import opened Flattener

  /** The scan over `schema.items()` that stops at the first list value. */
  method FindTableName(schema: Fields) returns (tableName: Option<string>)
    ensures tableName == TableName(schema)
  {
    tableName := None;
    for i := 0 to |schema|
      invariant tableName == None
      invariant forall j | 0 <= j < i :: !schema[j].1.List?
    {
      if schema[i].1.List? {
        tableName := Some(schema[i].0);
        break;
      }
    }
  }

  /** Builds one row: first the fixed columns from the top-level data, then
      the table columns from the item, overwriting on a shared name. */
  method BuildRow(fixed: seq<string>, tableCols: seq<string>,
                  data: map<string, Json>, item: Json) returns (r: Result<Row>)
    ensures r == RowOf(fixed, tableCols, data, item)
  {
    var row: Row := map[];
    for j := 0 to |fixed|
      invariant row.Keys == set c | c in fixed[..j]
      invariant forall c | c in row :: row[c] == DataGet(data, c)
    {
      assert fixed[..j + 1] == fixed[..j] + [fixed[j]];
      row := row[fixed[j] := DataGet(data, fixed[j])];
    }
    assert fixed[..|fixed|] == fixed;
    for j := 0 to |tableCols|
      invariant row.Keys == set c | c in fixed + tableCols[..j]
      invariant forall c | c in row ::
        row[c] == if c in tableCols[..j] then Get(FieldsOf(item), c, Blank) else DataGet(data, c)
      invariant j > 0 ==> item.Obj?
    {
      if !item.Obj? {
        return Err(ItemNotObject);
      }
      assert tableCols[..j + 1] == tableCols[..j] + [tableCols[j]];
      row := row[tableCols[j] := Get(item.fields, tableCols[j], Blank)];
    }
    assert tableCols[..|tableCols|] == tableCols;
    assert row == ExpectedRow(fixed, tableCols, data, FieldsOf(item)) by {
      forall c | c in row ensures row[c] == ExpectedRow(fixed, tableCols, data, FieldsOf(item))[c] { }
    }
    r := Ok(row);
  }

  /** `for item in items`, appending one row per item, in item order. */
  method BuildRows(fixed: seq<string>, tableCols: seq<string>,
                   data: map<string, Json>, items: seq<Json>) returns (r: Result<seq<Row>>)
    ensures r == RowsOf(fixed, tableCols, data, items)
  {
    var rows: seq<Row> := [];
    for k := 0 to |items|
      invariant |rows| == k
      invariant forall l | 0 <= l < k ::
        rows[l] == ExpectedRow(fixed, tableCols, data, FieldsOf(items[l]))
      invariant tableCols != [] ==> forall l | 0 <= l < k :: items[l].Obj?
    {
      var row := BuildRow(fixed, tableCols, data, items[k]);
      if row.Err? {
        assert tableCols != [] && !items[k].Obj?;
        return Err(row.error);
      }
      rows := rows + [row.value];
    }
    assert rows == seq(|items|, k requires 0 <= k < |items| =>
                                ExpectedRow(fixed, tableCols, data, FieldsOf(items[k])));
    r := Ok(rows);
  }

  /** `export_to_excel` up to the spreadsheet hand-off. */
  method ExportToExcel(schema: Fields, data: map<string, Json>) returns (r: Result<Table>)
    requires DistinctKeys(schema)
    ensures r == Flattened(schema, data)
  {
    var tableName := FindTableName(schema);
    if tableName == None || tableName.value == "" {
      return Err(NoTable);
    }
    var name := tableName.value;
    var fixed := FixedColumns(schema);
    ghost var i := FirstList(schema).value;
    GetAt(schema, i, Null);
    // schema[table_name]: the key is present, so the default is never used
    var sample := Get(schema, name, Null);
    if |sample.elems| == 0 {
      return Err(EmptySample);
    }
    if !sample.elems[0].Obj? {
      return Err(SampleNotObject);
    }
    var tableCols := Keys(sample.elems[0].fields);
    var columns := fixed + tableCols;
    if name !in data {
      return Err(MissingTable);
    }
    var items := Iterate(data[name]);
    if items.Err? {
      return Err(items.error);
    }
    var rows := BuildRows(fixed, tableCols, data, items.value);
    if rows.Err? {
      return Err(rows.error);
    }
    r := Ok(Table(columns, rows.value));
  }
}
