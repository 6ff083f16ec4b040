/** What the exporter promises about its header and rows, stated over the
    Flattener specification (which ExportToExcel is proved to compute).

    Several lemmas here (the failure cases, FlattenedOk, ListTableRows,
    NonDictItem, FlattenedColumns, FlattenedRows, FixedValuesShared and the
    row-shape lemmas) follow from unfolding the definitions and are proved
    with empty bodies; they are kept as readable statements of what the
    exporter promises. The lemmas
    that need a proof of their own are ItemCellValue, LaterListIgnored,
    SampleTailIgnored, the FixedColumns lemmas and the worked report. */
module FlattenerProperties {
  import opened JsonValues
  import opened Flattener

  // ---------------------------------------------------------------------
  // Fixed columns

  /** Taking the fixed columns commutes with splitting the schema: they keep
      schema order and nothing is added, dropped or merged. */
  lemma {:induction false} FixedColumnsAppend(a: Fields, b: Fields)
    ensures FixedColumns(a + b) == FixedColumns(a) + FixedColumns(b)
  {
    if |a| > 0 {
      assert (a + b)[1..] == a[1..] + b;
      FixedColumnsAppend(a[1..], b);
    } else {
      assert a + b == b;
    }
  }

  /** Replacing one list value by another list value leaves the fixed
      columns as they were. */
  lemma {:induction false} FixedColumnsListSwap(schema: Fields, j: nat, v: seq<Json>)
    requires j < |schema| && schema[j].1.List?
    ensures FixedColumns(schema[j := (schema[j].0, List(v))]) == FixedColumns(schema)
  {
    if j > 0 {
      assert schema[j := (schema[j].0, List(v))][1..] == schema[1..][j - 1 := (schema[j].0, List(v))];
      FixedColumnsListSwap(schema[1..], j - 1, v);
    }
  }

  /** A schema with distinct keys gives fixed columns without repeats. */
  lemma {:induction false} FixedColumnsDistinct(schema: Fields)
    requires DistinctKeys(schema)
    ensures forall a, b | 0 <= a < b < |FixedColumns(schema)| ::
      FixedColumns(schema)[a] != FixedColumns(schema)[b]
  {
    if |schema| > 0 {
      var rest := schema[1..];
      assert DistinctKeys(rest) by {
        forall a, b | 0 <= a < b < |rest| ensures rest[a].0 != rest[b].0 {
          assert rest[a] == schema[a + 1] && rest[b] == schema[b + 1];
        }
      }
      FixedColumnsDistinct(rest);
      if !schema[0].1.List? {
        var cols := FixedColumns(schema);
        assert cols == [schema[0].0] + FixedColumns(rest);
        forall b | 0 < b < |cols| ensures cols[0] != cols[b] {
          assert cols[b] in FixedColumns(rest);
          var k :| 0 <= k < |rest| && rest[k].0 == cols[b] && !rest[k].1.List?;
          assert rest[k] == schema[k + 1];
        }
      }
    }
  }

  /** A list-valued schema key, the table or a later one, is never a fixed
      column. */
  lemma ListKeyNotFixed(schema: Fields, j: nat)
    requires DistinctKeys(schema) && j < |schema| && schema[j].1.List?
    ensures schema[j].0 !in FixedColumns(schema)
  {
  }

  // ---------------------------------------------------------------------
  // Failure cases

  /** The first list-valued entry is unique. */
  lemma FirstListIs(schema: Fields, i: nat)
    requires IsFirstList(schema, i)
    ensures FirstList(schema) == Some(i)
  {
  }

  /** ValueError is raised exactly when no schema value is a list, or when
      the first list-valued key is the empty string. */
  lemma NoTableCases(schema: Fields, data: map<string, Json>)
    ensures Flattened(schema, data) == Err(NoTable) <==>
      NoList(schema) || exists i | 0 <= i < |schema| :: IsFirstList(schema, i) && schema[i].0 == ""
  {
  }

  /** Once a table with a non-empty name is found, the remaining failure
      points are met in order: empty sample, sample that is not a
      dictionary, data without the table, table value that cannot be
      iterated. */
  lemma TableErrors(schema: Fields, data: map<string, Json>, i: nat)
    requires IsFirstList(schema, i) && schema[i].0 != ""
    ensures var sample := schema[i].1.elems;
      && (|sample| == 0 ==> Flattened(schema, data) == Err(EmptySample))
      && (|sample| > 0 && !sample[0].Obj? ==> Flattened(schema, data) == Err(SampleNotObject))
      && (|sample| > 0 && sample[0].Obj? && schema[i].0 !in data ==>
            Flattened(schema, data) == Err(MissingTable))
      && (|sample| > 0 && sample[0].Obj? && schema[i].0 in data &&
          (data[schema[i].0].Null? || data[schema[i].0].Bool? || data[schema[i].0].Num?) ==>
            Flattened(schema, data) == Err(NotIterable))
  {
  }

  // ---------------------------------------------------------------------
  // Columns and rows of a successful export

  /** On success the table is the first list-valued entry, and the header is
      the fixed columns followed by the keys of the table's first sample,
      with nothing deduplicated. */
  lemma FlattenedColumns(schema: Fields, data: map<string, Json>, i: nat)
    requires IsFirstList(schema, i) && Flattened(schema, data).Ok?
    ensures var name := schema[i].0; var sample := schema[i].1.elems;
      && name != "" && name in data && |sample| > 0 && sample[0].Obj?
      && Flattened(schema, data).value.columns == FixedColumns(schema) + Keys(sample[0].fields)
      && |Flattened(schema, data).value.columns| == |FixedColumns(schema)| + |sample[0].fields|
  {
  }

  /** On success there is one row per item of `data[table_name]`, in item
      order; every row has exactly the header's names as keys; a table column
      holds the item's `.get(col, "")` (also when the name is a fixed column
      too), and any other column holds `data.get(col, "")`, the same in every
      row. */
  lemma FlattenedRows(schema: Fields, data: map<string, Json>, i: nat)
    requires IsFirstList(schema, i) && Flattened(schema, data).Ok?
    ensures var name := schema[i].0; var t := Flattened(schema, data).value;
      var tableCols := Keys(schema[i].1.elems[0].fields);
      && name in data && Iterate(data[name]).Ok?
      && var items := Iterate(data[name]).value;
      && |t.rows| == |items|
      && (data[name].List? ==> items == data[name].elems)
      && (tableCols != [] ==> forall k | 0 <= k < |items| :: items[k].Obj?)
      && (forall k | 0 <= k < |t.rows| :: t.rows[k].Keys == set c | c in t.columns)
      && (forall k, c | 0 <= k < |t.rows| && c in tableCols ::
            t.rows[k][c] == Get(FieldsOf(items[k]), c, Blank))
      && (forall k, c | 0 <= k < |t.rows| && c in t.columns && c !in tableCols ::
            t.rows[k][c] == DataGet(data, c))
  {
  }

  /** Fixed-column values come from the top-level data, so every row carries
      the same value for a fixed column that is not also a table column. */
  lemma FixedValuesShared(schema: Fields, data: map<string, Json>, i: nat, k: nat, l: nat, c: string)
    requires IsFirstList(schema, i) && Flattened(schema, data).Ok?
    requires k < |Flattened(schema, data).value.rows| && l < |Flattened(schema, data).value.rows|
    requires c in FixedColumns(schema) && c !in Keys(schema[i].1.elems[0].fields)
    ensures var rows := Flattened(schema, data).value.rows;
      rows[k][c] == rows[l][c] == DataGet(data, c)
  {
  }

  /** A table-column cell holds the item's `.get(col, "")`: the value of a
      key the item holds, or "" for a key it lacks. */
  lemma ItemCellValue(fixed: seq<string>, tableCols: seq<string>, data: map<string, Json>,
                      item: Fields, c: string)
    requires DistinctKeys(item) && c in tableCols
    ensures var row := ExpectedRow(fixed, tableCols, data, item);
      && c in row
      && (forall j | 0 <= j < |item| && item[j].0 == c :: row[c] == item[j].1)
      && (c !in Keys(item) ==> row[c] == Blank)
  {
    forall j | 0 <= j < |item| && item[j].0 == c
      ensures ExpectedRow(fixed, tableCols, data, item)[c] == item[j].1
    {
      GetAt(item, j, Blank);
    }
    if c !in Keys(item) {
      GetMissing(item, c, Blank);
    }
  }

  /** Any other cell holds `data.get(col, "")`: the top-level value, or ""
      when the data has no such key; a missing key is never an error. */
  lemma DataCellValue(fixed: seq<string>, tableCols: seq<string>, data: map<string, Json>,
                      item: Fields, c: string)
    requires c in fixed && c !in tableCols
    ensures var row := ExpectedRow(fixed, tableCols, data, item);
      && c in row
      && (c in data ==> row[c] == data[c])
      && (c !in data ==> row[c] == Blank)
  {
  }

  // ---------------------------------------------------------------------
  // Row construction

  /** A row has exactly the header's names as keys; a name that is both a
      fixed and a table column holds the item's value, since the table
      columns are filled last. */
  lemma ExpectedRowShape(fixed: seq<string>, tableCols: seq<string>, data: map<string, Json>,
                         item: Fields)
    ensures var row := ExpectedRow(fixed, tableCols, data, item);
      && row.Keys == (set c | c in fixed) + (set c | c in tableCols)
      && (forall c | c in fixed && c in tableCols :: row[c] == Get(item, c, Blank))
  {
  }

  /** Building one row fails exactly when there are table columns and the
      item is not a dictionary; otherwise the row covers every column. */
  lemma RowOfCases(fixed: seq<string>, tableCols: seq<string>, data: map<string, Json>, item: Json)
    ensures RowOf(fixed, tableCols, data, item).Err? <==> tableCols != [] && !item.Obj?
    ensures RowOf(fixed, tableCols, data, item).Err? ==>
      RowOf(fixed, tableCols, data, item).error == ItemNotObject
    ensures RowOf(fixed, tableCols, data, item).Ok? ==>
      RowOf(fixed, tableCols, data, item).value.Keys == set c | c in fixed + tableCols
  {
  }

  /** Building the rows succeeds exactly when every item can be read; then
      there is one row per item and row k is the row of item k. */
  lemma RowsOfCases(fixed: seq<string>, tableCols: seq<string>, data: map<string, Json>,
                    items: seq<Json>)
    ensures RowsOf(fixed, tableCols, data, items).Ok? <==>
      forall k | 0 <= k < |items| :: RowOf(fixed, tableCols, data, items[k]).Ok?
    ensures RowsOf(fixed, tableCols, data, items).Err? ==>
      RowsOf(fixed, tableCols, data, items).error == ItemNotObject
    ensures RowsOf(fixed, tableCols, data, items).Ok? ==>
      var rows := RowsOf(fixed, tableCols, data, items).value;
      && |rows| == |items|
      && forall k | 0 <= k < |items| :: rows[k] == RowOf(fixed, tableCols, data, items[k]).value
  {
  }

  /** `for item in v` succeeds on lists, strings and dictionaries and raises
      on anything else; a list yields its elements, while a string or a
      dictionary yields one string per character or key, never a
      dictionary. */
  lemma IterationProtocol(v: Json)
    ensures Iterate(v).Ok? <==> v.List? || v.Str? || v.Obj?
    ensures Iterate(v).Err? ==> Iterate(v).error == NotIterable
    ensures v.List? ==> Iterate(v) == Ok(v.elems)
    ensures v.Str? ==>
      |Iterate(v).value| == |v.s| &&
      forall k | 0 <= k < |v.s| :: Iterate(v).value[k] == Str([v.s[k]])
    ensures v.Obj? ==>
      |Iterate(v).value| == |v.fields| &&
      forall k | 0 <= k < |v.fields| :: Iterate(v).value[k] == Str(v.fields[k].0)
  {
  }

  // ---------------------------------------------------------------------
  // When an export succeeds

  /** The export succeeds exactly when the first list-valued key is
      non-empty, its first sample is a dictionary, the data holds an
      iterable value under that key, and, when there are table columns,
      every item of it is a dictionary. */
  lemma FlattenedOk(schema: Fields, data: map<string, Json>)
    ensures Flattened(schema, data).Ok? <==>
      exists i | 0 <= i < |schema| :: IsFirstList(schema, i) &&
        var name := schema[i].0; var sample := schema[i].1.elems;
        && name != "" && |sample| > 0 && sample[0].Obj? && name in data
        && Iterate(data[name]).Ok?
        && (Keys(sample[0].fields) == [] ||
            forall k | 0 <= k < |Iterate(data[name]).value| :: Iterate(data[name]).value[k].Obj?)
  {
  }

  /** Well-formed input: a table value that is a list of N dictionaries gives
      N rows, row k built from item k. */
  lemma ListTableRows(schema: Fields, data: map<string, Json>, i: nat, items: seq<Json>)
    requires IsFirstList(schema, i) && schema[i].0 != ""
    requires |schema[i].1.elems| > 0 && schema[i].1.elems[0].Obj?
    requires schema[i].0 in data && data[schema[i].0] == List(items)
    requires forall k | 0 <= k < |items| :: items[k].Obj?
    ensures Flattened(schema, data).Ok?
    ensures var t := Flattened(schema, data).value;
      var tableCols := Keys(schema[i].1.elems[0].fields);
      && t.columns == FixedColumns(schema) + tableCols
      && |t.rows| == |items|
      && forall k | 0 <= k < |items| ::
           t.rows[k] == ExpectedRow(FixedColumns(schema), tableCols, data, items[k].fields)
  {
  }

  /** A list item that is not a dictionary raises AttributeError at its
      first table column; with no table columns it still yields a row. */
  lemma NonDictItem(schema: Fields, data: map<string, Json>, i: nat, items: seq<Json>, k: nat)
    requires IsFirstList(schema, i) && schema[i].0 != ""
    requires |schema[i].1.elems| > 0 && schema[i].1.elems[0].Obj?
    requires schema[i].0 in data && data[schema[i].0] == List(items)
    requires k < |items| && !items[k].Obj?
    ensures schema[i].1.elems[0].fields != [] ==> Flattened(schema, data) == Err(ItemNotObject)
    ensures schema[i].1.elems[0].fields == [] ==>
      Flattened(schema, data).Ok? && |Flattened(schema, data).value.rows| == |items|
  {
  }

  // ---------------------------------------------------------------------
  // What the export does not depend on

  /** A list-valued key after the table is ignored: removing it changes
      neither the header nor the rows. */
  lemma LaterListIgnored(schema: Fields, data: map<string, Json>, i: nat, j: nat)
    requires IsFirstList(schema, i) && i < j < |schema| && schema[j].1.List?
    ensures Flattened(schema[..j] + schema[j + 1..], data) == Flattened(schema, data)
  {
    var shorter := schema[..j] + schema[j + 1..];
    assert IsFirstList(shorter, i) by {
      assert forall k | 0 <= k <= i :: shorter[k] == schema[k];
    }
    FirstListIs(shorter, i);
    FirstListIs(schema, i);
    assert schema == schema[..j] + ([schema[j]] + schema[j + 1..]);
    FixedColumnsAppend(schema[..j], [schema[j]] + schema[j + 1..]);
    FixedColumnsAppend([schema[j]], schema[j + 1..]);
    FixedColumnsAppend(schema[..j], schema[j + 1..]);
    assert FixedColumns([schema[j]]) == [];
    assert shorter[i] == schema[i];
  }

  /** Only the first sample of the table is read: whatever follows it in the
      schema's list has no effect. */
  lemma SampleTailIgnored(schema: Fields, data: map<string, Json>, i: nat, rest: seq<Json>)
    requires IsFirstList(schema, i) && |schema[i].1.elems| > 0
    ensures Flattened(schema[i := (schema[i].0, List([schema[i].1.elems[0]] + rest))], data)
         == Flattened(schema, data)
  {
    var other := schema[i := (schema[i].0, List([schema[i].1.elems[0]] + rest))];
    assert IsFirstList(other, i);
    FirstListIs(other, i);
    FirstListIs(schema, i);
    FixedColumnsListSwap(schema, i, [schema[i].1.elems[0]] + rest);
  }

  // ---------------------------------------------------------------------
  // A table value that is not a list

  /** `for item in data[table_name]` also walks a string, one character at a
      time: with no table columns each character yields a row of fixed
      columns; with table columns the first character raises; an empty
      string yields no rows at all. */
  lemma StringTableValue(schema: Fields, data: map<string, Json>, i: nat, s: string)
    requires IsFirstList(schema, i) && schema[i].0 != ""
    requires |schema[i].1.elems| > 0 && schema[i].1.elems[0].Obj?
    requires schema[i].0 in data && data[schema[i].0] == Str(s)
    ensures var sampleFields := schema[i].1.elems[0].fields;
      && (s == [] ==>
            Flattened(schema, data) == Ok(Table(FixedColumns(schema) + Keys(sampleFields), [])))
      && (sampleFields == [] ==>
            Flattened(schema, data).Ok? && |Flattened(schema, data).value.rows| == |s|)
      && (sampleFields != [] && s != [] ==> Flattened(schema, data) == Err(ItemNotObject))
  {
    FirstListIs(schema, i);
    var items := Iterate(Str(s)).value;
    if |schema[i].1.elems[0].fields| > 0 && s != [] {
      assert !items[0].Obj?;
    }
    if s == [] {
      assert items == [];
      var rows := RowsOf(FixedColumns(schema), Keys(schema[i].1.elems[0].fields), data, items);
      assert rows.Ok? && |rows.value| == 0;
    }
  }

  /** A dictionary under the table name is walked by its keys: with no
      table columns each key yields a row of fixed columns; with table
      columns the first key raises; an empty dictionary yields no rows. */
  lemma DictTableValue(schema: Fields, data: map<string, Json>, i: nat, f: Fields)
    requires IsFirstList(schema, i) && schema[i].0 != ""
    requires |schema[i].1.elems| > 0 && schema[i].1.elems[0].Obj?
    requires schema[i].0 in data && data[schema[i].0] == Obj(f)
    ensures var sampleFields := schema[i].1.elems[0].fields;
      && (f == [] ==>
            Flattened(schema, data) == Ok(Table(FixedColumns(schema) + Keys(sampleFields), [])))
      && (sampleFields == [] ==>
            Flattened(schema, data).Ok? && |Flattened(schema, data).value.rows| == |f|)
      && (sampleFields != [] && f != [] ==> Flattened(schema, data) == Err(ItemNotObject))
  {
    FirstListIs(schema, i);
    var items := Iterate(Obj(f)).value;
    if |schema[i].1.elems[0].fields| > 0 && f != [] {
      assert !items[0].Obj?;
    }
    if f == [] {
      assert items == [];
      var rows := RowsOf(FixedColumns(schema), Keys(schema[i].1.elems[0].fields), data, items);
      assert rows.Ok? && |rows.value| == 0;
    }
  }

  // ---------------------------------------------------------------------
  // A worked report

  /** A row of the report below: the company from the header, the month and
      the revenue from the item. */
  lemma ReportRow(data: map<string, Json>, month: Json, revenue: Json)
    requires "公司" in data
    ensures ExpectedRow(["公司"], ["月份", "營收"], data, [("月份", month), ("營收", revenue)])
         == map["公司" := data["公司"], "月份" := month, "營收" := revenue]
  {
    var row := ExpectedRow(["公司"], ["月份", "營收"], data, [("月份", month), ("營收", revenue)]);
    assert row.Keys == {"公司", "月份", "營收"};
    assert row["公司"] == data["公司"];
    assert row["月份"] == month;
    assert "月份" != "營收";
    assert Get([("營收", revenue)], "營收", Blank) == revenue;
  }

  /** A company header field plus a monthly profit-and-loss table. */
  lemma ReportExample()
    ensures
      var schema := [("公司", Str("示例")),
                     ("損益表", List([Obj([("月份", Str("")), ("營收", Str(""))])]))];
      var data := map["公司" := Str("A公司"),
                      "損益表" := List([Obj([("月份", Str("1月")), ("營收", Num(100.0))]),
                                        Obj([("月份", Str("2月")), ("營收", Num(200.0))])])];
      Flattened(schema, data) ==
        Ok(Table(["公司", "月份", "營收"],
                 [map["公司" := Str("A公司"), "月份" := Str("1月"), "營收" := Num(100.0)],
                  map["公司" := Str("A公司"), "月份" := Str("2月"), "營收" := Num(200.0)]]))
  {
    var schema := [("公司", Str("示例")),
                   ("損益表", List([Obj([("月份", Str("")), ("營收", Str(""))])]))];
    var items := [Obj([("月份", Str("1月")), ("營收", Num(100.0))]),
                  Obj([("月份", Str("2月")), ("營收", Num(200.0))])];
    var data := map["公司" := Str("A公司"), "損益表" := List(items)];
    var tableCols := ["月份", "營收"];
    assert FirstList(schema) == Some(1);
    assert FixedColumns(schema) == ["公司"];
    assert Keys(schema[1].1.elems[0].fields) == tableCols;
    ReportRow(data, Str("1月"), Num(100.0));
    ReportRow(data, Str("2月"), Num(200.0));
    var rows := RowsOf(["公司"], tableCols, data, items);
    assert rows.Ok? && |rows.value| == 2;
    assert rows.value[0] == map["公司" := Str("A公司"), "月份" := Str("1月"), "營收" := Num(100.0)];
    assert rows.value[1] == map["公司" := Str("A公司"), "月份" := Str("2月"), "營收" := Num(200.0)];
    assert Flattened(schema, data) == Ok(Table(["公司"] + tableCols, rows.value));
    assert ["公司"] + tableCols == ["公司", "月份", "營收"];
    assert rows.value == [rows.value[0], rows.value[1]];
  }
}
