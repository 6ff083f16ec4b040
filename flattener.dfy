/** The specification of `export_to_excel` up to the point where the rows
    are handed to the spreadsheet writer: which schema key is the table,
    which columns the sheet gets, and which row each data item becomes. */
module Flattener {
  import opened JsonValues

  datatype Option<+T> = None | Some(value: T)

  /** The exceptions `export_to_excel` can raise before it writes anything. */
  datatype FlattenError =
    | NoTable          // ValueError: no list-valued schema key, or its name is ""
    | EmptySample      // IndexError: the schema's sample list is empty
    | SampleNotObject  // AttributeError: the first sample has no `.keys()`
    | MissingTable     // KeyError: `data` has no entry under the table name
    | NotIterable      // TypeError: `data[table_name]` cannot be iterated
    | ItemNotObject    // AttributeError: an item has no `.get`

  datatype Result<+T> = Ok(value: T) | Err(error: FlattenError)

  /** One output row, keyed by column name. */
  type Row = map<string, Json>

  /** The column header and the rows given to the spreadsheet writer. */
  datatype Table = Table(columns: seq<string>, rows: seq<Row>)

  /** The default that `.get(col, "")` supplies. */
  const Blank: Json := Str("")

  /** Entry `i` is the first list-valued entry of the schema. */
  ghost predicate IsFirstList(schema: Fields, i: nat) {
    i < |schema| && schema[i].1.List? &&
    forall j | 0 <= j < i :: !schema[j].1.List?
  }

  /** No entry of the schema is list-valued. */
  ghost predicate NoList(schema: Fields) {
    forall j | 0 <= j < |schema| :: !schema[j].1.List?
  }

  /** The position of the table entry: the first list-valued entry. */
  function FirstList(schema: Fields): (r: Option<nat>)
    ensures r.Some? ==> IsFirstList(schema, r.value)
    ensures r.None? ==> NoList(schema)
  {
    if |schema| == 0 then None
    else if schema[0].1.List? then Some(0)
    else match FirstList(schema[1..])
      case None => None
      case Some(k) => Some(k + 1)
  }

  /** The name the scan over the schema settles on, if any. */
  function TableName(schema: Fields): Option<string> {
    match FirstList(schema)
    case None => None
    case Some(i) => Some(schema[i].0)
  }

  /** The fixed columns: every schema key whose value is not a list, in
      schema order. */
  function FixedColumns(schema: Fields): (cols: seq<string>)
    ensures |cols| <= |schema|
    ensures forall c :: c in cols <==>
      exists i | 0 <= i < |schema| :: schema[i].0 == c && !schema[i].1.List?
  {
    if |schema| == 0 then []
    else if schema[0].1.List? then FixedColumns(schema[1..])
    else [schema[0].0] + FixedColumns(schema[1..])
  }

  /** `data.get(col, "")` on the top-level data dictionary. */
  function DataGet(data: map<string, Json>, col: string): Json {
    if col in data then data[col] else Blank
  }

  /** What `for item in v` visits: the elements of a list, the one-character
      strings of a string, the keys of a dictionary; anything else raises. */
  function Iterate(v: Json): Result<seq<Json>> {
    match v
    case List(elems) => Ok(elems)
    case Str(s) => Ok(seq(|s|, k requires 0 <= k < |s| => Str([s[k]])))
    case Obj(fields) => Ok(seq(|fields|, k requires 0 <= k < |fields| => Str(fields[k].0)))
    case _ => Err(NotIterable)
  }

  /** The entries an item offers to `.get`; only consulted for dictionaries. */
  function FieldsOf(item: Json): Fields {
    if item.Obj? then item.fields else []
  }

  /** The row an item becomes: every column is present; a table column holds
      the item's value (or ""), any other column the top-level data value
      (or ""). A name that is both takes the item's value. */
  function ExpectedRow(fixed: seq<string>, tableCols: seq<string>,
                       data: map<string, Json>, item: Fields): Row
  {
    map c | c in fixed + tableCols ::
      if c in tableCols then Get(item, c, Blank) else DataGet(data, c)
  }

  /** One row, or the error the first `.get` on a non-dictionary raises. */
  function RowOf(fixed: seq<string>, tableCols: seq<string>,
                 data: map<string, Json>, item: Json): Result<Row>
  {
    if tableCols != [] && !item.Obj? then Err(ItemNotObject)
    else Ok(ExpectedRow(fixed, tableCols, data, FieldsOf(item)))
  }

  /** All rows, in item order, or the error of the first failing item. */
  function RowsOf(fixed: seq<string>, tableCols: seq<string>,
                  data: map<string, Json>, items: seq<Json>): Result<seq<Row>>
  {
    if tableCols != [] && exists k | 0 <= k < |items| :: !items[k].Obj? then Err(ItemNotObject)
    else Ok(seq(|items|, k requires 0 <= k < |items| =>
                          ExpectedRow(fixed, tableCols, data, FieldsOf(items[k]))))
  }

  /** The whole transformation, checked in the order the exporter meets its
      failure points. The table's sample is `schema[i].1`, which is
      `schema[table_name]` because dictionary keys are distinct (GetAt). */
  function Flattened(schema: Fields, data: map<string, Json>): Result<Table> {
    match FirstList(schema)
    case None => Err(NoTable)
    case Some(i) =>
      var name := schema[i].0;
      var sample := schema[i].1.elems;
      if name == "" then Err(NoTable)
      else if |sample| == 0 then Err(EmptySample)
      else if !sample[0].Obj? then Err(SampleNotObject)
      else if name !in data then Err(MissingTable)
      else
        var fixed := FixedColumns(schema);
        var tableCols := Keys(sample[0].fields);
        match Iterate(data[name])
        case Err(e) => Err(e)
        case Ok(items) =>
          match RowsOf(fixed, tableCols, data, items)
          case Err(e) => Err(e)
          case Ok(rows) => Ok(Table(fixed + tableCols, rows))
  }
}
