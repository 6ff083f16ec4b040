# Schema-driven report flattening (excel_api)

The service receives a JSON *schema* and a JSON *data* payload. The schema
names fixed header fields and one repeating table section. The service turns
the table into spreadsheet rows. This project models the core of
`export_to_excel`. That core picks the table key, derives the column header,
and builds one row per table item. The model stops at the `(columns, rows)`
pair that the exporter hands to the spreadsheet writer.

Layout:

- `json.dfy` (module `JsonValues`): decoded JSON values. Objects keep their
  key order. The file also has dictionary `keys()` and `get(key, default)`.
- `flattener.dfy` (module `Flattener`): the specification. `FirstList` finds
  the table entry. `FixedColumns` gives the fixed columns. `Iterate` says
  what `for item in …` visits. `ExpectedRow`, `RowOf` and `RowsOf` give the
  rows. `Flattened` is the whole transformation, including every exception
  it can raise, returned as a `Result`.
- `export.dfy` (module `Export`): the exporter as it runs. There is a scan
  with an early `break`, and nested loops fill each row key by key. Each
  method is proved to compute what `Flattener` specifies.
- `properties.dfy` (module `FlattenerProperties`): lemmas about the
  specification. They cover the table choice, the failure cases, the header,
  the rows, what the result does not depend on, and a worked report.

Behaviour of the code worth knowing:

- A table value in `data` that is not a list is still iterated. A string is
  walked one character at a time, and a dictionary by its keys. Each such
  item then fails at `.get`, unless the sample has no columns. An empty
  string or an empty dictionary gives zero rows. A number, boolean or null
  raises `TypeError`. See `StringTableValue` and `DictTableValue`.
- A name that is both a fixed and a table column appears twice in the
  header, because the two lists are concatenated without deduplicating.
  The single row entry for that name holds the item's value, because it is
  assigned last.
- The check `if not table_name` also rejects a table whose key is the empty
  string.
- A non-dictionary item only raises when there are table columns, because
  `.get` is called only for them.

Specification functions without a contract of their own are stated by a
lemma: `Flattened` by `FlattenedOk`, `Iterate` by `IterationProtocol`,
`Keys` by `KeysOfFields`, `DataGet` by `DataCellValue`, `ExpectedRow` by
`ExpectedRowShape`, `RowOf` by `RowOfCases` and `RowsOf` by `RowsOfCases`.

## Model

| member | source | states |
|---|---|---|
| Flattener.FirstList | app.py:19-23 | the chosen entry is list-valued and every earlier entry is not; no result means no entry is a list |
| Flattener.FixedColumns | app.py:28 | a name is a fixed column iff some schema entry with that key has a non-list value; there are at most as many as schema entries |
| JsonValues.Get | app.py:38-40 | `.get(key, default)` yields the value of the first entry holding the key, or the default when no entry holds it |
| JsonValues.KeysOfFields | app.py:30 | `keys()` (the function `Keys`) lists one key per entry, in insertion order, exactly the entries' keys, without repeats for a dictionary |
| JsonValues.GetAt | app.py:30 | looking up a key that the dictionary holds yields that key's own value (used for `schema[table_name]` and `item.get`) |
| JsonValues.GetMissing | app.py:38-40 | `.get(key, default)` on an absent key yields the default |
| Export.FindTableName | app.py:19-23 | the scan with `break` returns the key of the first list-valued entry, or nothing when there is none |
| Export.BuildRow | app.py:36-41 | filling fixed columns from `data` and then table columns from the item gives exactly the specified row; a non-dictionary item raises at its first table column |
| Export.BuildRows | app.py:34-41 | one row per item in item order, or the error of the first item that cannot be read |
| Export.ExportToExcel | app.py:19-41 | the exporter's header and rows, or its exception, are exactly those of the specification `Flattened` |
| FlattenerProperties.FixedColumnsAppend | app.py:28 | fixed columns of a split schema are the fixed columns of each part, concatenated: schema order is kept, nothing is merged |
| FlattenerProperties.FixedColumnsListSwap | app.py:28 | replacing one list value by another leaves the fixed columns unchanged |
| FlattenerProperties.FixedColumnsDistinct | app.py:28 | with distinct schema keys, no fixed column repeats |
| FlattenerProperties.ListKeyNotFixed | app.py:20-28 | no list-valued key, the table or a later one, is a fixed column |
| FlattenerProperties.FirstListIs | app.py:19-23 | the first list-valued entry is unique, so the scan's answer is determined |
| FlattenerProperties.NoTableCases | app.py:19-25 | ValueError is raised exactly when no schema value is a list or the first list-valued key is the empty string (both directions) |
| FlattenerProperties.TableErrors | app.py:30-35 | after the table is found: an empty sample raises IndexError, a non-dictionary sample raises AttributeError, data without the table raises KeyError, a number, boolean or null table value raises TypeError |
| FlattenerProperties.FlattenedColumns | app.py:28-31 | on success the header is the fixed columns followed by the first sample's keys, and its length is the sum of the two (no deduplication) |
| FlattenerProperties.FlattenedRows | app.py:34-41 | on success: one row per item of `data[table_name]` in order, every row keyed by exactly the header's names, table columns from the item's `.get(col, "")`, other columns from `data.get(col, "")` |
| FlattenerProperties.FixedValuesShared | app.py:37-38 | a fixed column that is not also a table column holds the same top-level value in every row |
| FlattenerProperties.ItemCellValue | app.py:39-40 | a table-column cell holds the value of the item's entry with that key, or "" when the item lacks it |
| FlattenerProperties.DataCellValue | app.py:37-38 | a fixed-column cell (the function `DataGet`) holds the top-level data value, or "" when the data lacks the key; never an error |
| FlattenerProperties.ExpectedRowShape | app.py:36-41 | a row (the function `ExpectedRow`) has exactly the fixed and table column names as keys; a name that is both holds the item's value |
| FlattenerProperties.RowOfCases | app.py:36-41 | building one row (the function `RowOf`) fails with AttributeError exactly when there are table columns and the item is not a dictionary; otherwise the row covers every column |
| FlattenerProperties.RowsOfCases | app.py:34-41 | building the rows (the function `RowsOf`) succeeds exactly when every item's row succeeds; then row k is item k's row and there are as many rows as items |
| FlattenerProperties.IterationProtocol | app.py:35 | `for item in v` (the function `Iterate`) succeeds exactly on lists, strings and dictionaries, else TypeError; lists yield their elements, strings one string per character, dictionaries one string per key |
| FlattenerProperties.FlattenedOk | app.py:19-41 | the export (the function `Flattened`) succeeds if and only if the first list key is non-empty, its first sample is a dictionary, the data holds an iterable under that key and, when there are table columns, every item is a dictionary |
| FlattenerProperties.ListTableRows | app.py:30-41 | a table value that is a list of N dictionaries gives the header of fixed and sample columns and N rows, row k built from item k |
| FlattenerProperties.NonDictItem | app.py:35-40 | a non-dictionary list item raises AttributeError when there are table columns, and still yields a row when there are none |
| FlattenerProperties.LaterListIgnored | app.py:19-31 | removing a list-valued key that comes after the table leaves header and rows unchanged |
| FlattenerProperties.SampleTailIgnored | app.py:30 | only the schema's first sample row is read; the rest of the sample list has no effect |
| FlattenerProperties.StringTableValue | app.py:35-40 | a string table value is iterated by character: with no table columns, one row per character; with table columns, AttributeError; an empty string gives no rows |
| FlattenerProperties.DictTableValue | app.py:35-40 | a dictionary table value is iterated by key: with no table columns, one row per key; with table columns, AttributeError; an empty dictionary gives no rows |
| FlattenerProperties.ReportRow | app.py:36-41 | a row of the company report holds the company from `data` and the month and revenue from the item |
| FlattenerProperties.ReportExample | app.py:19-41 | a company field plus a two-month profit-and-loss table flattens to the expected header and two rows |

## Left out

- The spreadsheet writing (`pd.DataFrame(...)`, `df.to_excel(...)`, app.py:43-45) is not modelled. It is a foreign library plus file output. The model ends at the `(columns, rows)` pair.
- The HTTP endpoints `export_api` and `download_file` (app.py:48-74) are not modelled. This covers request parsing, `url_for`, `send_from_directory`, and turning any exception into a 500 response.
- The decoding of string inputs with `json.loads` (app.py:56-59) is left out. It is a library parser; the model takes already decoded values.
- Random file names (`uuid.uuid4()`, app.py:61), the output directory setup (app.py:10-11) and the port configuration (app.py:77-79) are left out. They are randomness and process start-up.
- Export.ExportToExcel: the arguments are typed as dictionaries, following the source's annotations. A non-dictionary `schema` or `data` (AttributeError or TypeError in Python) is not representable. The schema is required to have distinct keys, as every Python dictionary does.
- JSON objects inside values are taken to have distinct keys, as `json.loads` produces. `Get` returns the first entry with the key.
- JSON numbers are modelled as reals. Floating-point rounding is not modelled, because the exporter only copies numbers.
