# Swagger/OpenAPI record extractor, modelled in Dafny

The tool turns an API description (an OpenAPI/Swagger document in JSON or
YAML) into a flat table. It loads the document by its declared format tag.
Then it flattens the document tree into fixed-shape records, and writes them
as a CSV table with a fixed header. There are two extraction policies:

- one record per (path, HTTP method) pair, from `paths`;
- one record per property of each schema under `components.schemas`.

The end-to-end pipeline uses the second policy.

The model covers the following:

- **Document tree** (`JsonTree`). The tree is a datatype with ordered
  mappings. `Get` behaves like Python's `dict.get`, and `Truthy` follows
  Python truthiness. `DictTree` says that every mapping has distinct keys,
  as a Python dict does.
- **Loader** (`Loader.ReadSwaggerFile`). It dispatches on the format tag.
  The JSON and YAML parsers are function parameters.
- **Operation extractor** (`Operations.ParseSwagger`) and **schema-property
  extractor** (`Schemas.ExtractSchemas`). Each is a method with nested
  loops that appends to a sequence. Each is proved equal to a functional
  specification (`OperationRecords`, `SchemaRecords`).
- **Shared block layout** (`Runs`). Both specifications are the per-entry
  blocks laid end to end. `Runs` proves where each block's records land,
  which gives counting and document order.
- **Writer layout** (`CsvLayout`). It has the eight-column header. Each row
  is built the way `csv.DictWriter` builds it: every column name is looked
  up in the record's dict.
- **Pipeline** (`Pipeline.ProcessSwaggerFile`). It composes load, extract
  and write, and is all-or-nothing.
- **Text helpers** (`Text`). These are the `', '` join and its split
  inverse, substring membership, and ASCII `upper()`.

Python raises `AttributeError` or `TypeError` on a tree of the wrong shape.
For example, `paths` may be a list, a parameter may not be a mapping, or an
`enum` value may not be a string. The predicates `OperationsShaped` and
`SchemasShaped` state exactly when the extractor code raises nothing. The
extractors require them. The pipeline checks the shape before extracting and
reports `MalformedDocument` otherwise. The Python code raises part-way
instead, but the outcome is the same: no table.

A few behaviours of `swagger_parser.py` worth stating explicitly:

- An unsupported tag gives the fixed message "Unsupported file format. Only
  JSON and YAML are supported.", not a message naming the tag.
- A present node of the wrong shape raises a Python `TypeError` or
  `AttributeError`, not an unsupported-format error. In the model this
  becomes `MalformedDocument`.
- Absent `type`, `format`, `description` and `example` give `None`
  (`JNull`), never `''`.
- A truthy `enum` may also be a string, which joins its characters, or a
  mapping, which joins its keys. `', '.join` accepts both.
- `required` may be a list (element test), a mapping (key test) or a string
  (substring test), because Python's `in` accepts all three.
- The output file is written in place, not through a temporary file.

## Model

| member | source | states |
|---|---|---|
| Loader.ReadSwaggerFile | swagger_parser.py:21-26 | A result is an unsupported-format failure exactly when the tag is not `json`, `yaml` or `yml`. The failure carries the fixed message. `json` yields the JSON parser's result, and `yaml`/`yml` yield the YAML parser's. |
| Loader.YamlYmlSynonyms | swagger_parser.py:23-24 | `yaml` and `yml` load every content to the same result. |
| Loader.UpperCaseTagRefused | swagger_parser.py:21-26 | The tag comparison is case-sensitive, so `JSON` and `xml` are refused with the unsupported-format error. |
| JsonTree.LookupFound | swagger_parser.py:46-47 | `dict.get` gives the default for a missing key, and otherwise a value stored under that key. |
| JsonTree.LookupAt | swagger_parser.py:41-42 | With distinct keys, looking up the key of entry `i` finds entry `i`'s value. |
| JsonTree.GetDictTree | swagger_parser.py:66 | A value read with `.get` from a dict tree is again a dict tree. |
| Text.SplitJoin | swagger_parser.py:83 | Splitting the `', '`-join of a non-empty list on `', '` gives the list back, when no element contains the separator. |
| Text.OccursIff | swagger_parser.py:82 | Substring `in` on strings holds exactly when the needle occurs at some position of the haystack. |
| Text.UpperFacts | swagger_parser.py:45 | `upper()` keeps the length, leaves no ASCII lower-case letter, shifts each lower-case letter by 32, leaves other characters alone, and is idempotent. |
| Operations.ParameterNames | swagger_parser.py:48 | There is one name per parameter. It is the parameter's `name` when present, and `''` otherwise. |
| Operations.OperationRecordFields | swagger_parser.py:43-50 | A record holds its path and the upper-cased method. `summary`/`description` are copied, or `''` when absent. `parameters` and `responses` are `''` when their key is absent. |
| Operations.ParseSwagger | swagger_parser.py:39-53 | The nested loops return exactly the functional specification `OperationRecords(doc)`. |
| Operations.RecordsLength | swagger_parser.py:41-51 | The number of records is the total size of the method maps. |
| Operations.OperationRecordsLength | swagger_parser.py:41-53 | For a whole document, the record count is the method count of `paths`. |
| Operations.RecordsAt | swagger_parser.py:41-51 | The record of method `j` of path `i` sits right after the records of all earlier paths and methods. |
| Operations.RecordsOrigin | swagger_parser.py:41-51 | Every record position is method `j` of some path `i`. |
| Operations.RecordsInDocumentOrder | swagger_parser.py:41-42 | Records are ordered by path first and by method second, in both directions. |
| Operations.NoPathsNoRecords | swagger_parser.py:41 | A document without `paths` yields no records. |
| Operations.RecordsNameTheirOperation | swagger_parser.py:41-51 | Every record is the record of some (path, method) pair of the document. |
| Operations.CellsRoundTrip | swagger_parser.py:48-49 | The `parameters` cell splits back into the non-empty list of parameter names, and the `responses` cell into the non-empty list of response keys, when no entry contains `', '`. Each cell is `''` when its list is empty. |
| Schemas.EnumItems | swagger_parser.py:83 | Iterating a truthy `enum` yields at least one value. |
| Schemas.PropertyRecordFields | swagger_parser.py:74-84 | A record names its schema and property. It copies `type`, `format`, `description` and `example`, or holds `None` when one is absent. `required` holds exactly when the name is in `required`, and is false under the default `[]`. `enum` is `''` for an absent or empty enumeration. |
| Schemas.SchemasObj | swagger_parser.py:66 | The chained `.get` yields a mapping all of whose schemas are well-shaped. |
| Schemas.ExtractSchemas | swagger_parser.py:66-86 | The nested loops return exactly the functional specification `SchemaRecords(doc)`. |
| Schemas.RecordsLength | swagger_parser.py:69-85 | There is exactly one record per property. |
| Schemas.SchemaRecordsLength | swagger_parser.py:66-86 | For a whole document, the record count is the property count of `components.schemas`. |
| Schemas.RecordsAt | swagger_parser.py:69-85 | The record of property `j` of schema `i` sits right after the records of all earlier schemas and properties, and it is that property's record. |
| Schemas.RecordsOrigin | swagger_parser.py:69-85 | Every record position is property `j` of some schema `i`. |
| Schemas.RecordsInDocumentOrder | swagger_parser.py:69-73 | Records are ordered by schema first and by property second, in both directions. |
| Schemas.NoSchemasNoRecords | swagger_parser.py:66 | No `components`, or `components` without `schemas`, yields no records. |
| Schemas.NoPropertiesNoRecords | swagger_parser.py:70 | A schema without `properties` contributes no record. |
| Schemas.SchemaNamed | swagger_parser.py:66-69 | Looking a schema up by name in a shaped document gives a well-shaped schema. |
| Schemas.PropertyNamed | swagger_parser.py:70-74 | Looking a property up by name in a shaped schema gives a well-shaped property. |
| Schemas.DistinctNames | swagger_parser.py:69-73 | In a dict tree, the schema names, and the property names within each schema, are distinct. |
| Schemas.RecordsDescribeTheirProperty | swagger_parser.py:69-85 | Every record is the record of the property it names, in the schema it names. |
| Schemas.RecordAtDescribes | swagger_parser.py:69-85 | The record at any position is the record of the property it names. |
| Schemas.RequiredIffListed | swagger_parser.py:71-82 | `required` is true exactly when the property name is in the schema's `required` value. It is false throughout a schema without `required`. For a list, it is true exactly when the name is an element. |
| Schemas.EnumCellRoundTrip | swagger_parser.py:74-83 | The cell is `''` for an absent or empty `enum`. Otherwise it splits back into the enumerated values when none contains `', '`. |
| Schemas.EnumRoundTrip | swagger_parser.py:74-83 | The enumeration round trip above holds for the `enum` cell of every record of a document. |
| Schemas.RecordKeysDistinct | swagger_parser.py:69-85 | No two records share both a schema name and a property name. |
| Schemas.RecordPairDistinct | swagger_parser.py:69-85 | Records at two different positions differ in schema name or property name. |
| Schemas.EntriesPairDistinct | swagger_parser.py:69-85 | The same holds for the records of any run of schemas with distinct names. |
| Schemas.RecordNamesAt | swagger_parser.py:75-77 | The record of property `j` of schema `i` carries that schema's name and that property's name. |
| CsvLayout.RecordKeysAreColumns | swagger_parser.py:75-84 | A schema-property record's keys are exactly the eight columns, in column order, so `DictWriter` accepts it. |
| CsvLayout.ColumnsFindTheirCells | swagger_parser.py:99-102 | Each column name finds the record's value at the same position. |
| CsvLayout.Row | swagger_parser.py:99-102 | A row has one cell per column of the right kind, and reading it back gives the record. |
| CsvLayout.WriteToCsv | swagger_parser.py:99-102 | The header is exactly the eight columns in order, followed by one row per record in input order. Each row reads back to its record. |
| Pipeline.ProcessSwaggerFile | swagger_parser.py:105-116 | An unsupported tag or a load failure is passed on. A badly shaped document fails. Otherwise the table holds exactly the schema-property records, under the fixed header. |
| Pipeline.EmptyDocument | swagger_parser.py:99-101 | `{}` yields no records from either extractor and a header-only table. |
| Pipeline.UserExample | swagger_parser.py:66-86 | A schema `User` with a required `id` and an optional `name` enumerating `alice` and `bob` yields two records in declaration order. |

## Left out

- The JSON and YAML parsers (`json.loads`, `yaml.safe_load`) are library code. They are the parameters `parseJson`/`parseYaml` of type `Parser`, whose results are dict trees. Their error messages are opaque strings.
- The file content is modelled as bytes, not as a decoded Python string. Decoding belongs to the parsers.
- File creation and writing, and `DictWriter`'s rendering of cells, are left out. This covers quoting, escaping, `None` as an empty field, `True`/`False`, and the `str()` of nested values. A row is modelled as a sequence of typed cells.
- Floating-point numbers are not part of the tree. Numbers are integers, which the extractors only copy through.
- `str(code)` on response keys is the identity, because mapping keys are strings in the tree. YAML's non-string keys (such as integer status codes) are not represented.
- Text.Upper: models `str.upper()` on ASCII letters only. Non-ASCII case mapping, and mappings that change the length (such as `ß`), are left out.
- The operation records never reach the writer. `DictWriter` would raise a `ValueError` for their keys, which are not among the eight columns. That error is not modelled.
- A JSON document with duplicate keys is not modelled. Python keeps the last value at the first key's position, but a `Document` has distinct keys at every mapping.
- Python's exceptions on a badly shaped tree are not modelled one by one. The shape predicates exclude those trees, and the pipeline reports `MalformedDocument`.
- The Streamlit front end (`app.py`) is not part of this model. This covers the upload widget, the download link, and the table preview.
