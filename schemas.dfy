/**
  `extract_schemas`: one record per property of every schema under
  `components.schemas`, in schema order and then property order.
 */
module Schemas {
  import opened JsonTree
  import opened Text
  import opened Runs

  /** The flat record built for one property (the dict of `extract_schemas`). */
  datatype SchemaProperty = SchemaProperty(
    schemaName: string,
    propertyName: string,
    propType: Json,
    format: Json,
    description: Json,
    example: Json,
    required: bool,
    enum: string)

  // ---------------------------------------------------------------------
  // Documents the extractor accepts. Each predicate says exactly when the
  // corresponding `.get`, `.items()`, `in` or `join` raises no exception.
  // ---------------------------------------------------------------------

  /** A truthy `enum` must be iterable over strings: a list of strings, a string or a mapping. */
  predicate EnumShaped(e: Json)
  {
    Truthy(e) ==>
      (e.JArr? && forall i :: 0 <= i < |e.items| ==> e.items[i].JStr?) || e.JStr? || e.JObj?
  }

  predicate PropertyShaped(prop: Json)
  {
    prop.JObj? && EnumShaped(Get(prop, "enum", EmptyArr))
  }

  /** `prop_name in required` needs a container: a list, a mapping or a string. */
  predicate RequiredShaped(required: Json)
  {
    required.JArr? || required.JObj? || required.JStr?
  }

  predicate SchemaShaped(schema: Json)
  {
    && schema.JObj?
    && var props := Get(schema, "properties", EmptyObj);
    && props.JObj?
    && (forall k :: 0 <= k < |props.fields| ==> PropertyShaped(props.fields[k].1))
    && (|props.fields| > 0 ==> RequiredShaped(Get(schema, "required", EmptyArr)))
  }

  predicate EntriesShaped(entries: seq<(string, Json)>)
  {
    forall k :: 0 <= k < |entries| ==> SchemaShaped(entries[k].1)
  }

  predicate SchemasShaped(doc: Json)
  {
    && doc.JObj?
    && var components := Get(doc, "components", EmptyObj);
    && components.JObj?
    && var schemas := Get(components, "schemas", EmptyObj);
    && schemas.JObj?
    && EntriesShaped(schemas.fields)
  }

  // ---------------------------------------------------------------------
  // Reading the tree, with the defaults of the source.
  // ---------------------------------------------------------------------

  /** `swagger_data.get('components', {}).get('schemas', {})`. */
  function SchemasObj(doc: Json): (schemas: Json)
    requires SchemasShaped(doc)
    ensures schemas.JObj? && EntriesShaped(schemas.fields)
  {
    Get(Get(doc, "components", EmptyObj), "schemas", EmptyObj)
  }

  /** The entries of `schema.get('properties', {})`. */
  function PropertiesOf(schema: Json): seq<(string, Json)>
    requires SchemaShaped(schema)
  {
    Get(schema, "properties", EmptyObj).fields
  }

  /** `schema.get('required', [])`. */
  function RequiredOf(schema: Json): Json
    requires schema.JObj?
  {
    Get(schema, "required", EmptyArr)
  }

  /** `prop.get('enum', [])`. */
  function EnumOf(prop: Json): Json
    requires prop.JObj?
  {
    Get(prop, "enum", EmptyArr)
  }

  /** The strings of a list of strings. */
  function StrItems(items: seq<Json>): seq<string>
    requires forall i :: 0 <= i < |items| ==> items[i].JStr?
  {
    seq(|items|, i requires 0 <= i < |items| => items[i].s)
  }

  /** What iterating a truthy `enum` yields: list items, characters of a string, or keys of a mapping. */
  function EnumItems(e: Json): (values: seq<string>)
    requires EnumShaped(e) && Truthy(e)
    ensures |values| > 0
  {
    if e.JArr? then StrItems(e.items)
    else if e.JStr? then seq(|e.s|, i requires 0 <= i < |e.s| => [e.s[i]])
    else Keys(e.fields)
  }

  /** `', '.join(enum) if enum else ''`. */
  function EnumCell(e: Json): string
    requires EnumShaped(e)
  {
    if Truthy(e) then Join(Sep, EnumItems(e)) else ""
  }

  /**
    `prop_name in required`: element equality for a list, key membership for a
    mapping, substring for a string. On any other value Python raises, which
    `RequiredShaped` excludes; the last case is never reached from the extractor.
   */
  predicate InRequired(name: string, required: Json)
  {
    match required
    case JArr(items) => JStr(name) in items
    case JObj(fields) => HasKey(fields, name)
    case JStr(s) => Occurs(name, s)
    case _ => false
  }

  /** `prop.get(key)`: the stored value when the key is there, `None` otherwise. */
  predicate CopiedOrNull(prop: Json, key: string, v: Json)
  {
    prop.JObj? && (if HasKey(prop.fields, key) then (key, v) in prop.fields else v == JNull)
  }

  // ---------------------------------------------------------------------
  // The records.
  // ---------------------------------------------------------------------

  /** The record of property `entry` of schema `schemaName`, whose `required` value is `required`. */
  function MakeProperty(schemaName: string, entry: (string, Json), required: Json): SchemaProperty
    requires PropertyShaped(entry.1)
  {
    var prop := entry.1;
    SchemaProperty(
      schemaName,
      entry.0,
      Get(prop, "type", JNull),
      Get(prop, "format", JNull),
      Get(prop, "description", JNull),
      Get(prop, "example", JNull),
      InRequired(entry.0, required),
      EnumCell(EnumOf(prop)))
  }

  /**
    A record names its schema and property, copies `type`, `format`,
    `description` and `example` (`None` when absent), is required exactly when
    the name is in `required` (never under the default `[]`), and has an empty
    `enum` cell for an absent or empty enumeration.
   */
  lemma PropertyRecordFields(schemaName: string, entry: (string, Json), required: Json)
    requires PropertyShaped(entry.1)
    ensures var r := MakeProperty(schemaName, entry, required);
      && r.schemaName == schemaName && r.propertyName == entry.0
      && CopiedOrNull(entry.1, "type", r.propType)
      && CopiedOrNull(entry.1, "format", r.format)
      && CopiedOrNull(entry.1, "description", r.description)
      && CopiedOrNull(entry.1, "example", r.example)
      && (r.required <==> InRequired(entry.0, required))
      && (required == EmptyArr ==> !r.required)
      && (!Truthy(EnumOf(entry.1)) ==> r.enum == "")
  {
  }

  /** One record per property, in property order. */
  function PropertyBlock(schemaName: string, props: seq<(string, Json)>, required: Json): seq<SchemaProperty>
    requires forall k :: 0 <= k < |props| ==> PropertyShaped(props[k].1)
  {
    seq(|props|, j requires 0 <= j < |props| => MakeProperty(schemaName, props[j], required))
  }

  /** The records a single schema contributes. */
  function SchemaBlock(entry: (string, Json)): seq<SchemaProperty>
    requires SchemaShaped(entry.1)
  {
    PropertyBlock(entry.0, PropertiesOf(entry.1), RequiredOf(entry.1))
  }

  /** The block of each schema, in schema order. */
  function Blocks(entries: seq<(string, Json)>): seq<seq<SchemaProperty>>
    requires EntriesShaped(entries)
  {
    seq(|entries|, i requires 0 <= i < |entries| => SchemaBlock(entries[i]))
  }

  /** The records of a run of schemas: their blocks laid end to end. */
  function RecordsOf(entries: seq<(string, Json)>): seq<SchemaProperty>
    requires EntriesShaped(entries)
  {
    Concat(Blocks(entries))
  }

  /** What `extract_schemas` returns for `doc`. */
  function SchemaRecords(doc: Json): seq<SchemaProperty>
    requires SchemasShaped(doc)
  {
    RecordsOf(SchemasObj(doc).fields)
  }

  /** The number of properties over a run of schemas: the sizes of their `properties` mappings, summed. */
  function PropertyCount(entries: seq<(string, Json)>): nat
    requires EntriesShaped(entries)
    decreases |entries|
  {
    if |entries| == 0 then 0
    else PropertyCount(entries[..|entries| - 1]) + |PropertiesOf(entries[|entries| - 1].1)|
  }

  // ---------------------------------------------------------------------
  // The extractor itself: nested loops appending to a list.
  // ---------------------------------------------------------------------

  method ExtractSchemas(doc: Json) returns (parsed: seq<SchemaProperty>)
    requires SchemasShaped(doc)
    ensures parsed == SchemaRecords(doc)
  {
    var schemas := Get(Get(doc, "components", EmptyObj), "schemas", EmptyObj).fields;
    parsed := [];
    var i := 0;
    while i < |schemas|
      invariant 0 <= i <= |schemas|
      invariant parsed == RecordsOf(schemas[..i])
    {
      var (schemaName, schema) := schemas[i];
      var properties := PropertiesOf(schema);
      var required := RequiredOf(schema);
      ghost var before := parsed;
      var j := 0;
      while j < |properties|
        invariant 0 <= j <= |properties|
        invariant parsed == before + PropertyBlock(schemaName, properties[..j], required)
      {
        var item := MakeProperty(schemaName, properties[j], required);
        PropertyBlockSnoc(schemaName, properties, required, j);
        parsed := parsed + [item];
        j := j + 1;
      }
      assert properties[..j] == properties;
      RecordsOfSnoc(schemas, i);
      i := i + 1;
    }
    assert schemas[..i] == schemas;
  }

  /** Extending the properties by one appends that property's record. */
  lemma PropertyBlockSnoc(schemaName: string, props: seq<(string, Json)>, required: Json, j: nat)
    requires forall k :: 0 <= k < |props| ==> PropertyShaped(props[k].1)
    requires j < |props|
    ensures PropertyBlock(schemaName, props[..j + 1], required)
         == PropertyBlock(schemaName, props[..j], required) + [MakeProperty(schemaName, props[j], required)]
  {
  }

  /** Extending the schemas by one appends that schema's block. */
  lemma RecordsOfSnoc(entries: seq<(string, Json)>, i: nat)
    requires EntriesShaped(entries)
    requires i < |entries|
    ensures RecordsOf(entries[..i + 1]) == RecordsOf(entries[..i]) + SchemaBlock(entries[i])
  {
    assert Blocks(entries[..i + 1]) == Blocks(entries[..i]) + [SchemaBlock(entries[i])];
    ConcatSnoc(Blocks(entries[..i]), SchemaBlock(entries[i]));
  }

  /** The blocks of a prefix are a prefix of the blocks. */
  lemma BlocksPrefix(entries: seq<(string, Json)>, i: nat)
    requires EntriesShaped(entries) && i <= |entries|
    ensures Blocks(entries[..i]) == Blocks(entries)[..i]
  {
  }

  /** The property count of a run of schemas is the summed size of their blocks. */
  lemma {:induction false} CountIsTotal(entries: seq<(string, Json)>)
    requires EntriesShaped(entries)
    ensures PropertyCount(entries) == TotalLength(Blocks(entries))
    decreases |entries|
  {
    var n := |entries|;
    if n > 0 {
      CountIsTotal(entries[..n - 1]);
      BlocksPrefix(entries, n - 1);
    }
  }

  // ---------------------------------------------------------------------
  // Counting and order.
  // ---------------------------------------------------------------------

  /** There is exactly one record per property. */
  lemma RecordsLength(entries: seq<(string, Json)>)
    requires EntriesShaped(entries)
    ensures |RecordsOf(entries)| == PropertyCount(entries)
  {
    ConcatLength(Blocks(entries));
    CountIsTotal(entries);
  }

  /** Property `j` of schema `i` is the record right after those of the earlier schemas and properties. */
  lemma RecordsAt(entries: seq<(string, Json)>, i: nat, j: nat)
    requires EntriesShaped(entries)
    requires i < |entries| && j < |PropertiesOf(entries[i].1)|
    ensures PropertyCount(entries[..i]) + j < |RecordsOf(entries)|
    ensures RecordsOf(entries)[PropertyCount(entries[..i]) + j]
         == MakeProperty(entries[i].0, PropertiesOf(entries[i].1)[j], RequiredOf(entries[i].1))
  {
    BlocksPrefix(entries, i);
    CountIsTotal(entries[..i]);
    ConcatAt(Blocks(entries), i, j);
  }

  /** Every record is the record of some property `j` of some schema `i`. */
  lemma RecordsOrigin(entries: seq<(string, Json)>, k: nat) returns (i: nat, j: nat)
    requires EntriesShaped(entries)
    requires k < |RecordsOf(entries)|
    ensures i < |entries| && j < |PropertiesOf(entries[i].1)|
    ensures k == PropertyCount(entries[..i]) + j
  {
    i, j := ConcatOrigin(Blocks(entries), k);
    BlocksPrefix(entries, i);
    CountIsTotal(entries[..i]);
  }

  /**
    Records appear in schema order and then property order: a record that
    comes earlier belongs to an earlier schema, or to an earlier property of
    the same schema.
   */
  lemma RecordsInDocumentOrder(entries: seq<(string, Json)>, i1: nat, j1: nat, i2: nat, j2: nat)
    requires EntriesShaped(entries)
    requires i1 < |entries| && j1 < |PropertiesOf(entries[i1].1)|
    requires i2 < |entries| && j2 < |PropertiesOf(entries[i2].1)|
    ensures PropertyCount(entries[..i1]) + j1 < PropertyCount(entries[..i2]) + j2
        <==> i1 < i2 || (i1 == i2 && j1 < j2)
  {
    BlocksPrefix(entries, i1);
    BlocksPrefix(entries, i2);
    CountIsTotal(entries[..i1]);
    CountIsTotal(entries[..i2]);
    ConcatInOrder(Blocks(entries), i1, j1, i2, j2);
  }

  // ---------------------------------------------------------------------
  // The document-level promises.
  // ---------------------------------------------------------------------

  /** No `components`, or `components` without `schemas`: no records. */
  lemma NoSchemasNoRecords(doc: Json)
    requires SchemasShaped(doc)
    ensures !HasKeyIn(doc, "components") ==> SchemaRecords(doc) == []
    ensures !HasKeyIn(Get(doc, "components", EmptyObj), "schemas") ==> SchemaRecords(doc) == []
  {
  }

  /** A schema without `properties` contributes no record. */
  lemma NoPropertiesNoRecords(entry: (string, Json))
    requires SchemaShaped(entry.1)
    ensures !HasKeyIn(entry.1, "properties") ==> SchemaBlock(entry) == []
  {
  }

  /** The number of records of a document is the number of properties of its schemas. */
  lemma SchemaRecordsLength(doc: Json)
    requires SchemasShaped(doc)
    ensures |SchemaRecords(doc)| == PropertyCount(SchemasObj(doc).fields)
  {
    RecordsLength(SchemasObj(doc).fields);
  }

  /** The schema a record names, looked up in `components.schemas` (`{}` when absent). */
  ghost function SchemaNamed(doc: Json, name: string): (schema: Json)
    requires SchemasShaped(doc)
    ensures SchemaShaped(schema)
  {
    Get(SchemasObj(doc), name, EmptyObj)
  }

  /** The property a record names, looked up in its schema's `properties` (`{}` when absent). */
  ghost function PropertyNamed(schema: Json, name: string): (prop: Json)
    requires SchemaShaped(schema)
    ensures PropertyShaped(prop)
  {
    Get(Get(schema, "properties", EmptyObj), name, EmptyObj)
  }

  /** In a dict tree, the schema and property keys are distinct at every level the extractor walks. */
  lemma DistinctNames(doc: Json)
    requires DictTree(doc) && SchemasShaped(doc)
    ensures DistinctKeys(SchemasObj(doc).fields)
    ensures forall i :: 0 <= i < |SchemasObj(doc).fields| ==>
      DictTree(SchemasObj(doc).fields[i].1) &&
      DistinctKeys(PropertiesOf(SchemasObj(doc).fields[i].1))
  {
    GetDictTree(doc, "components", EmptyObj);
    GetDictTree(Get(doc, "components", EmptyObj), "schemas", EmptyObj);
    var entries := SchemasObj(doc).fields;
    forall i | 0 <= i < |entries|
      ensures DictTree(entries[i].1) && DistinctKeys(PropertiesOf(entries[i].1))
    {
      assert DictTree(entries[i].1);
      GetDictTree(entries[i].1, "properties", EmptyObj);
    }
  }

  /**
    Every record is the record of the property it names, in the schema it
    names: the extractor neither invents nor mixes up records.
   */
  lemma RecordsDescribeTheirProperty(doc: Json)
    requires DictTree(doc) && SchemasShaped(doc)
    ensures forall r :: r in SchemaRecords(doc) ==>
      var schema := SchemaNamed(doc, r.schemaName);
      r == MakeProperty(r.schemaName, (r.propertyName, PropertyNamed(schema, r.propertyName)), RequiredOf(schema))
  {
    var out := SchemaRecords(doc);
    forall r | r in out
      ensures var schema := SchemaNamed(doc, r.schemaName);
        r == MakeProperty(r.schemaName, (r.propertyName, PropertyNamed(schema, r.propertyName)), RequiredOf(schema))
    {
      var k :| 0 <= k < |out| && out[k] == r;
      RecordAtDescribes(doc, k);
    }
  }

  /** The record at position `k` is the record of the property it names. */
  lemma RecordAtDescribes(doc: Json, k: nat)
    requires DictTree(doc) && SchemasShaped(doc)
    requires k < |SchemaRecords(doc)|
    ensures var r := SchemaRecords(doc)[k];
      var schema := SchemaNamed(doc, r.schemaName);
      r == MakeProperty(r.schemaName, (r.propertyName, PropertyNamed(schema, r.propertyName)), RequiredOf(schema))
  {
    var entries := SchemasObj(doc).fields;
    var r := SchemaRecords(doc)[k];
    DistinctNames(doc);
    var i, j := RecordsOrigin(entries, k);
    RecordsAt(entries, i, j);
    var (name, schema) := entries[i];
    var props := PropertiesOf(schema);
    assert r.schemaName == name && r.propertyName == props[j].0;
    LookupAt(entries, i, EmptyObj);
    assert SchemaNamed(doc, name) == schema;
    LookupAt(props, j, EmptyObj);
    assert PropertyNamed(schema, props[j].0) == props[j].1;
  }

  /**
    `required` is true exactly when the property's name is in the enclosing
    schema's `required` value, and false throughout a schema without one.
   */
  lemma RequiredIffListed(doc: Json)
    requires DictTree(doc) && SchemasShaped(doc)
    ensures forall r :: r in SchemaRecords(doc) ==>
      (r.required <==> InRequired(r.propertyName, RequiredOf(SchemaNamed(doc, r.schemaName))))
    ensures forall r :: r in SchemaRecords(doc) && !HasKeyIn(SchemaNamed(doc, r.schemaName), "required") ==>
      !r.required
    ensures forall r :: r in SchemaRecords(doc) && RequiredOf(SchemaNamed(doc, r.schemaName)).JArr? ==>
      (r.required <==> JStr(r.propertyName) in RequiredOf(SchemaNamed(doc, r.schemaName)).items)
  {
    RecordsDescribeTheirProperty(doc);
  }

  /**
    The `enum` cell is empty for an absent or empty enumeration; otherwise
    splitting it on the separator gives the values back, provided none of them
    contains the separator.
   */
  lemma EnumCellRoundTrip(e: Json)
    requires EnumShaped(e)
    ensures !Truthy(e) ==> EnumCell(e) == ""
    ensures Truthy(e) && (forall v :: v in EnumItems(e) ==> !ContainsSep(v)) ==> Split(EnumCell(e)) == EnumItems(e)
  {
    if Truthy(e) && (forall v :: v in EnumItems(e) ==> !ContainsSep(v)) {
      SplitJoin(EnumItems(e));
    }
  }

  /** The enumeration cell of every record round-trips to its property's enumeration. */
  lemma EnumRoundTrip(doc: Json)
    requires DictTree(doc) && SchemasShaped(doc)
    ensures forall r :: r in SchemaRecords(doc) ==>
      var e := EnumOf(PropertyNamed(SchemaNamed(doc, r.schemaName), r.propertyName));
      (!Truthy(e) ==> r.enum == "") &&
      (Truthy(e) && (forall v :: v in EnumItems(e) ==> !ContainsSep(v)) ==> Split(r.enum) == EnumItems(e))
  {
    RecordsDescribeTheirProperty(doc);
    forall r | r in SchemaRecords(doc)
      ensures var e := EnumOf(PropertyNamed(SchemaNamed(doc, r.schemaName), r.propertyName));
        (!Truthy(e) ==> r.enum == "") &&
        (Truthy(e) && (forall v :: v in EnumItems(e) ==> !ContainsSep(v)) ==> Split(r.enum) == EnumItems(e))
    {
      EnumCellRoundTrip(EnumOf(PropertyNamed(SchemaNamed(doc, r.schemaName), r.propertyName)));
    }
  }

  /** No two records share a schema name and a property name. */
  lemma RecordKeysDistinct(doc: Json)
    requires DictTree(doc) && SchemasShaped(doc)
    ensures forall k1, k2 :: 0 <= k1 < k2 < |SchemaRecords(doc)| ==>
      (SchemaRecords(doc)[k1].schemaName, SchemaRecords(doc)[k1].propertyName)
      != (SchemaRecords(doc)[k2].schemaName, SchemaRecords(doc)[k2].propertyName)
  {
    var out := SchemaRecords(doc);
    forall k1, k2 | 0 <= k1 < k2 < |out|
      ensures (out[k1].schemaName, out[k1].propertyName) != (out[k2].schemaName, out[k2].propertyName)
    {
      RecordPairDistinct(doc, k1, k2);
    }
  }

  /** The records at two different positions differ in schema name or property name. */
  lemma RecordPairDistinct(doc: Json, k1: nat, k2: nat)
    requires DictTree(doc) && SchemasShaped(doc)
    requires k1 < k2 < |SchemaRecords(doc)|
    ensures SchemaRecords(doc)[k1].schemaName != SchemaRecords(doc)[k2].schemaName
         || SchemaRecords(doc)[k1].propertyName != SchemaRecords(doc)[k2].propertyName
  {
    DistinctNames(doc);
    EntriesPairDistinct(SchemasObj(doc).fields, k1, k2);
  }

  lemma EntriesPairDistinct(entries: seq<(string, Json)>, k1: nat, k2: nat)
    requires EntriesShaped(entries) && DistinctKeys(entries)
    requires forall i :: 0 <= i < |entries| ==> DistinctKeys(PropertiesOf(entries[i].1))
    requires k1 < k2 < |RecordsOf(entries)|
    ensures RecordsOf(entries)[k1].schemaName != RecordsOf(entries)[k2].schemaName
         || RecordsOf(entries)[k1].propertyName != RecordsOf(entries)[k2].propertyName
  {
    var i1, j1 := RecordsOrigin(entries, k1);
    var i2, j2 := RecordsOrigin(entries, k2);
    RecordNamesAt(entries, i1, j1);
    RecordNamesAt(entries, i2, j2);
    RecordsInDocumentOrder(entries, i1, j1, i2, j2);
    if i1 == i2 {
      var props := PropertiesOf(entries[i1].1);
      assert props[j1].0 != props[j2].0;
    } else {
      assert entries[i1].0 != entries[i2].0;
    }
  }

  /** The names carried by the record of property `j` of schema `i`. */
  lemma RecordNamesAt(entries: seq<(string, Json)>, i: nat, j: nat)
    requires EntriesShaped(entries)
    requires i < |entries| && j < |PropertiesOf(entries[i].1)|
    ensures PropertyCount(entries[..i]) + j < |RecordsOf(entries)|
    ensures RecordsOf(entries)[PropertyCount(entries[..i]) + j].schemaName == entries[i].0
    ensures RecordsOf(entries)[PropertyCount(entries[..i]) + j].propertyName == PropertiesOf(entries[i].1)[j].0
  {
    RecordsAt(entries, i, j);
  }
}
