/**
  `process_swagger_file`: load the content by its format tag, extract the
  schema-property records, and lay them out as the table the writer emits.
 */
module Pipeline {
  import opened Wrappers
  import opened JsonTree
  import opened Loader
  import opened Schemas
  import Operations
  import opened CsvLayout
  import Text
  import Runs

  /**
    Why a run produced no table: the loader refused or failed, or the loaded
    tree has a shape on which the extractor's Python code raises.
   */
  datatype PipelineError =
    | LoadFailed(cause: LoadError)
    | MalformedDocument

  /**
    The run is all or nothing: a load failure or an extraction failure leaves
    no table; otherwise the table holds exactly the schema-property records of
    the loaded document. The operation records are never written.
   */
  method ProcessSwaggerFile(content: seq<byte>, fileType: string, parseJson: Parser, parseYaml: Parser)
    returns (r: Result<Table, PipelineError>)
    ensures !IsSupportedTag(fileType) ==> r == Failure(LoadFailed(UnsupportedFormat(UnsupportedMessage)))
    ensures match ReadSwaggerFile(content, fileType, parseJson, parseYaml)
      case Failure(e) => r == Failure(LoadFailed(e))
      case Success(doc) =>
        if SchemasShaped(doc) then r == Success(WriteToCsv(SchemaRecords(doc)))
        else r == Failure(MalformedDocument)
    ensures r.Success? ==> r.value.header == Columns
  {
    var loaded := ReadSwaggerFile(content, fileType, parseJson, parseYaml);
    if loaded.Failure? {
      return Failure(LoadFailed(loaded.error));
    }
    var doc := loaded.value;
    // The Python code raises part-way through instead of checking first; as the
    // partial list is discarded with the exception, the outcome is the same.
    if !SchemasShaped(doc) {
      return Failure(MalformedDocument);
    }
    var parsed := ExtractSchemas(doc);
    r := Success(WriteToCsv(parsed));
  }

  /** The empty document `{}` yields no records from either extractor and a header-only table. */
  lemma EmptyDocument()
    ensures SchemasShaped(EmptyObj) && SchemaRecords(EmptyObj) == []
    ensures Operations.OperationsShaped(EmptyObj) && Operations.OperationRecords(EmptyObj) == []
    ensures WriteToCsv(SchemaRecords(EmptyObj)) == Table(Columns, [])
  {
  }

  /**
    A schema `User` with a required integer `id` and an optional string `name`
    enumerating `alice` and `bob` gives two rows, in declaration order.
   */
  lemma UserExample()
    ensures var doc := UserDoc();
      SchemasShaped(doc) &&
      SchemaRecords(doc) == [
        SchemaProperty("User", "id", JStr("integer"), JNull, JNull, JNull, true, ""),
        SchemaProperty("User", "name", JStr("string"), JNull, JNull, JNull, false, "alice, bob")]
  {
    UserRecordsAreItsBlock();
    UserBlock();
  }

  lemma UserRecordsAreItsBlock()
    ensures SchemasShaped(UserDoc()) && SchemaShaped(UserSchema())
    ensures SchemaRecords(UserDoc()) == SchemaBlock(("User", UserSchema()))
  {
    UserDocSchemas();
    UserSchemaParts();
    var block := SchemaBlock(("User", UserSchema()));
    assert Schemas.Blocks([("User", UserSchema())]) == [] + [block];
    Runs.ConcatSnoc([], block);
  }

  lemma UserBlock()
    ensures SchemaShaped(UserSchema())
    ensures SchemaBlock(("User", UserSchema())) == [
      SchemaProperty("User", "id", JStr("integer"), JNull, JNull, JNull, true, ""),
      SchemaProperty("User", "name", JStr("string"), JNull, JNull, JNull, false, "alice, bob")]
  {
    var idProp := JObj([("type", JStr("integer"))]);
    var nameProp := JObj([("type", JStr("string")), ("enum", JArr([JStr("alice"), JStr("bob")]))]);
    var required := JArr([JStr("id")]);
    UserSchemaParts();
    IdRecord(idProp, required);
    NameRecord(nameProp, required);
    assert SchemaBlock(("User", UserSchema())) == PropertyBlock("User", [("id", idProp), ("name", nameProp)], required);
    TwoPropertyBlock("User", ("id", idProp), ("name", nameProp), required);
  }

  lemma TwoPropertyBlock(schemaName: string, a: (string, Json), b: (string, Json), required: Json)
    requires PropertyShaped(a.1) && PropertyShaped(b.1)
    ensures PropertyBlock(schemaName, [a, b], required)
         == [MakeProperty(schemaName, a, required), MakeProperty(schemaName, b, required)]
  {
    var block := PropertyBlock(schemaName, [a, b], required);
    assert |block| == 2;
    assert block[0] == MakeProperty(schemaName, a, required);
    assert block[1] == MakeProperty(schemaName, b, required);
  }

  /** The one schema of `UserDoc`. */
  function UserSchema(): Json
  {
    JObj([("properties", JObj(UserProperties())), ("required", JArr([JStr("id")]))])
  }

  lemma UserDocSchemas()
    ensures SchemasShaped(UserDoc())
    ensures SchemasObj(UserDoc()).fields == [("User", UserSchema())]
  {
    var components := JObj([("schemas", JObj([("User", UserSchema())]))]);
    assert Get(UserDoc(), "components", EmptyObj) == components;
    assert Get(components, "schemas", EmptyObj) == JObj([("User", UserSchema())]);
    UserSchemaParts();
  }

  lemma UserSchemaParts()
    ensures Get(UserSchema(), "properties", EmptyObj) == JObj(UserProperties())
    ensures Get(UserSchema(), "required", EmptyArr) == JArr([JStr("id")])
    ensures SchemaShaped(UserSchema())
  {
    var fields := UserSchema().fields;
    var props := UserProperties();
    assert Get(UserSchema(), "properties", EmptyObj) == JObj(props) by {
      assert KeyIndex(fields, "properties") == 0;
    }
    assert Get(UserSchema(), "required", EmptyArr) == JArr([JStr("id")]) by {
      assert fields[0].0 != "required";
      assert KeyIndex(fields[1..], "required") == 0;
    }
    assert PropertyShaped(props[0].1) by {
      assert Get(props[0].1, "enum", EmptyArr) == EmptyArr;
    }
    assert PropertyShaped(props[1].1) by {
      NameGets(props[1].1);
      AliceBobCell(Get(props[1].1, "enum", EmptyArr));
    }
  }

  /** The properties of `UserSchema`. */
  function UserProperties(): seq<(string, Json)>
  {
    [ ("id", JObj([("type", JStr("integer"))])),
      ("name", JObj([("type", JStr("string")), ("enum", JArr([JStr("alice"), JStr("bob")]))])) ]
  }

  /** The document of `UserExample`. */
  function UserDoc(): Json
  {
    JObj([("components", JObj([("schemas", JObj([("User", UserSchema())]))]))])
  }

  lemma IdRecord(idProp: Json, required: Json)
    requires idProp == JObj([("type", JStr("integer"))])
    requires required == JArr([JStr("id")])
    ensures PropertyShaped(idProp)
    ensures MakeProperty("User", ("id", idProp), required)
         == SchemaProperty("User", "id", JStr("integer"), JNull, JNull, JNull, true, "")
  {
    assert Get(idProp, "enum", EmptyArr) == EmptyArr;
    assert Get(idProp, "type", JNull) == JStr("integer");
    assert Get(idProp, "format", JNull) == JNull;
    assert Get(idProp, "description", JNull) == JNull;
    assert Get(idProp, "example", JNull) == JNull;
    assert JStr("id") in required.items;
  }

  lemma NameRecord(nameProp: Json, required: Json)
    requires nameProp == JObj([("type", JStr("string")), ("enum", JArr([JStr("alice"), JStr("bob")]))])
    requires required == JArr([JStr("id")])
    ensures PropertyShaped(nameProp)
    ensures MakeProperty("User", ("name", nameProp), required)
         == SchemaProperty("User", "name", JStr("string"), JNull, JNull, JNull, false, "alice, bob")
  {
    var e := JArr([JStr("alice"), JStr("bob")]);
    NameGets(nameProp);
    AliceBobCell(e);
    assert JStr("name") !in required.items;
  }

  lemma NameGets(nameProp: Json)
    requires nameProp == JObj([("type", JStr("string")), ("enum", JArr([JStr("alice"), JStr("bob")]))])
    ensures Get(nameProp, "enum", EmptyArr) == JArr([JStr("alice"), JStr("bob")])
    ensures Get(nameProp, "type", JNull) == JStr("string")
    ensures Get(nameProp, "format", JNull) == JNull
    ensures Get(nameProp, "description", JNull) == JNull
    ensures Get(nameProp, "example", JNull) == JNull
  {
    assert "enum"[0] != "type"[0];
  }

  lemma AliceBobCell(e: Json)
    requires e == JArr([JStr("alice"), JStr("bob")])
    ensures EnumShaped(e) && EnumCell(e) == "alice, bob"
  {
    assert EnumItems(e) == ["alice", "bob"];
    assert Text.Join(Text.Sep, ["alice", "bob"]) == "alice" + ", " + "bob";
  }
}
