/**
  The document loader: picks a parser by the declared format tag. The JSON
  and YAML parsers themselves are library code and enter the model as
  parameters; only the dispatch on the tag is modelled.
 */
module Loader {
  import opened Wrappers
  import opened JsonTree

  newtype byte = x: int | 0 <= x < 256

  /** What a parser yields: a tree whose mappings are Python dicts. */
  type Document = j: Json | DictTree(j) witness JNull

  /** A parser from raw content to a document, or an error message. */
  type Parser = seq<byte> -> Result<Document, string>

  datatype LoadError =
    | UnsupportedFormat(message: string)
    | ParseFailure(message: string)

  const UnsupportedMessage: string := "Unsupported file format. Only JSON and YAML are supported."

  /** The tags the loader accepts; the comparison is exact and case-sensitive. */
  predicate IsSupportedTag(fileType: string)
  {
    fileType == "json" || fileType == "yaml" || fileType == "yml"
  }

  /** A parser's own failure, carried up as a parse failure. */
  function FromParser(parsed: Result<Document, string>): Result<Document, LoadError>
  {
    match parsed
    case Success(doc) => Success(doc)
    case Failure(message) => Failure(ParseFailure(message))
  }

  /**
    `read_swagger_file`: `json` goes to the JSON parser, `yaml` and `yml` to
    the YAML parser, anything else is refused with the unsupported-format error.
   */
  function ReadSwaggerFile(content: seq<byte>, fileType: string, parseJson: Parser, parseYaml: Parser)
    : (r: Result<Document, LoadError>)
    ensures (r.Failure? && r.error.UnsupportedFormat?) <==> !IsSupportedTag(fileType)
    ensures !IsSupportedTag(fileType) ==> r == Failure(UnsupportedFormat(UnsupportedMessage))
    ensures fileType == "json" ==> r == FromParser(parseJson(content))
    ensures fileType == "yaml" || fileType == "yml" ==> r == FromParser(parseYaml(content))
  {
    if fileType == "json" then
      FromParser(parseJson(content))
    else if fileType in ["yaml", "yml"] then
      FromParser(parseYaml(content))
    else
      Failure(UnsupportedFormat(UnsupportedMessage))
  }

  /** `yaml` and `yml` are synonyms: they load every content to the same result. */
  lemma YamlYmlSynonyms(content: seq<byte>, parseJson: Parser, parseYaml: Parser)
    ensures ReadSwaggerFile(content, "yaml", parseJson, parseYaml)
         == ReadSwaggerFile(content, "yml", parseJson, parseYaml)
  {
  }

  /** The tag is not case-folded: an upper-case extension is refused. */
  lemma UpperCaseTagRefused(content: seq<byte>, parseJson: Parser, parseYaml: Parser)
    ensures ReadSwaggerFile(content, "JSON", parseJson, parseYaml) == Failure(UnsupportedFormat(UnsupportedMessage))
    ensures ReadSwaggerFile(content, "xml", parseJson, parseYaml) == Failure(UnsupportedFormat(UnsupportedMessage))
  {
  }
}
