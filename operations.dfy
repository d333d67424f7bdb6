/**
  `parse_swagger`: one record per (path, HTTP method) pair under `paths`, in
  path order and then method order.
 */
module Operations {
  import opened JsonTree
  import opened Text
  import opened Runs

  /** The flat record built for one operation (the dict of `parse_swagger`). */
  datatype Operation = Operation(
    path: string,
    verb: string,
    summary: Json,
    description: Json,
    parameters: string,
    responses: string)

  // ---------------------------------------------------------------------
  // Documents the extractor accepts. Each predicate says exactly when the
  // corresponding `.get`, `.items()`, iteration or `join` raises no exception.
  // ---------------------------------------------------------------------

  /** A parameter has `.get`, and its `name`, when present, is a string `join` accepts. */
  predicate ParameterShaped(param: Json)
  {
    param.JObj? && Get(param, "name", JStr("")).JStr?
  }

  /**
    `details.get('parameters', [])` is iterated and each element asked for
    `.get`: a list of parameters, or an empty string or mapping (nothing to
    iterate). A non-empty string or mapping yields strings, which have no `.get`.
   */
  predicate ParametersShaped(params: Json)
  {
    match params
    case JArr(items) => forall i :: 0 <= i < |items| ==> ParameterShaped(items[i])
    case JStr(s) => s == ""
    case JObj(fields) => fields == []
    case _ => false
  }

  /** An operation object has `.get`, iterable parameters and a `responses` mapping. */
  predicate DetailsShaped(details: Json)
  {
    && details.JObj?
    && ParametersShaped(Get(details, "parameters", EmptyArr))
    && Get(details, "responses", EmptyObj).JObj?
  }

  /** A path item is a mapping from method to operation object. */
  predicate PathItemShaped(methods: Json)
  {
    methods.JObj? && forall k :: 0 <= k < |methods.fields| ==> DetailsShaped(methods.fields[k].1)
  }

  predicate PathsShaped(paths: seq<(string, Json)>)
  {
    forall k :: 0 <= k < |paths| ==> PathItemShaped(paths[k].1)
  }

  predicate OperationsShaped(doc: Json)
  {
    && doc.JObj?
    && var paths := Get(doc, "paths", EmptyObj);
    && paths.JObj?
    && PathsShaped(paths.fields)
  }

  // ---------------------------------------------------------------------
  // Reading the tree, with the defaults of the source.
  // ---------------------------------------------------------------------

  /** The entries of `swagger_data.get('paths', {})`. */
  function PathsOf(doc: Json): (paths: seq<(string, Json)>)
    requires OperationsShaped(doc)
    ensures PathsShaped(paths)
  {
    Get(doc, "paths", EmptyObj).fields
  }

  /** What iterating `details.get('parameters', [])` yields. */
  function ParameterList(params: Json): seq<Json>
  {
    if params.JArr? then params.items else []
  }

  /** `[param.get('name', '') for param in params]`. */
  function ParameterNames(params: Json): (names: seq<string>)
    requires ParametersShaped(params)
    ensures |names| == |ParameterList(params)|
    ensures forall i :: 0 <= i < |names| ==>
      if HasKeyIn(ParameterList(params)[i], "name")
      then ("name", JStr(names[i])) in ParameterList(params)[i].fields
      else names[i] == ""
  {
    var items := ParameterList(params);
    seq(|items|, i requires 0 <= i < |items| => Get(items[i], "name", JStr("")).s)
  }

  /** The record of method `entry` under path `path`. */
  function MakeOperation(path: string, entry: (string, Json)): Operation
    requires DetailsShaped(entry.1)
  {
    var details := entry.1;
    Operation(
      path,
      Upper(entry.0),
      Get(details, "summary", JStr("")),
      Get(details, "description", JStr("")),
      Join(Sep, ParameterNames(Get(details, "parameters", EmptyArr))),
      Join(Sep, Keys(Get(details, "responses", EmptyObj).fields)))
  }

  /**
    A record carries its path, the upper-cased method, the stored `summary`
    and `description` (`''` when absent), and empty `parameters` and
    `responses` cells when those keys are absent.
   */
  lemma OperationRecordFields(path: string, entry: (string, Json))
    requires DetailsShaped(entry.1)
    ensures var r := MakeOperation(path, entry);
      && r.path == path
      && r.verb == Upper(entry.0)
      && (!HasKeyIn(entry.1, "summary") ==> r.summary == JStr(""))
      && (HasKeyIn(entry.1, "summary") ==> ("summary", r.summary) in entry.1.fields)
      && (!HasKeyIn(entry.1, "description") ==> r.description == JStr(""))
      && (HasKeyIn(entry.1, "description") ==> ("description", r.description) in entry.1.fields)
      && (!HasKeyIn(entry.1, "parameters") ==> r.parameters == "")
      && (!HasKeyIn(entry.1, "responses") ==> r.responses == "")
  {
  }

  /** One record per method of a path item, in method order. */
  function MethodBlock(path: string, methods: seq<(string, Json)>): seq<Operation>
    requires forall k :: 0 <= k < |methods| ==> DetailsShaped(methods[k].1)
  {
    seq(|methods|, j requires 0 <= j < |methods| => MakeOperation(path, methods[j]))
  }

  /** The records one path contributes. */
  function PathBlock(entry: (string, Json)): seq<Operation>
    requires PathItemShaped(entry.1)
  {
    MethodBlock(entry.0, entry.1.fields)
  }

  /** The block of each path, in path order. */
  function Blocks(paths: seq<(string, Json)>): seq<seq<Operation>>
    requires PathsShaped(paths)
  {
    seq(|paths|, i requires 0 <= i < |paths| => PathBlock(paths[i]))
  }

  /** The records of a run of paths: their blocks laid end to end. */
  function RecordsOf(paths: seq<(string, Json)>): seq<Operation>
    requires PathsShaped(paths)
  {
    Concat(Blocks(paths))
  }

  /** What `parse_swagger` returns for `doc`. */
  function OperationRecords(doc: Json): seq<Operation>
    requires OperationsShaped(doc)
  {
    RecordsOf(PathsOf(doc))
  }

  /** The number of methods over a run of paths: the sizes of their method maps, summed. */
  function MethodCount(paths: seq<(string, Json)>): nat
    requires PathsShaped(paths)
    decreases |paths|
  {
    if |paths| == 0 then 0
    else MethodCount(paths[..|paths| - 1]) + |paths[|paths| - 1].1.fields|
  }

  // ---------------------------------------------------------------------
  // The extractor itself: nested loops appending to a list.
  // ---------------------------------------------------------------------

  method ParseSwagger(doc: Json) returns (parsed: seq<Operation>)
    requires OperationsShaped(doc)
    ensures parsed == OperationRecords(doc)
  {
    parsed := [];
    var paths := Get(doc, "paths", EmptyObj).fields;
    var i := 0;
    while i < |paths|
      invariant 0 <= i <= |paths|
      invariant parsed == RecordsOf(paths[..i])
    {
      var (path, methods) := paths[i];
      assert PathItemShaped(methods);
      ghost var before := parsed;
      var j := 0;
      while j < |methods.fields|
        invariant 0 <= j <= |methods.fields|
        invariant parsed == before + MethodBlock(path, methods.fields[..j])
      {
        var item := MakeOperation(path, methods.fields[j]);
        MethodBlockSnoc(path, methods.fields, j);
        parsed := parsed + [item];
        j := j + 1;
      }
      assert methods.fields[..j] == methods.fields;
      RecordsOfSnoc(paths, i);
      i := i + 1;
    }
    assert paths[..i] == paths;
  }

  /** Extending the methods by one appends that method's record. */
  lemma MethodBlockSnoc(path: string, methods: seq<(string, Json)>, j: nat)
    requires forall k :: 0 <= k < |methods| ==> DetailsShaped(methods[k].1)
    requires j < |methods|
    ensures MethodBlock(path, methods[..j + 1]) == MethodBlock(path, methods[..j]) + [MakeOperation(path, methods[j])]
  {
  }

  /** Extending the paths by one appends that path's block. */
  lemma RecordsOfSnoc(paths: seq<(string, Json)>, i: nat)
    requires PathsShaped(paths)
    requires i < |paths|
    ensures RecordsOf(paths[..i + 1]) == RecordsOf(paths[..i]) + PathBlock(paths[i])
  {
    assert Blocks(paths[..i + 1]) == Blocks(paths[..i]) + [PathBlock(paths[i])];
    ConcatSnoc(Blocks(paths[..i]), PathBlock(paths[i]));
  }

  /** The blocks of a prefix are a prefix of the blocks. */
  lemma BlocksPrefix(paths: seq<(string, Json)>, i: nat)
    requires PathsShaped(paths) && i <= |paths|
    ensures Blocks(paths[..i]) == Blocks(paths)[..i]
  {
  }

  /** The method count of a run of paths is the summed size of their blocks. */
  lemma {:induction false} CountIsTotal(paths: seq<(string, Json)>)
    requires PathsShaped(paths)
    ensures MethodCount(paths) == TotalLength(Blocks(paths))
    decreases |paths|
  {
    var n := |paths|;
    if n > 0 {
      CountIsTotal(paths[..n - 1]);
      BlocksPrefix(paths, n - 1);
    }
  }

  // ---------------------------------------------------------------------
  // Counting and order.
  // ---------------------------------------------------------------------

  /** There is exactly one record per (path, method) pair. */
  lemma RecordsLength(paths: seq<(string, Json)>)
    requires PathsShaped(paths)
    ensures |RecordsOf(paths)| == MethodCount(paths)
  {
    ConcatLength(Blocks(paths));
    CountIsTotal(paths);
  }

  /** Method `j` of path `i` is the record right after those of the earlier paths and methods. */
  lemma RecordsAt(paths: seq<(string, Json)>, i: nat, j: nat)
    requires PathsShaped(paths)
    requires i < |paths| && j < |paths[i].1.fields|
    ensures MethodCount(paths[..i]) + j < |RecordsOf(paths)|
    ensures RecordsOf(paths)[MethodCount(paths[..i]) + j] == MakeOperation(paths[i].0, paths[i].1.fields[j])
  {
    BlocksPrefix(paths, i);
    CountIsTotal(paths[..i]);
    ConcatAt(Blocks(paths), i, j);
  }

  /** Every record is the record of some method `j` of some path `i`. */
  lemma RecordsOrigin(paths: seq<(string, Json)>, k: nat) returns (i: nat, j: nat)
    requires PathsShaped(paths)
    requires k < |RecordsOf(paths)|
    ensures i < |paths| && j < |paths[i].1.fields|
    ensures k == MethodCount(paths[..i]) + j
  {
    i, j := ConcatOrigin(Blocks(paths), k);
    BlocksPrefix(paths, i);
    CountIsTotal(paths[..i]);
  }

  /** Records appear in path order and then method order. */
  lemma RecordsInDocumentOrder(paths: seq<(string, Json)>, i1: nat, j1: nat, i2: nat, j2: nat)
    requires PathsShaped(paths)
    requires i1 < |paths| && j1 < |paths[i1].1.fields|
    requires i2 < |paths| && j2 < |paths[i2].1.fields|
    ensures MethodCount(paths[..i1]) + j1 < MethodCount(paths[..i2]) + j2
        <==> i1 < i2 || (i1 == i2 && j1 < j2)
  {
    BlocksPrefix(paths, i1);
    BlocksPrefix(paths, i2);
    CountIsTotal(paths[..i1]);
    CountIsTotal(paths[..i2]);
    ConcatInOrder(Blocks(paths), i1, j1, i2, j2);
  }

  // ---------------------------------------------------------------------
  // The document-level promises.
  // ---------------------------------------------------------------------

  /** A document without `paths` has no operations. */
  lemma NoPathsNoRecords(doc: Json)
    requires OperationsShaped(doc)
    ensures !HasKeyIn(doc, "paths") ==> OperationRecords(doc) == []
  {
  }

  /** The number of records is the total size of the method maps. */
  lemma OperationRecordsLength(doc: Json)
    requires OperationsShaped(doc)
    ensures |OperationRecords(doc)| == MethodCount(PathsOf(doc))
  {
    RecordsLength(PathsOf(doc));
  }

  /** Every record carries its path key and the upper-cased form of its method key. */
  lemma RecordsNameTheirOperation(doc: Json)
    requires OperationsShaped(doc)
    ensures forall r :: r in OperationRecords(doc) ==>
      exists i, j ::
        && 0 <= i < |PathsOf(doc)| && 0 <= j < |PathsOf(doc)[i].1.fields|
        && r == MakeOperation(PathsOf(doc)[i].0, PathsOf(doc)[i].1.fields[j])
  {
    var paths := PathsOf(doc);
    var out := OperationRecords(doc);
    forall r | r in out
      ensures exists i, j ::
        && 0 <= i < |paths| && 0 <= j < |paths[i].1.fields|
        && r == MakeOperation(paths[i].0, paths[i].1.fields[j])
    {
      var k :| 0 <= k < |out| && out[k] == r;
      var i, j := RecordsOrigin(paths, k);
      RecordsAt(paths, i, j);
    }
  }

  /**
    The `parameters` cell lists the parameter names (`''` for a parameter
    without one) and the `responses` cell the response keys; each is `''` for
    an empty list and otherwise splits back into its list when no entry
    contains the separator.
   */
  lemma CellsRoundTrip(path: string, entry: (string, Json))
    requires DetailsShaped(entry.1)
    ensures var names := ParameterNames(Get(entry.1, "parameters", EmptyArr));
      |names| > 0 && (forall n :: n in names ==> !ContainsSep(n)) ==>
        Split(MakeOperation(path, entry).parameters) == names
    ensures var names := ParameterNames(Get(entry.1, "parameters", EmptyArr));
      |names| == 0 ==> MakeOperation(path, entry).parameters == ""
    ensures var codes := Keys(Get(entry.1, "responses", EmptyObj).fields);
      |codes| > 0 && (forall c :: c in codes ==> !ContainsSep(c)) ==>
        Split(MakeOperation(path, entry).responses) == codes
    ensures var codes := Keys(Get(entry.1, "responses", EmptyObj).fields);
      |codes| == 0 ==> MakeOperation(path, entry).responses == ""
  {
    var names := ParameterNames(Get(entry.1, "parameters", EmptyArr));
    if |names| > 0 && (forall n :: n in names ==> !ContainsSep(n)) {
      SplitJoin(names);
    }
    var codes := Keys(Get(entry.1, "responses", EmptyObj).fields);
    if |codes| > 0 && (forall c :: c in codes ==> !ContainsSep(c)) {
      SplitJoin(codes);
    }
  }
}
