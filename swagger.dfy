/**
 * The Swagger renderers: the paths section, the request schemas, the
 * response schemas, and the bundle of the three with a combined document.
 */
module Swagger {
  import opened Wrappers
  import opened Text
  import opened Naming
  import opened Descriptor
  import opened TypeMaps
  import opened FieldHints
  import opened Artifacts
  import Enhanced

  // ---------------------------------------------------------------------
  // Paths
  // ---------------------------------------------------------------------

  /** One `key: value` line of an example; `value` is the YAML text. */
  datatype Entry = Entry(key: string, value: string)

  /** A documented response: its status and the schema it refers to. */
  datatype Response = Response(status: nat, schemaRef: string)

  /** One operation: its id, the request schema and example, the responses and the success example's record. */
  datatype Operation = Operation(
    verb: Verb, operationId: string, requestRef: Option<string>, requestExample: seq<Entry>,
    responses: seq<Response>, record: seq<Entry>)

  datatype PathItem = PathItem(path: string, operations: seq<Operation>)

  datatype PathsDoc = PathsDoc(items: seq<PathItem>, tag: string)

  const ErrorRef := "ErrorResponse"
  const CreatedStamp := "\"2024-01-15T10:30:00.000Z\""
  const EditedStamp := "\"2024-01-15T15:45:00.000Z\""

  /** Each column with its example value, in column order. */
  function ColumnExamples(columns: seq<Column>): (r: seq<Entry>)
    ensures |r| == |columns|
    ensures forall i :: 0 <= i < |columns| ==> r[i] == Entry(columns[i].name, ExampleValue(columns[i].dataType, columns[i].name))
  {
    seq(|columns|, i requires 0 <= i < |columns| => Entry(columns[i].name, ExampleValue(columns[i].dataType, columns[i].name)))
  }

  /** The record in a success example: key 1, the columns, Active "T" and the two timestamps. */
  function RecordExample(primaryKey: string, columns: seq<Column>, updatedAt: string): (r: seq<Entry>)
    ensures |r| == |columns| + 4
  {
    [Entry(primaryKey, "1")] + ColumnExamples(columns)
      + [Entry("Active", "\"T\""), Entry("CreatedAt", CreatedStamp), Entry("UpdatedAt", updatedAt)]
  }

  /** The request example of create and update: the columns, then Active "T". */
  function RequestExample(columns: seq<Column>): seq<Entry>
  {
    ColumnExamples(columns) + [Entry("Active", "\"T\"")]
  }

  function ListOperation(cap: string, primaryKey: string, columns: seq<Column>): Operation
  {
    Operation(Get, "getAll" + cap + "s", None, [],
      [Response(200, cap + "ListResponse"), Response(404, ErrorRef), Response(500, ErrorRef)],
      RecordExample(primaryKey, columns, CreatedStamp))
  }

  function CreateOperation(cap: string, primaryKey: string, columns: seq<Column>): Operation
  {
    Operation(Post, "create" + cap, Some(cap + "Request"), RequestExample(columns),
      [Response(201, cap + "CreateResponse"), Response(400, ErrorRef), Response(500, ErrorRef)],
      RecordExample(primaryKey, columns, CreatedStamp))
  }

  function GetOperation(cap: string, primaryKey: string, columns: seq<Column>): Operation
  {
    Operation(Get, "get" + cap + "ById", None, [],
      [Response(200, cap + "SingleResponse"), Response(400, ErrorRef), Response(404, ErrorRef), Response(500, ErrorRef)],
      RecordExample(primaryKey, columns, CreatedStamp))
  }

  /** The update example is the only one whose UpdatedAt differs from CreatedAt. */
  function UpdateOperation(cap: string, primaryKey: string, columns: seq<Column>): Operation
  {
    Operation(Put, "update" + cap + "ById", Some(cap + "UpdateRequest"), RequestExample(columns),
      [Response(200, cap + "UpdateResponse"), Response(400, ErrorRef), Response(404, ErrorRef), Response(500, ErrorRef)],
      RecordExample(primaryKey, columns, EditedStamp))
  }

  /** `generateSwaggerPaths(tableName, primaryKey, columns)`: the collection path and the by-id path. */
  function Paths(tableName: string, primaryKey: string, columns: seq<Column>): PathsDoc
  {
    var cap := Capitalize(tableName);
    var lower := Lower(tableName);
    PathsDoc([
      PathItem("/" + lower, [ListOperation(cap, primaryKey, columns), CreateOperation(cap, primaryKey, columns)]),
      PathItem("/" + lower + "/{id}", [GetOperation(cap, primaryKey, columns), UpdateOperation(cap, primaryKey, columns)])
    ], cap)
  }

  /** The operations of a list of path items, in document order. */
  function Flatten(items: seq<PathItem>): seq<Operation>
  {
    if items == [] then [] else items[0].operations + Flatten(items[1..])
  }

  function Operations(p: PathsDoc): seq<Operation>
  {
    Flatten(p.items)
  }

  /** The paths document holds list and create under the collection path, then get and update under the by-id path. */
  lemma PathsOperations(tableName: string, primaryKey: string, columns: seq<Column>)
    ensures var cap := Capitalize(tableName);
            Operations(Paths(tableName, primaryKey, columns))
            == [ListOperation(cap, primaryKey, columns), CreateOperation(cap, primaryKey, columns),
                GetOperation(cap, primaryKey, columns), UpdateOperation(cap, primaryKey, columns)]
  {
    var items := Paths(tableName, primaryKey, columns).items;
    assert items[1..][1..] == [];
    assert Flatten(items[1..]) == items[1].operations + Flatten([]);
    assert Flatten(items) == items[0].operations + Flatten(items[1..]);
  }

  function DocumentedStatuses(op: Operation): set<nat>
  {
    set r | r in op.responses :: r.status
  }

  // ---------------------------------------------------------------------
  // Request schemas
  // ---------------------------------------------------------------------

  datatype Constraint = MinLength(n: nat) | MaxLength(n: nat) | Minimum(n: nat)

  /** One schema property; absent keys are None or empty. */
  datatype Property = Property(
    name: string, swaggerType: string, nullable: Option<bool>, description: string, example: string,
    constraints: seq<Constraint>, enumValues: seq<string>, defaultValue: Option<string>)

  datatype Schema = Schema(name: string, properties: seq<Property>, required: seq<string>)

  /** The create schema, the update schema, and the rendered `required:` block of the create schema. */
  datatype RequestSchemasDoc = RequestSchemasDoc(create: Schema, update: Schema, requiredText: string)

  /** STRING gets a length range of 1 to 255, INTEGER a minimum of 0, any other type nothing. */
  function Constraints(t: string): seq<Constraint>
  {
    (if t == "STRING" then [MinLength(1), MaxLength(255)] else [])
      + (if t == "INTEGER" then [Minimum(0)] else [])
  }

  function RequestProperty(c: Column): Property
  {
    Property(c.name, SwaggerType(c.dataType), Some(c.nullable), FieldDescription(c.name, c.dataType, c.nullable),
      ExampleValue(c.dataType, c.name), Constraints(c.dataType), [], None)
  }

  function RequestProperties(columns: seq<Column>): (r: seq<Property>)
    ensures |r| == |columns|
  {
    seq(|columns|, i requires 0 <= i < |columns| => RequestProperty(columns[i]))
  }

  function ActiveRequestProperty(lower: string, defaultValue: Option<string>): Property
  {
    Property("Active", "string", None, "\U{1F504} Active status of the " + lower + " (T=Active, F=Inactive)",
      "\"T\"", [], ["T", "F"], defaultValue)
  }

  const RequiredHeader := "      required:"
  const ItemIndent := "        - "

  /** The `required:` block: the header, then one `- name` line per name; nothing at all for no names. */
  function RequiredListText(names: seq<string>, nl: string): string
  {
    if |names| > 0 then RequiredHeader + nl + ItemIndent + Join(names, nl + ItemIndent) else ""
  }

  /** `generateSwaggerRequestSchemas(tableName, primaryKey, columns)`, with `nl` the line break the copy writes. */
  function RequestSchemas(tableName: string, primaryKey: string, columns: seq<Column>, nl: string): RequestSchemasDoc
  {
    var cap := Capitalize(tableName);
    var lower := Lower(tableName);
    var props := RequestProperties(columns);
    RequestSchemasDoc(
      Schema(cap + "Request", props + [ActiveRequestProperty(lower, Some("T"))], RequiredNames(columns)),
      Schema(cap + "UpdateRequest", props + [ActiveRequestProperty(lower, None)], []),
      RequiredListText(RequiredNames(columns), nl))
  }

  // ---------------------------------------------------------------------
  // Response schemas
  // ---------------------------------------------------------------------

  /** The position of the first column with the given name, or `|columns|` when there is none. */
  function FirstIndex(columns: seq<Column>, name: string): (k: nat)
    ensures k <= |columns|
    ensures k < |columns| ==> columns[k].name == name
    ensures forall j :: 0 <= j < k ==> columns[j].name != name
  {
    if columns == [] then 0
    else if columns[0].name == name then 0
    else 1 + FirstIndex(columns[1..], name)
  }

  /** `columns.find(c => c.name === name)`. */
  function FindColumn(columns: seq<Column>, name: string): Option<Column>
  {
    var k := FirstIndex(columns, name);
    if k < |columns| then Some(columns[k]) else None
  }

  /** Which branch describes a response property. */
  datatype PropertyKind = KeyProp | TimestampProp | ActorProp | ActiveProp | ColumnProp(column: Column) | UnlistedProp

  /** The branch order: primary key, then timestamps, then actor ids, then Active, then the first column of that name. */
  function Classify(prop: string, primaryKey: string, columns: seq<Column>): PropertyKind
  {
    if prop == primaryKey then KeyProp
    else if prop in ["CreatedAt", "UpdatedAt"] then TimestampProp
    else if prop in ["CreatedBy", "UpdatedBy"] then ActorProp
    else if prop == "Active" then ActiveProp
    else match FindColumn(columns, prop)
      case Some(c) => ColumnProp(c)
      case None => UnlistedProp
  }

  /** `[primaryKey, ...columns.map(col => col.name), 'Active', 'CreatedAt', 'UpdatedAt', 'CreatedBy', 'UpdatedBy']`. */
  function ResponseNames(primaryKey: string, columns: seq<Column>): (r: seq<string>)
    ensures |r| == |columns| + 6
  {
    [primaryKey] + Names(columns) + ["Active", "CreatedAt", "UpdatedAt", "CreatedBy", "UpdatedBy"]
  }

  /** `column?.type || 'string'`: a missing column or an empty type reads as 'string'. */
  function TypeOrString(t: string): string
  {
    if t == "" then "string" else t
  }

  function ResponseProperty(prop: string, tableName: string, primaryKey: string, columns: seq<Column>): (r: Property)
    ensures r.name == prop
  {
    match Classify(prop, primaryKey, columns)
    case KeyProp =>
      Property(prop, "integer", None, "\U{1F194} Unique identifier for the " + Lower(tableName), "1", [], [], None)
    case TimestampProp =>
      Property(prop, "string", None,
        if prop == "CreatedAt" then "\U{1F4C5} Timestamp when the record was created" else "\U{1F4C5} Timestamp when the record was last updated",
        CreatedStamp, [], [], None)
    case ActorProp =>
      Property(prop, "integer", None,
        if prop == "CreatedBy" then "\U{1F464} ID of user who created the record" else "\U{1F464} ID of user who last updated the record",
        "1", [], [], None)
    case ActiveProp =>
      Property(prop, "string", None, "\U{1F504} Active status (T=Active, F=Inactive)", "\"T\"", [], [], None)
    case ColumnProp(c) =>
      var t := TypeOrString(c.dataType);
      Property(prop, SwaggerType(t), None, FieldDescription(prop, t, c.nullable), ExampleValue(t, prop), [], [], None)
    case UnlistedProp =>
      Property(prop, SwaggerType("string"), None, FieldDescription(prop, "string", false), ExampleValue("string", prop), [], [], None)
  }

  function PropertyNames(props: seq<Property>): seq<string>
  {
    seq(|props|, i requires 0 <= i < |props| => props[i].name)
  }

  function ResponseProperties(tableName: string, primaryKey: string, columns: seq<Column>): (r: seq<Property>)
    ensures |r| == |columns| + 6
    ensures forall i :: 0 <= i < |r| ==> r[i].name == ResponseNames(primaryKey, columns)[i]
  {
    var names := ResponseNames(primaryKey, columns);
    seq(|names|, i requires 0 <= i < |names| => ResponseProperty(names[i], tableName, primaryKey, columns))
  }

  /** A wrapper schema: its name, its properties and those it requires. */
  datatype Envelope = Envelope(name: string, fields: seq<string>, required: seq<string>)

  datatype ResponseSchemasDoc = ResponseSchemasDoc(record: Schema, envelopes: seq<Envelope>, errorCodes: seq<string>)

  const ErrorCodes: seq<string> := ["VALIDATION_ERROR", "NOT_FOUND", "DUPLICATE_ENTRY", "DATABASE_ERROR", "UNAUTHORIZED", "FORBIDDEN"]

  /** `generateSwaggerResponseSchemas(tableName, primaryKey, columns)`. */
  function ResponseSchemas(tableName: string, primaryKey: string, columns: seq<Column>): ResponseSchemasDoc
  {
    var cap := Capitalize(tableName);
    ResponseSchemasDoc(
      Schema(cap + "Response", ResponseProperties(tableName, primaryKey, columns), []),
      [Envelope(cap + "ListResponse", ["status", "data", "count", "message"], ["status", "data", "count"]),
       Envelope(cap + "SingleResponse", ["status", "data"], ["status", "data"]),
       Envelope(cap + "CreateResponse", ["status", "message", "data"], ["status", "message", "data"]),
       Envelope(cap + "UpdateResponse", ["status", "message", "data"], ["status", "message", "data"]),
       Envelope(ErrorRef, ["status", "code", "message", "details"], ["status", "message"])],
      ErrorCodes)
  }

  // ---------------------------------------------------------------------
  // The bundle
  // ---------------------------------------------------------------------

  datatype Section = PathsSection(paths: PathsDoc) | RequestSection(request: RequestSchemasDoc) | ResponseSection(response: ResponseSchemasDoc)

  /** The combined document: a title line, then the sections in order. */
  datatype Combined = Combined(title: string, sections: seq<Section>)

  datatype SwaggerDoc = SwaggerDoc(paths: PathsDoc, requestSchemas: RequestSchemasDoc, responseSchemas: ResponseSchemasDoc, combined: Combined)

  /** `generateSwaggerSchemas(tableName, primaryKey, columns)`. */
  function SwaggerSchemas(tableName: string, primaryKey: string, columns: seq<Column>, nl: string): SwaggerDoc
  {
    var p := Paths(tableName, primaryKey, columns);
    var rq := RequestSchemas(tableName, primaryKey, columns, nl);
    var rs := ResponseSchemas(tableName, primaryKey, columns);
    SwaggerDoc(p, rq, rs, Combined(ToUpper(Capitalize(tableName)), [PathsSection(p), RequestSection(rq), ResponseSection(rs)]))
  }

  /** The names of all schemas the request and response sections define. */
  function DefinedSchemas(rq: RequestSchemasDoc, rs: ResponseSchemasDoc): seq<string>
  {
    [rq.create.name, rq.update.name, rs.record.name]
      + seq(|rs.envelopes|, i requires 0 <= i < |rs.envelopes| => rs.envelopes[i].name)
  }

  // ---------------------------------------------------------------------
  // Properties
  // ---------------------------------------------------------------------

  /**
   * The create schema requires exactly the non-nullable columns, in column
   * order; its rendered block is empty exactly when every column is
   * nullable; the update schema requires nothing.
   */
  lemma RequiredList(tableName: string, primaryKey: string, columns: seq<Column>, nl: string)
    ensures var d := RequestSchemas(tableName, primaryKey, columns, nl);
            d.create.required == RequiredNames(columns) && d.update.required == []
            && (d.requiredText == "" <==> forall i :: 0 <= i < |columns| ==> columns[i].nullable)
  {
    RequiredNamesEmptyIff(columns);
  }

  /**
   * The rendered `required:` block lists the names in order: after the
   * header, splitting at the item separator gives them back, as long as the
   * line break's first character occurs in no name.
   */
  lemma RequiredTextLists(names: seq<string>, nl: string)
    requires |names| > 0 && |nl| > 0
    requires forall k :: 0 <= k < |names| ==> nl[0] !in names[k]
    ensures var text := RequiredListText(names, nl);
            var header := RequiredHeader + nl + ItemIndent;
            |header| <= |text| && text[..|header|] == header
            && Split(text[|header|..], nl + ItemIndent) == names
  {
    var header := RequiredHeader + nl + ItemIndent;
    var text := RequiredListText(names, nl);
    assert text == header + Join(names, nl + ItemIndent);
    assert text[|header|..] == Join(names, nl + ItemIndent);
    SplitJoin(names, nl + ItemIndent);
  }

  /** STRING columns get the 1..255 length range, INTEGER columns the minimum 0, all other types no constraint. */
  lemma ConstraintsByType(t: string)
    ensures MinLength(1) in Constraints(t) <==> t == "STRING"
    ensures MaxLength(255) in Constraints(t) <==> t == "STRING"
    ensures Minimum(0) in Constraints(t) <==> t == "INTEGER"
    ensures Constraints(t) == [] <==> t != "STRING" && t != "INTEGER"
  {
  }

  /**
   * Create and update describe the columns identically and in order, each
   * with its mapped type, its nullability, the constraints of its type and
   * a description whose suffix says whether it is optional; they differ only
   * in Active's default and in the required list.
   */
  lemma RequestPropertiesFollowColumns(tableName: string, primaryKey: string, columns: seq<Column>, nl: string)
    ensures var d := RequestSchemas(tableName, primaryKey, columns, nl);
            var n := |columns|;
            |d.create.properties| == n + 1 && |d.update.properties| == n + 1
            && d.create.properties[..n] == d.update.properties[..n]
            && d.create.properties[n].defaultValue == Some("T") && d.update.properties[n].defaultValue == None
            && forall i :: 0 <= i < n ==>
                 var p := d.create.properties[i];
                 p.name == columns[i].name && p.swaggerType == SwaggerType(columns[i].dataType)
                 && p.nullable == Some(columns[i].nullable) && p.constraints == Constraints(columns[i].dataType)
                 && (EndsWith(p.description, OptionalSuffix) <==> columns[i].nullable)
                 && (EndsWith(p.description, RequiredSuffix) <==> !columns[i].nullable)
  {
    var d := RequestSchemas(tableName, primaryKey, columns, nl);
    var n := |columns|;
    forall i | 0 <= i < n ensures d.create.properties[i] == RequestProperty(columns[i]) {
    }
    var props := RequestProperties(columns);
    assert d.create.properties[..n] == props;
    assert d.update.properties[..n] == props;
  }

  /**
   * The response record lists the primary key, the columns in order, then
   * Active, CreatedAt, UpdatedAt, CreatedBy and UpdatedBy; Deleted appears
   * only when the key or a column is called so.
   */
  lemma ResponseLayout(tableName: string, primaryKey: string, columns: seq<Column>)
    ensures PropertyNames(ResponseProperties(tableName, primaryKey, columns))
            == [primaryKey] + Names(columns) + ["Active", "CreatedAt", "UpdatedAt", "CreatedBy", "UpdatedBy"]
    ensures "Deleted" in PropertyNames(ResponseProperties(tableName, primaryKey, columns))
            ==> primaryKey == "Deleted" || "Deleted" in Names(columns)
  {
    var names := PropertyNames(ResponseProperties(tableName, primaryKey, columns));
    assert names == ResponseNames(primaryKey, columns);
    if "Deleted" in names {
      var i :| 0 <= i < |names| && names[i] == "Deleted";
      if 1 <= i <= |columns| {
        assert Names(columns)[i - 1] == names[i];
      }
    }
  }

  /**
   * The branch order decides a property's description: the primary key
   * wins over everything, a timestamp name over the actor, Active and column
   * branches, and so on; a name matched by no earlier branch is described by
   * the first column that carries it.
   */
  lemma ClassifyPrecedence(prop: string, primaryKey: string, columns: seq<Column>)
    ensures prop == primaryKey ==> Classify(prop, primaryKey, columns) == KeyProp
    ensures prop != primaryKey && (prop == "CreatedAt" || prop == "UpdatedAt") ==> Classify(prop, primaryKey, columns) == TimestampProp
    ensures prop != primaryKey && (prop == "CreatedBy" || prop == "UpdatedBy") ==> Classify(prop, primaryKey, columns) == ActorProp
    ensures prop != primaryKey && prop == "Active" ==> Classify(prop, primaryKey, columns) == ActiveProp
    ensures prop !in {primaryKey, "CreatedAt", "UpdatedAt", "CreatedBy", "UpdatedBy", "Active"} ==>
              forall i :: 0 <= i < |columns| && columns[i].name == prop && (forall j :: 0 <= j < i ==> columns[j].name != prop)
                ==> Classify(prop, primaryKey, columns) == ColumnProp(columns[i])
  {
    if prop !in {primaryKey, "CreatedAt", "UpdatedAt", "CreatedBy", "UpdatedBy", "Active"} {
      forall i | 0 <= i < |columns| && columns[i].name == prop && (forall j :: 0 <= j < i ==> columns[j].name != prop)
        ensures Classify(prop, primaryKey, columns) == ColumnProp(columns[i])
      {
        assert FirstIndex(columns, prop) == i;
      }
    }
  }

  /** Every listed response property is described by some branch: the column lookup's fallback is never taken. */
  lemma NoUnlistedProperty(tableName: string, primaryKey: string, columns: seq<Column>)
    ensures var names := ResponseNames(primaryKey, columns);
            forall i :: 0 <= i < |names| ==> Classify(names[i], primaryKey, columns) != UnlistedProp
  {
    var names := ResponseNames(primaryKey, columns);
    forall i | 0 <= i < |names| ensures Classify(names[i], primaryKey, columns) != UnlistedProp {
      if 1 <= i <= |columns| {
        assert names[i] == columns[i - 1].name;
        assert FirstIndex(columns, names[i]) <= i - 1;
      }
    }
  }

  /** A response column whose name no earlier branch takes is described like its request property. */
  lemma ResponseColumnMatchesRequest(tableName: string, primaryKey: string, columns: seq<Column>, i: nat)
    requires i < |columns|
    requires columns[i].name !in {primaryKey, "CreatedAt", "UpdatedAt", "CreatedBy", "UpdatedBy", "Active"}
    requires forall j :: 0 <= j < i ==> columns[j].name != columns[i].name
    ensures var p := ResponseProperties(tableName, primaryKey, columns)[i + 1];
            var q := RequestProperty(columns[i]);
            p.name == q.name && p.swaggerType == q.swaggerType && p.description == q.description && p.example == q.example
  {
    var c := columns[i];
    ClassifyPrecedence(c.name, primaryKey, columns);
    assert ResponseNames(primaryKey, columns)[i + 1] == c.name;
    var p := ResponseProperties(tableName, primaryKey, columns)[i + 1];
    assert p == ResponseProperty(c.name, tableName, primaryKey, columns);
    var t := TypeOrString(c.dataType);
    assert p == Property(c.name, SwaggerType(t), None, FieldDescription(c.name, t, c.nullable), ExampleValue(t, c.name), [], [], None);
    var q := RequestProperty(c);
    if c.dataType == "" {
      EmptyTypeReadsAsString(c.name, c.nullable);
    } else {
      assert t == c.dataType;
    }
    assert p.swaggerType == q.swaggerType && p.description == q.description && p.example == q.example;
  }

  /** The type "" and the type "string" are documented alike: neither is named by any table. */
  lemma EmptyTypeReadsAsString(name: string, nullable: bool)
    ensures SwaggerType("") == SwaggerType("string")
    ensures FieldDescription(name, "", nullable) == FieldDescription(name, "string", nullable)
    ensures ExampleValue("", name) == ExampleValue("string", name)
  {
    assert "" !in KnownTypes && "" !in InheritedKeys;
    assert "string" !in KnownTypes && "string" !in InheritedKeys;
    TypeExampleDefault("");
    TypeExampleDefault("string");
  }

  /** Every schema the paths refer to, in a request or a response, is defined by the request or response section. */
  lemma RefsResolve(tableName: string, primaryKey: string, columns: seq<Column>, nl: string)
    ensures var ops := Operations(Paths(tableName, primaryKey, columns));
            var defined := DefinedSchemas(RequestSchemas(tableName, primaryKey, columns, nl), ResponseSchemas(tableName, primaryKey, columns));
            forall op :: op in ops ==>
              (op.requestRef.Some? ==> op.requestRef.value in defined)
              && forall r :: r in op.responses ==> r.schemaRef in defined
  {
    var cap := Capitalize(tableName);
    PathsOperations(tableName, primaryKey, columns);
    SchemaNames(tableName, primaryKey, columns, nl);
    OperationRefsDefined(cap, primaryKey, columns);
  }

  /** The schema references of the four operations, against the eight schema names. */
  lemma OperationRefsDefined(cap: string, primaryKey: string, columns: seq<Column>)
    ensures var defined := [cap + "Request", cap + "UpdateRequest", cap + "Response", cap + "ListResponse",
                            cap + "SingleResponse", cap + "CreateResponse", cap + "UpdateResponse", ErrorRef];
            forall op :: op in [ListOperation(cap, primaryKey, columns), CreateOperation(cap, primaryKey, columns),
                                GetOperation(cap, primaryKey, columns), UpdateOperation(cap, primaryKey, columns)] ==>
              (op.requestRef.Some? ==> op.requestRef.value in defined)
              && forall r :: r in op.responses ==> r.schemaRef in defined
  {
    var defined := [cap + "Request", cap + "UpdateRequest", cap + "Response", cap + "ListResponse",
                    cap + "SingleResponse", cap + "CreateResponse", cap + "UpdateResponse", ErrorRef];
    assert ErrorRef == defined[7];
    assert cap + "Request" == defined[0] && cap + "UpdateRequest" == defined[1] && cap + "ListResponse" == defined[3];
    assert cap + "SingleResponse" == defined[4] && cap + "CreateResponse" == defined[5] && cap + "UpdateResponse" == defined[6];
  }

  /** The request and response sections define these eight schemas. */
  lemma SchemaNames(tableName: string, primaryKey: string, columns: seq<Column>, nl: string)
    ensures var cap := Capitalize(tableName);
            DefinedSchemas(RequestSchemas(tableName, primaryKey, columns, nl), ResponseSchemas(tableName, primaryKey, columns))
            == [cap + "Request", cap + "UpdateRequest", cap + "Response", cap + "ListResponse",
                cap + "SingleResponse", cap + "CreateResponse", cap + "UpdateResponse", ErrorRef]
  {
  }

  /** An operation documents a handler: it carries the handler's name, possibly with a `ById` suffix, and lists every status the handler sends. */
  predicate Documents(op: Operation, h: Handler)
  {
    (op.operationId == h.name || op.operationId == h.name + "ById")
    && forall st :: st in Statuses(h) ==> st in DocumentedStatuses(op)
  }

  lemma ListDocumented(cap: string, primaryKey: string, columns: seq<Column>)
    ensures Documents(ListOperation(cap, primaryKey, columns), Enhanced.ListHandler(cap))
    ensures 404 in DocumentedStatuses(ListOperation(cap, primaryKey, columns)) && 404 !in Statuses(Enhanced.ListHandler(cap))
  {
    assert Statuses(Enhanced.ListHandler(cap)) == {200, 500};
    assert DocumentedStatuses(ListOperation(cap, primaryKey, columns)) == {200, 404, 500};
  }

  lemma GetDocumented(tableName: string, primaryKey: string, columns: seq<Column>)
    ensures Documents(GetOperation(Capitalize(tableName), primaryKey, columns), Enhanced.GetByIdHandler(tableName))
  {
    var h := Enhanced.GetByIdHandler(tableName);
    var op := GetOperation(Capitalize(tableName), primaryKey, columns);
    assert op.responses[1].status == 400 && op.responses[2].status == 404;
    forall st | st in Statuses(h) ensures st in DocumentedStatuses(op) {
      assert st in {200, 400, 404, 500};
    }
  }

  lemma CreateDocumented(cap: string, primaryKey: string, columns: seq<Column>)
    ensures Documents(CreateOperation(cap, primaryKey, columns), Enhanced.CreateHandler(cap, columns))
  {
    var h := Enhanced.CreateHandler(cap, columns);
    var op := CreateOperation(cap, primaryKey, columns);
    var checks := Enhanced.RequiredChecks(columns);
    var trims := Enhanced.TrimFailures(Enhanced.TrimmedNames(columns), true);
    assert h.guards == checks + trims;
    forall g | g in h.guards ensures g.reply.status in {400, 500} {
      if g !in checks {
        assert g in trims;
      }
    }
    assert DocumentedStatuses(op) == {201, 400, 500};
    forall st | st in Statuses(h) ensures st in DocumentedStatuses(op) {
    }
  }

  lemma UpdateDocumented(tableName: string, primaryKey: string, columns: seq<Column>)
    ensures Documents(UpdateOperation(Capitalize(tableName), primaryKey, columns), Enhanced.UpdateHandler(tableName, columns))
  {
    var cap := Capitalize(tableName);
    var h := Enhanced.UpdateHandler(tableName, columns);
    var op := UpdateOperation(cap, primaryKey, columns);
    var first := h.guards[..2];
    var trims := Enhanced.TrimFailures(Enhanced.TrimmedNames(columns), false);
    assert h.guards == first + trims;
    forall g | g in h.guards ensures g.reply.status in {400, 404, 500} {
      if g !in first {
        assert g in trims;
      }
    }
    assert DocumentedStatuses(op) == {200, 400, 404, 500};
    forall st | st in Statuses(h) ensures st in DocumentedStatuses(op) {
    }
    assert "update" + cap + "ById" == h.name + "ById";
  }

  /**
   * Paths and controller agree: every enhanced handler has an operation
   * with its name (update's carries a `ById` suffix) that documents every
   * status the handler can send. The list operation also documents a 404
   * the enhanced handler never sends.
   */
  lemma StatusesDocumented(tableName: string, primaryKey: string, columns: seq<Column>)
    ensures var c := Enhanced.Controller(tableName, primaryKey, columns);
            var ops := Operations(Paths(tableName, primaryKey, columns));
            |ops| == |c.handlers| == 4
            && Documents(ops[0], c.handlers[0]) && Documents(ops[2], c.handlers[1])
            && Documents(ops[1], c.handlers[2]) && Documents(ops[3], c.handlers[3])
            && 404 in DocumentedStatuses(ops[0]) && 404 !in Statuses(c.handlers[0])
  {
    var cap := Capitalize(tableName);
    PathsOperations(tableName, primaryKey, columns);
    ListDocumented(cap, primaryKey, columns);
    GetDocumented(tableName, primaryKey, columns);
    CreateDocumented(cap, primaryKey, columns);
    UpdateDocumented(tableName, primaryKey, columns);
  }

  /** The examples show each column with its example value, in column order, followed by Active "T". */
  lemma ExamplesFollowColumns(tableName: string, primaryKey: string, columns: seq<Column>)
    ensures var ops := Operations(Paths(tableName, primaryKey, columns));
            forall op :: op in ops ==>
              |op.record| == |columns| + 4 && op.record[1..|columns| + 1] == ColumnExamples(columns)
              && op.record[0] == Entry(primaryKey, "1")
              && (op.requestRef.Some? ==> op.requestExample == ColumnExamples(columns) + [Entry("Active", "\"T\"")])
  {
    PathsOperations(tableName, primaryKey, columns);
  }

  /**
   * The codes the enhanced controller sends for a blank field and for a
   * missing record are not among the codes the error schema enumerates.
   */
  lemma SentCodesUndocumented(tableName: string)
    ensures "INVALID_INPUT" !in ErrorCodes
    ensures NotFoundCode(tableName) !in ErrorCodes
  {
    var code := NotFoundCode(tableName);
    var n := |code|;
    assert code[n - 2..] == "ND";
    assert n >= 10;
    forall k | 0 <= k < |ErrorCodes| ensures code != ErrorCodes[k] {
      var e := ErrorCodes[k];
      if |e| >= 2 {
        assert e[|e| - 2..] != "ND" || |e| < 10;
      }
    }
  }

  /**
   * The bundle returns the three sections unchanged, and the combined
   * document is the upper-cased name followed by those sections in the
   * order paths, request, response.
   */
  lemma BundleKeepsSections(tableName: string, primaryKey: string, columns: seq<Column>, nl: string)
    ensures var d := SwaggerSchemas(tableName, primaryKey, columns, nl);
            d.paths == Paths(tableName, primaryKey, columns)
            && d.requestSchemas == RequestSchemas(tableName, primaryKey, columns, nl)
            && d.responseSchemas == ResponseSchemas(tableName, primaryKey, columns)
            && d.combined.sections == [PathsSection(d.paths), RequestSection(d.requestSchemas), ResponseSection(d.responseSchemas)]
            && d.combined.title == ToUpper(tableName)
  {
    CapitalizeSameIgnoringCase(tableName);
    ToUpperCaseBlind(Capitalize(tableName), tableName);
  }
}
