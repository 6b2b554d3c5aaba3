/**
 * The enhanced generators: a Sequelize model, a controller, a service and
 * a router built from a table name, a primary-key name and the ordered
 * column descriptors.
 */
module Enhanced {
  import opened Wrappers
  import opened Text
  import opened Naming
  import opened Descriptor
  import TypeMaps
  import opened Artifacts
  import Legacy

  // ---------------------------------------------------------------------
  // Model
  // ---------------------------------------------------------------------

  /** The `validate` entry of a field. */
  datatype Validator = NoValidator | Length(min: nat, max: nat) | OneOf(values: seq<string>)

  /** One `name: { type, allowNull, defaultValue, primaryKey, autoIncrement, validate }` block; absent keys are None/false. */
  datatype FieldDef = FieldDef(
    name: string, storage: string, allowNull: Option<bool>, defaultValue: Option<string>,
    primaryKey: bool, autoIncrement: bool, validator: Validator)

  /** `sequelize.define(<defineName>, { fields }, { tableName, timestamps })`. */
  datatype ModelDef = ModelDef(defineName: string, tableName: string, fields: seq<FieldDef>, timestamps: bool)

  const LengthBound := Length(1, 255)

  function KeyField(primaryKey: string): FieldDef
  {
    FieldDef(primaryKey, "INTEGER", None, None, true, true, NoValidator)
  }

  /** A column's block: its mapped storage type, `allowNull` from `nullable`, and the length validator when the storage is a string type. */
  function ColumnField(c: Column): FieldDef
    requires TypeMaps.SequelizeType(c.dataType).JsString?
  {
    FieldDef(c.name, TypeMaps.SequelizeType(c.dataType).s, Some(c.nullable), None, false, false,
      if TypeMaps.HasLengthValidator(c.dataType) then LengthBound else NoValidator)
  }

  /**
   * A column whose type names an inherited property: the lookup yields a
   * function (or `Object.prototype`), which has no `includes` method, so
   * building that column's block throws a TypeError.
   */
  predicate BreaksModel(c: Column)
  {
    TypeMaps.SequelizeType(c.dataType).ProtoMember?
  }

  /** The six bookkeeping fields every enhanced model ends with. */
  const SystemFields: seq<FieldDef> := [
    FieldDef("Active", "STRING(1)", Some(false), Some("'T'"), false, false, OneOf(["T", "F"])),
    FieldDef("Deleted", "STRING(1)", Some(false), Some("'F'"), false, false, OneOf(["T", "F"])),
    FieldDef("CreatedAt", "DATE", None, Some("NOW"), false, false, NoValidator),
    FieldDef("UpdatedAt", "DATE", None, Some("NOW"), false, false, NoValidator),
    FieldDef("CreatedBy", "INTEGER", None, None, false, false, NoValidator),
    FieldDef("UpdatedBy", "INTEGER", None, None, false, false, NoValidator)
  ]

  function FieldNames(fields: seq<FieldDef>): seq<string>
  {
    seq(|fields|, i requires 0 <= i < |fields| => fields[i].name)
  }

  /** `generateEnhancedModel(tableName, primaryKey, columns)`; None when it throws. */
  function Model(tableName: string, primaryKey: string, columns: seq<Column>): Option<ModelDef>
  {
    if exists i :: 0 <= i < |columns| && BreaksModel(columns[i]) then None
    else Some(ModelDef(Capitalize(tableName), TableName(tableName),
      [KeyField(primaryKey)] + seq(|columns|, i requires 0 <= i < |columns| => ColumnField(columns[i])) + SystemFields,
      false))
  }

  /**
   * The model lists the auto-increment integer primary key first, then one
   * field per column in input order with its mapped type and nullability,
   * then exactly Active, Deleted, CreatedAt, UpdatedAt, CreatedBy, UpdatedBy;
   * only the first field is a primary key. A column carries the
   * `len: [1, 255]` validator exactly when its type is STRING, ENUM or not a
   * known type.
   */
  lemma ModelLayout(tableName: string, primaryKey: string, columns: seq<Column>)
    ensures Model(tableName, primaryKey, columns).Some? ==>
            var m := Model(tableName, primaryKey, columns).value;
            var n := |columns|;
            |m.fields| == n + 7
            && m.fields[0].name == primaryKey && m.fields[0].primaryKey && m.fields[0].autoIncrement && m.fields[0].storage == "INTEGER"
            && (forall i :: 1 <= i < |m.fields| ==> !m.fields[i].primaryKey)
            && FieldNames(m.fields)[n + 1..] == ["Active", "Deleted", "CreatedAt", "UpdatedAt", "CreatedBy", "UpdatedBy"]
            && !m.timestamps && m.tableName == Capitalize(tableName) + "s"
            && forall i :: 0 <= i < n ==>
                 var f := m.fields[i + 1];
                 f.name == columns[i].name && TypeMaps.SequelizeType(columns[i].dataType) == TypeMaps.JsString(f.storage)
                 && f.allowNull == Some(columns[i].nullable)
                 && (f.validator == LengthBound <==>
                       columns[i].dataType == "STRING" || columns[i].dataType == "ENUM" || columns[i].dataType !in TypeMaps.KnownTypes)
  {
    if Model(tableName, primaryKey, columns).Some? {
      var m := Model(tableName, primaryKey, columns).value;
      var n := |columns|;
      forall i | 0 <= i < n
        ensures columns[i].dataType !in TypeMaps.InheritedKeys && m.fields[i + 1] == ColumnField(columns[i])
      {
        assert !BreaksModel(columns[i]);
      }
      forall i | 0 <= i < n
        ensures m.fields[i + 1].validator == LengthBound <==>
                  columns[i].dataType == "STRING" || columns[i].dataType == "ENUM" || columns[i].dataType !in TypeMaps.KnownTypes
      {
        TypeMaps.LengthValidatorIff(columns[i].dataType);
      }
      assert m.fields[n + 1..] == SystemFields;
    }
  }

  /** The generator throws exactly when some column's type is an inherited property name. */
  lemma ModelThrowsIff(tableName: string, primaryKey: string, columns: seq<Column>)
    ensures Model(tableName, primaryKey, columns).None? <==>
              exists i :: 0 <= i < |columns| && columns[i].dataType in TypeMaps.InheritedKeys
  {
    if exists i :: 0 <= i < |columns| && columns[i].dataType in TypeMaps.InheritedKeys {
      var i :| 0 <= i < |columns| && columns[i].dataType in TypeMaps.InheritedKeys;
      assert BreaksModel(columns[i]);
    }
  }

  // ---------------------------------------------------------------------
  // Controller
  // ---------------------------------------------------------------------

  const InternalError := CannedError("internalErrorResponse")
  const InvalidInput := Reply(400, CodedError("INVALID_INPUT"))

  /** The presence check for each non-nullable column, in column order. */
  function RequiredChecks(columns: seq<Column>): seq<Guard>
  {
    var names := RequiredNames(columns);
    seq(|names|, k requires 0 <= k < |names| => Guard(FieldBlank(names[k]), InvalidInput))
  }

  /** `col: col` or `col: col.trim()`: trimming exactly for the type STRING. */
  function Assignments(columns: seq<Column>): seq<Assign>
  {
    seq(|columns|, i requires 0 <= i < |columns| => Assign(columns[i].name, columns[i].dataType == "STRING"))
  }

  /** The names of the columns of type STRING, in column order: the fields create and update `.trim()`. */
  function TrimmedNames(columns: seq<Column>): seq<string>
  {
    if columns == [] then []
    else (if columns[0].dataType == "STRING" then [columns[0].name] else []) + TrimmedNames(columns[1..])
  }

  /** A name is trimmed exactly when some column of type STRING carries it. */
  lemma {:induction false} TrimmedNamesMembers(columns: seq<Column>, x: string)
    ensures x in TrimmedNames(columns) <==> exists i :: 0 <= i < |columns| && columns[i].dataType == "STRING" && columns[i].name == x
  {
    if columns != [] {
      TrimmedNamesMembers(columns[1..], x);
      if exists i :: 0 <= i < |columns| && columns[i].dataType == "STRING" && columns[i].name == x {
        var i :| 0 <= i < |columns| && columns[i].dataType == "STRING" && columns[i].name == x;
        if i > 0 {
          assert columns[1..][i - 1] == columns[i];
        }
      }
      if exists j :: 0 <= j < |columns[1..]| && columns[1..][j].dataType == "STRING" && columns[1..][j].name == x {
        var j :| 0 <= j < |columns[1..]| && columns[1..][j].dataType == "STRING" && columns[1..][j].name == x;
        assert columns[j + 1] == columns[1..][j];
      }
    }
  }

  const OtherFailure := Reply(500, InternalError)

  /**
   * The `.trim()` of each trimmed field, in column order, as a check that
   * throws into the `catch`: create trims every such field, so any value
   * that is not a string throws; update trims only fields that are present.
   */
  function TrimFailures(names: seq<string>, onCreate: bool): seq<Guard>
  {
    seq(|names|, k requires 0 <= k < |names| =>
      Guard(if onCreate then NotAString(names[k]) else SentNotAString(names[k]), OtherFailure))
  }

  function ListHandler(cap: string): Handler
  {
    Handler("getAll" + cap + "s", ["getAll" + cap + "s"], Nothing,
      [Guard(ResultEmpty, Reply(200, EmptyListBody))],
      Reply(200, DataBody), Reply(500, InternalError), Reply(500, InternalError))
  }

  function GetByIdHandler(tableName: string): Handler
  {
    var cap := Capitalize(tableName);
    Handler("get" + cap + "ById", ["get" + cap + "ById"], IdOnly,
      [Guard(IdParamMissing, Reply(400, CannedError("credentialsMissingErrorResponse"))),
       Guard(ResultMissing, Reply(404, CodedError(NotFoundCode(tableName))))],
      Reply(200, DataBody), Reply(500, InternalError), Reply(500, InternalError))
  }

  function CreateHandler(cap: string, columns: seq<Column>): Handler
  {
    Handler("create" + cap, ["create" + cap], CreateData(Assignments(columns), "T", "CreatedBy"),
      RequiredChecks(columns) + TrimFailures(TrimmedNames(columns), true),
      Reply(201, DataBody), Reply(500, InternalError), OtherFailure)
  }

  /** Update reads the record first; `ResultMissing` is that read coming back empty; the trims come after it. */
  function UpdateHandler(tableName: string, columns: seq<Column>): Handler
  {
    var cap := Capitalize(tableName);
    Handler("update" + cap, ["get" + cap + "ById", "update" + cap], UpdateData(Assignments(columns), "UpdatedBy"),
      [Guard(IdParamMissing, InvalidInput),
       Guard(ResultMissing, Reply(404, CodedError(NotFoundCode(tableName))))]
      + TrimFailures(TrimmedNames(columns), false),
      Reply(200, DataBody), Reply(500, InternalError), OtherFailure)
  }

  /** `generateEnhancedController(tableName, primaryKey, columns)`: no delete handler. */
  function Controller(tableName: string, primaryKey: string, columns: seq<Column>): ControllerDef
  {
    var cap := Capitalize(tableName);
    ControllerDef(Lower(tableName) + "Service", "../service/" + Lower(tableName) + ".service",
      [ListHandler(cap), GetByIdHandler(tableName), CreateHandler(cap, columns), UpdateHandler(tableName, columns)])
  }

  /** The reply of a handler's `catch` block for a failure with the given code. */
  function CatchReply(h: Handler, code: string): Reply
  {
    if code == DatabaseError then h.onDatabaseError else h.onOtherError
  }

  /**
   * The create handler starts with one presence check per non-nullable
   * column, in column order, and none when every column is nullable.
   */
  lemma RequiredChecksInOrder(tableName: string, primaryKey: string, columns: seq<Column>)
    ensures var guards := Controller(tableName, primaryKey, columns).handlers[2].guards;
            |RequiredIndices(columns)| <= |guards|
            && var checks := guards[..|RequiredIndices(columns)|];
            (forall k :: 0 <= k < |checks| ==>
                  RequiredIndices(columns)[k] < |columns|
                  && checks[k] == Guard(FieldBlank(columns[RequiredIndices(columns)[k]].name), InvalidInput)
                  && !columns[RequiredIndices(columns)[k]].nullable)
            && (forall k, l :: 0 <= k < l < |checks| ==> RequiredIndices(columns)[k] < RequiredIndices(columns)[l])
            && (checks == [] <==> forall i :: 0 <= i < |columns| ==> columns[i].nullable)
  {
    RequiredNamesSelect(columns);
    RequiredNamesEmptyIff(columns);
    var guards := Controller(tableName, primaryKey, columns).handlers[2].guards;
    assert guards[..|RequiredIndices(columns)|] == RequiredChecks(columns);
  }

  /**
   * The create handler answers 400 `INVALID_INPUT` exactly when a
   * non-nullable column's field is blank (a blank nullable field is let
   * through); otherwise 500 when some STRING column's value is not a
   * string, omitted included, since its `.trim()` throws; otherwise 201.
   */
  lemma CreateRejectsBlankRequired(tableName: string, primaryKey: string, columns: seq<Column>, facts: set<Condition>)
    ensures var h := Controller(tableName, primaryKey, columns).handlers[2];
            h.onOtherError == Reply(500, InternalError)
            && Respond(h.guards, h.success, facts)
               == if exists i :: 0 <= i < |columns| && !columns[i].nullable && FieldBlank(columns[i].name) in facts
                  then InvalidInput
                  else if exists i :: 0 <= i < |columns| && columns[i].dataType == "STRING" && NotAString(columns[i].name) in facts
                  then h.onOtherError
                  else Reply(201, DataBody)
  {
    var h := Controller(tableName, primaryKey, columns).handlers[2];
    var checks := RequiredChecks(columns);
    var trims := TrimFailures(TrimmedNames(columns), true);
    RespondAppend(checks, trims, h.success, facts);
    var afterChecks := Respond(trims, h.success, facts);
    BlankRequiredFires(columns, facts, afterChecks);
    TrimFires(columns, facts, true, h.success);
  }

  /** The presence checks reject exactly when a non-nullable column's field is blank. */
  lemma BlankRequiredFires(columns: seq<Column>, facts: set<Condition>, next: Reply)
    ensures Respond(RequiredChecks(columns), next, facts)
            == if exists i :: 0 <= i < |columns| && !columns[i].nullable && FieldBlank(columns[i].name) in facts
               then InvalidInput else next
  {
    var checks := RequiredChecks(columns);
    var names := RequiredNames(columns);
    RespondUniformGuards(checks, InvalidInput, next, facts);
    if exists i :: 0 <= i < |columns| && !columns[i].nullable && FieldBlank(columns[i].name) in facts {
      var i :| 0 <= i < |columns| && !columns[i].nullable && FieldBlank(columns[i].name) in facts;
      RequiredNamesMembers(columns, columns[i].name);
      var k :| 0 <= k < |names| && names[k] == columns[i].name;
      assert checks[k].when in facts;
    } else {
      forall k | 0 <= k < |checks| ensures checks[k].when !in facts {
        RequiredNamesMembers(columns, names[k]);
      }
    }
  }

  /**
   * The trims throw exactly when some STRING column's value is not a string
   * (on update: is present and not a string).
   */
  lemma TrimFires(columns: seq<Column>, facts: set<Condition>, onCreate: bool, next: Reply)
    ensures Respond(TrimFailures(TrimmedNames(columns), onCreate), next, facts)
            == if exists i :: 0 <= i < |columns| && columns[i].dataType == "STRING"
                              && (if onCreate then NotAString(columns[i].name) else SentNotAString(columns[i].name)) in facts
               then OtherFailure else next
  {
    var names := TrimmedNames(columns);
    var trims := TrimFailures(names, onCreate);
    RespondUniformGuards(trims, OtherFailure, next, facts);
    if exists i :: 0 <= i < |columns| && columns[i].dataType == "STRING"
                   && (if onCreate then NotAString(columns[i].name) else SentNotAString(columns[i].name)) in facts {
      var i :| 0 <= i < |columns| && columns[i].dataType == "STRING"
               && (if onCreate then NotAString(columns[i].name) else SentNotAString(columns[i].name)) in facts;
      TrimmedNamesMembers(columns, columns[i].name);
      var k :| 0 <= k < |names| && names[k] == columns[i].name;
      assert trims[k].when in facts;
    } else {
      forall k | 0 <= k < |trims| ensures trims[k].when !in facts {
        TrimmedNamesMembers(columns, names[k]);
      }
    }
  }

  /**
   * The update handler answers 400 `INVALID_INPUT` without an id, then 404
   * with `<NAME>_NOT_FOUND` when the record is not found, then 500 when a
   * STRING column's value is present and not a string; otherwise 200.
   */
  lemma UpdateResponds(tableName: string, primaryKey: string, columns: seq<Column>, facts: set<Condition>)
    ensures var h := Controller(tableName, primaryKey, columns).handlers[3];
            h.onOtherError == Reply(500, InternalError)
            && Respond(h.guards, h.success, facts)
               == if IdParamMissing in facts then InvalidInput
                  else if ResultMissing in facts then Reply(404, CodedError(NotFoundCode(tableName)))
                  else if exists i :: 0 <= i < |columns| && columns[i].dataType == "STRING" && SentNotAString(columns[i].name) in facts
                  then h.onOtherError
                  else Reply(200, DataBody)
  {
    var h := Controller(tableName, primaryKey, columns).handlers[3];
    var first := [Guard(IdParamMissing, InvalidInput), Guard(ResultMissing, Reply(404, CodedError(NotFoundCode(tableName))))];
    var trims := TrimFailures(TrimmedNames(columns), false);
    RespondAppend(first, trims, h.success, facts);
    TrimFires(columns, facts, false, h.success);
  }

  /**
   * As written, an optional STRING column left out of a create request
   * fails: the request has no blank required field, yet `title.trim()` on
   * the missing value throws and the handler answers 500.
   */
  lemma OmittedOptionalStringFails(tableName: string, primaryKey: string)
    ensures var columns := [Column("title", "STRING", true)];
            var h := Controller(tableName, primaryKey, columns).handlers[2];
            Respond(h.guards, h.success, {NotAString("title")}) == Reply(500, InternalError)
            && Respond(IntendedCreateHandler(Capitalize(tableName), columns).guards, h.success, {NotAString("title")}) == Reply(201, DataBody)
  {
    var columns := [Column("title", "STRING", true)];
    CreateRejectsBlankRequired(tableName, primaryKey, columns, {NotAString("title")});
    IntendedCreateAccepts(Capitalize(tableName), columns, {NotAString("title")});
  }

  /**
   * The create handler as its presence checks mean it: a STRING value is
   * trimmed only when it is a string, so nothing but the presence checks
   * can reject the request.
   */
  function IntendedCreateHandler(cap: string, columns: seq<Column>): Handler
  {
    Handler("create" + cap, ["create" + cap], CreateData(Assignments(columns), "T", "CreatedBy"),
      RequiredChecks(columns),
      Reply(201, DataBody), Reply(500, InternalError), OtherFailure)
  }

  /** The intended create answers 400 exactly when a non-nullable column's field is blank, and 201 otherwise. */
  lemma IntendedCreateAccepts(cap: string, columns: seq<Column>, facts: set<Condition>)
    ensures var h := IntendedCreateHandler(cap, columns);
            Respond(h.guards, h.success, facts)
              == if exists i :: 0 <= i < |columns| && !columns[i].nullable && FieldBlank(columns[i].name) in facts
                 then InvalidInput else Reply(201, DataBody)
  {
    BlankRequiredFires(columns, facts, Reply(201, DataBody));
  }

  /**
   * Create and update copy every column in order, trimming exactly the
   * columns of type STRING; create defaults Active to 'T' and stamps
   * CreatedBy, update copies each field only when present and always stamps
   * UpdatedBy.
   */
  lemma TrimOnlyStrings(tableName: string, primaryKey: string, columns: seq<Column>)
    ensures var c := Controller(tableName, primaryKey, columns);
            exists a: seq<Assign> ::
              c.handlers[2].payload == CreateData(a, "T", "CreatedBy")
              && c.handlers[3].payload == UpdateData(a, "UpdatedBy")
              && |a| == |columns|
              && forall i :: 0 <= i < |a| ==> a[i].field == columns[i].name && (a[i].trim <==> columns[i].dataType == "STRING")
  {
    var a := Assignments(columns);
    assert Controller(tableName, primaryKey, columns).handlers[2].payload == CreateData(a, "T", "CreatedBy");
  }

  /** An empty list is a success with no data, where the legacy controller answers 404. */
  lemma EmptyListContrast(tableName: string, primaryKey: string, columns: seq<Column>, requiredFields: seq<string>, facts: set<Condition>)
    requires ResultEmpty in facts
    ensures var h := Controller(tableName, primaryKey, columns).handlers[0];
            Respond(h.guards, h.success, facts) == Reply(200, EmptyListBody)
    ensures var h := Legacy.Controller(tableName, primaryKey, requiredFields).handlers[0];
            Respond(h.guards, h.success, facts).status == 404
  {
  }

  /**
   * Every handler answers the same 500 for a `DATABASE_ERROR` and for any
   * other failure, so an update that the service rejects with the
   * not-found code reaches the client as 500, not 404.
   */
  lemma FailuresAre500(tableName: string, primaryKey: string, columns: seq<Column>, code: string)
    ensures var c := Controller(tableName, primaryKey, columns);
            forall i :: 0 <= i < |c.handlers| ==> CatchReply(c.handlers[i], code) == Reply(500, InternalError)
    ensures CatchReply(Controller(tableName, primaryKey, columns).handlers[3],
                       Propagate(Service(tableName, primaryKey, columns, NewlineSeparator).functions[3].onError, NotFoundCode(tableName))).status == 500
  {
  }

  // ---------------------------------------------------------------------
  // Service
  // ---------------------------------------------------------------------

  /** The text placed between attribute names; never empty. */
  type Separator = s: string | |s| > 0 witness ","

  /** The separator of the index.js copy: a comma, a newline and the indentation. */
  const NewlineSeparator: Separator := ",\n                "

  /** The separator of utils/crud-generators.js: a comma, a backslash, 'n' and the indentation. */
  const EscapedSeparator: Separator := ",\\n                "

  const SystemAttributes: seq<string> := ["Active", "CreatedAt", "UpdatedAt", "CreatedBy", "UpdatedBy", "Deleted"]

  /** `[primaryKey, ...columns.map(col => col.name), 'Active', ..., 'Deleted']`. */
  function AllAttributes(primaryKey: string, columns: seq<Column>): (r: seq<string>)
    ensures |r| == |columns| + 7
  {
    [primaryKey] + Names(columns) + SystemAttributes
  }

  function Quote(a: string): string
  {
    "'" + a + "'"
  }

  /** `attrs.map(attr => "'" + attr + "'")`. */
  function Quoted(attrs: seq<string>): (r: seq<string>)
    ensures |r| == |attrs|
  {
    seq(|attrs|, i requires 0 <= i < |attrs| => Quote(attrs[i]))
  }

  /** The rendered attribute list: the quoted names joined by the separator. */
  function AttributesText(primaryKey: string, columns: seq<Column>, sep: Separator): string
  {
    Join(Quoted(AllAttributes(primaryKey, columns)), sep)
  }

  /** The get-by-id attributes: the rendered list split at the separator, minus its last two entries. */
  function ByIdAttributes(primaryKey: string, columns: seq<Column>, sep: Separator): seq<string>
  {
    DropLast(Split(AttributesText(primaryKey, columns, sep), sep), 2)
  }

  /** `generateEnhancedService(tableName, primaryKey, columns)`. */
  function Service(tableName: string, primaryKey: string, columns: seq<Column>, sep: Separator): ServiceDef
  {
    var cap := Capitalize(tableName);
    var lower := Lower(tableName);
    var all := Quoted(AllAttributes(primaryKey, columns));
    ServiceDef(cap, lower, [
      ServiceFn("getAll" + cap + "s",
        [FindAll([Filter("Deleted", "'F'"), Filter("Active", "'T'")], all, [Order(primaryKey, "DESC")])],
        NotChecked, Record, WrapAsDatabaseError),
      ServiceFn("get" + cap + "ById",
        [FindOne([Filter(primaryKey, "id"), Filter("Deleted", "'F'")], ByIdAttributes(primaryKey, columns, sep))],
        NotChecked, Record, WrapAsDatabaseError),
      ServiceFn("create" + cap,
        [Insert(lower + "Data"), FindByPk("new" + cap + "." + primaryKey, all)],
        NotChecked, Record, WrapAsDatabaseError),
      ServiceFn("update" + cap,
        [Update("updateData", ["UpdatedAt"], [Filter(primaryKey, lower + "Id"), Filter("Deleted", "'F'")]),
         FindByPk(lower + "Id", all)],
        Throw(NotFoundCode(tableName)), Record, RethrowOnly(NotFoundCode(tableName)))
    ])
  }

  /** Quoting adds only apostrophes, so a character other than the apostrophe is in the quoted name exactly when it is in the name. */
  lemma QuoteChars(a: string, ch: char)
    requires ch != '\''
    ensures ch in Quote(a) <==> ch in a
  {
    var q := Quote(a);
    assert forall j :: 0 <= j < |a| ==> q[j + 1] == a[j];
    if ch in q {
      var j :| 0 <= j < |q| && q[j] == ch;
      assert a[j - 1] == ch;
    }
  }

  lemma QuotedPrefix(attrs: seq<string>, n: nat)
    requires n <= |attrs|
    ensures Quoted(attrs)[..n] == Quoted(attrs[..n])
  {
  }

  /**
   * Splitting the rendered list gives the quoted names back, provided the
   * separator starts with a character that is not an apostrophe and occurs in
   * no attribute name.
   */
  lemma AttributesRoundTrip(primaryKey: string, columns: seq<Column>, sep: Separator)
    requires sep[0] != '\''
    requires forall k :: 0 <= k < |AllAttributes(primaryKey, columns)| ==> sep[0] !in AllAttributes(primaryKey, columns)[k]
    ensures Split(AttributesText(primaryKey, columns, sep), sep) == Quoted(AllAttributes(primaryKey, columns))
  {
    var all := AllAttributes(primaryKey, columns);
    var q := Quoted(all);
    forall k | 0 <= k < |q| ensures sep[0] !in q[k] {
      QuoteChars(all[k], sep[0]);
    }
    SplitJoin(q, sep);
  }

  /**
   * Get-by-id selects the primary key, the columns in order, Active,
   * CreatedAt, UpdatedAt and CreatedBy: the split-and-slice drops exactly
   * UpdatedBy and Deleted from the full list.
   */
  lemma ByIdProjection(primaryKey: string, columns: seq<Column>, sep: Separator)
    requires sep[0] != '\''
    requires forall k :: 0 <= k < |AllAttributes(primaryKey, columns)| ==> sep[0] !in AllAttributes(primaryKey, columns)[k]
    ensures ByIdAttributes(primaryKey, columns, sep)
            == Quoted([primaryKey] + Names(columns) + ["Active", "CreatedAt", "UpdatedAt", "CreatedBy"])
    ensures Quoted(AllAttributes(primaryKey, columns))[|columns| + 5..] == [Quote("UpdatedBy"), Quote("Deleted")]
  {
    var all := AllAttributes(primaryKey, columns);
    AttributesRoundTrip(primaryKey, columns, sep);
    QuotedPrefix(all, |all| - 2);
    assert all[..|all| - 2] == [primaryKey] + Names(columns) + ["Active", "CreatedAt", "UpdatedAt", "CreatedBy"];
  }

  /** A comma is in none of the bookkeeping attribute names. */
  lemma NoCommaInSystemAttributes()
    ensures forall k :: 0 <= k < |SystemAttributes| ==> ',' !in SystemAttributes[k]
  {
    forall k | 0 <= k < |SystemAttributes| ensures ',' !in SystemAttributes[k] {
      var a := SystemAttributes[k];
      assert forall j :: 0 <= j < |a| ==> a[j] != ',';
    }
  }

  /**
   * For both copies' separators, as long as no name contains a comma,
   * get-by-id projects everything but UpdatedBy and Deleted.
   */
  lemma ByIdProjectionForSourceSeparators(primaryKey: string, columns: seq<Column>, sep: Separator)
    requires sep == NewlineSeparator || sep == EscapedSeparator
    requires ',' !in primaryKey && forall i :: 0 <= i < |columns| ==> ',' !in columns[i].name
    ensures ByIdAttributes(primaryKey, columns, sep)
            == Quoted([primaryKey] + Names(columns) + ["Active", "CreatedAt", "UpdatedAt", "CreatedBy"])
  {
    var all := AllAttributes(primaryKey, columns);
    NoCommaInSystemAttributes();
    assert sep[0] == ',';
    forall k | 0 <= k < |all| ensures ',' !in all[k] {
      if k == 0 {
      } else if k <= |columns| {
        assert all[k] == columns[k - 1].name;
      } else {
        assert all[k] == SystemAttributes[k - 1 - |columns|];
      }
    }
    ByIdProjection(primaryKey, columns, sep);
  }

  /**
   * The list reads rows with `Deleted: 'F'` and `Active: 'T'`, newest key
   * first, with every attribute; get-by-id filters on the key and
   * `Deleted: 'F'` only, so it also returns inactive rows.
   */
  lemma ServiceFilters(tableName: string, primaryKey: string, columns: seq<Column>, sep: Separator)
    ensures var s := Service(tableName, primaryKey, columns, sep);
            var list := s.functions[0].queries[0];
            var byId := s.functions[1].queries[0];
            list == FindAll([Filter("Deleted", "'F'"), Filter("Active", "'T'")],
                            Quoted(AllAttributes(primaryKey, columns)), [Order(primaryKey, "DESC")])
            && byId.FindOne? && FilterColumns(byId.where) == [primaryKey, "Deleted"]
            && byId.where[1].value == "'F'"
            && ("Active" in FilterColumns(byId.where) <==> primaryKey == "Active")
  {
    var byId := Service(tableName, primaryKey, columns, sep).functions[1].queries[0];
    assert FilterColumns(byId.where) == [primaryKey, "Deleted"];
  }

  /**
   * Update stamps UpdatedAt, changes only the live row with the given key,
   * throws `<NAME>_NOT_FOUND` when no row changes, lets that code through
   * its catch block and turns every other failure into `DATABASE_ERROR`.
   */
  lemma UpdateService(tableName: string, primaryKey: string, columns: seq<Column>, sep: Separator, thrown: string)
    ensures var u := Service(tableName, primaryKey, columns, sep).functions[3];
            u.queries[0].Update? && u.queries[0].stamps == ["UpdatedAt"]
            && u.queries[0].where == [Filter(primaryKey, Lower(tableName) + "Id"), Filter("Deleted", "'F'")]
            && u.onZeroRows == Throw(NotFoundCode(tableName))
            && (thrown == NotFoundCode(tableName) ==> Propagate(u.onError, thrown) == thrown)
            && (thrown != NotFoundCode(tableName) ==> Propagate(u.onError, thrown) == DatabaseError)
  {
  }

  // ---------------------------------------------------------------------
  // Routes
  // ---------------------------------------------------------------------

  /** `generateEnhancedRoutes(tableName)`. */
  function Routes(tableName: string): RouterDef
  {
    var cap := Capitalize(tableName);
    var lower := Lower(tableName);
    RouterDef(lower + "Controller", "../controllers/" + lower + ".controller", None, [
      Route(Get, "/", "getAll" + cap + "s", None),
      Route(Get, "/:id", "get" + cap + "ById", None),
      Route(Post, "/", "create" + cap, None),
      Route(Put, "/:id", "update" + cap, None)
    ])
  }

  /** The router binds exactly GET /, GET /:id, POST / and PUT /:id; nothing is bound to DELETE. */
  lemma RouteTable(tableName: string)
    ensures Bindings(Routes(tableName)) == [(Get, "/"), (Get, "/:id"), (Post, "/"), (Put, "/:id")]
    ensures forall i :: 0 <= i < |Routes(tableName).routes| ==> Routes(tableName).routes[i].verb != Delete
  {
  }

  /**
   * Router, controller and service agree on names: each route binds the
   * handler the controller exports at the same position, and every handler
   * calls only functions the service exports.
   */
  lemma NamesAgree(tableName: string, primaryKey: string, columns: seq<Column>, sep: Separator)
    ensures var c := Controller(tableName, primaryKey, columns);
            var s := Service(tableName, primaryKey, columns, sep);
            var r := Routes(tableName);
            |r.routes| == |c.handlers|
            && (forall i :: 0 <= i < |r.routes| ==> r.routes[i].handler == c.handlers[i].name)
            && (forall h, call :: h in c.handlers && call in h.calls ==> call in ServiceNames(s))
            && HandlerNames(c) == ServiceNames(s)
  {
    var c := Controller(tableName, primaryKey, columns);
    var s := Service(tableName, primaryKey, columns, sep);
    var cap := Capitalize(tableName);
    assert ServiceNames(s) == ["getAll" + cap + "s", "get" + cap + "ById", "create" + cap, "update" + cap];
    assert HandlerNames(c) == ServiceNames(s);
  }
}
