/**
 * The legacy generators: a controller, a service and a router built from
 * the model name alone (the primary key reaches only the service's
 * `where` clauses).
 */
module Legacy {
  import opened Wrappers
  import opened Naming
  import opened Artifacts

  const InternalError := CannedError("internalErrorResponse")

  /** The list handler: 404 with `<NAME>S_NOT_FOUND` when nothing is found. */
  function ListHandler(modelName: string): Handler
  {
    Handler("getAll" + modelName + "s", ["getAll" + modelName + "s"], Nothing,
      [Guard(ResultEmpty, Reply(404, CodedError(LegacyListNotFoundCode(modelName))))],
      Reply(200, DataBody), Reply(500, InternalError), Reply(500, InternalError))
  }

  /** The create handler: its only check is for a missing or empty body; the body goes to the service as it is. */
  function CreateHandler(modelName: string): Handler
  {
    Handler("create" + modelName, ["create" + modelName], WholeBody,
      [Guard(BodyMissingOrEmpty, Reply(400, MessageError("Request body is required")))],
      Reply(201, DataBody),
      Reply(500, MessageError("Internal server error")), Reply(500, MessageError("Internal server error")))
  }

  /** The update handler: 400 without an id, 404 with `<NAME>_NOT_FOUND` when the service returns nothing. */
  function UpdateHandler(modelName: string): Handler
  {
    Handler("update" + modelName, ["update" + modelName], IdAndBody,
      [Guard(IdParamMissing, Reply(400, CannedError("paramNotFoundResponse"))),
       Guard(ResultMissing, Reply(404, CodedError(LegacyNotFoundCode(modelName))))],
      Reply(200, DataBody), Reply(500, InternalError), Reply(500, InternalError))
  }

  /** The delete handler: no id check; 404 when the service reports no row changed; its success reply carries a message and no data. */
  function DeleteHandler(modelName: string): Handler
  {
    Handler("delete" + modelName, ["delete" + modelName], IdOnly,
      [Guard(ResultMissing, Reply(404, CodedError(LegacyNotFoundCode(modelName))))],
      Reply(200, MessageBody), Reply(500, InternalError), Reply(500, InternalError))
  }

  /** `generateController(modelName, primaryKey, requiredFields)`. */
  function Controller(modelName: string, primaryKey: string, requiredFields: seq<string>): ControllerDef
  {
    ControllerDef(modelName + "Service", "../service/" + Lower(modelName) + ".service",
      [ListHandler(modelName), CreateHandler(modelName), UpdateHandler(modelName), DeleteHandler(modelName)])
  }

  /** `generateService(modelName, primaryKey)`: every failure is rethrown as it is. */
  function Service(modelName: string, primaryKey: string): ServiceDef
  {
    var lower := Lower(modelName);
    ServiceDef(modelName, lower, [
      ServiceFn("create" + modelName, [Insert(lower + "Data")], NotChecked, Record, Rethrow),
      ServiceFn("getAll" + modelName + "s",
        [FindAll([Filter("Deleted", "'F'"), Filter("Active", "'T'")], [], [])], NotChecked, Record, Rethrow),
      ServiceFn("update" + modelName,
        [Update(lower + "Data", [], [Filter(primaryKey, "id")]), FindByPk("id", [])], ReturnNull, Record, Rethrow),
      ServiceFn("delete" + modelName,
        [SetFields([Filter("Deleted", "'T'")], [Filter(primaryKey, "id")])], NotChecked, RowsChanged, Rethrow)
    ])
  }

  /** `generateRoutes(modelName)`: four bindings, each under its `@swagger` comment. */
  function Routes(modelName: string): RouterDef
  {
    var lower := Lower(modelName);
    RouterDef(modelName + "Controller", "../controller/" + lower + ".controller", Some(modelName), [
      Route(Get, "/", "getAll" + modelName + "s", Some(RouteDoc("/" + lower, "getAll" + modelName + "s", [200, 404, 500]))),
      Route(Post, "/", "create" + modelName, Some(RouteDoc("/" + lower, "create" + modelName, [201, 400, 500]))),
      Route(Put, "/:id", "update" + modelName, Some(RouteDoc("/" + lower + "/{id}", "update" + modelName + "ById", [200, 400, 404, 500]))),
      Route(Delete, "/:id", "delete" + modelName, Some(RouteDoc("/" + lower + "/{id}", "delete" + modelName + "ById", [200, 404, 500])))
    ])
  }

  /** The controller reads neither the primary key nor the required fields: its output depends on the model name only. */
  lemma ControllerDependsOnlyOnName(modelName: string, pk1: string, pk2: string, rf1: seq<string>, rf2: seq<string>)
    ensures Controller(modelName, pk1, rf1) == Controller(modelName, pk2, rf2)
  {
  }

  /**
   * The create handler rejects a request exactly when the body is missing
   * or empty, whatever else holds: in particular a blank field is never
   * rejected, whichever fields the caller declared required.
   */
  lemma CreateRejectsOnlyEmptyBody(modelName: string, primaryKey: string, requiredFields: seq<string>, facts: set<Condition>)
    ensures var h := Controller(modelName, primaryKey, requiredFields).handlers[1];
            h.name == "create" + modelName
            && Respond(h.guards, h.success, facts)
               == if BodyMissingOrEmpty in facts then Reply(400, MessageError("Request body is required")) else Reply(201, DataBody)
  {
  }

  /** The list handler answers 404 with `<NAME>S_NOT_FOUND` on an empty result and 200 otherwise. */
  lemma EmptyListIsNotFound(modelName: string, primaryKey: string, requiredFields: seq<string>, facts: set<Condition>)
    ensures var h := Controller(modelName, primaryKey, requiredFields).handlers[0];
            Respond(h.guards, h.success, facts)
              == if ResultEmpty in facts then Reply(404, CodedError(LegacyListNotFoundCode(modelName))) else Reply(200, DataBody)
  {
  }

  /**
   * Controller, service and router agree on names: every route calls a
   * handler the controller exports, every handler calls only functions the
   * service exports, and the controller loads the service from the file the
   * service generator is named for.
   */
  lemma NamesAgree(modelName: string, primaryKey: string, requiredFields: seq<string>)
    ensures var c := Controller(modelName, primaryKey, requiredFields);
            var s := Service(modelName, primaryKey);
            var r := Routes(modelName);
            (forall i :: 0 <= i < |r.routes| ==> r.routes[i].handler in HandlerNames(c))
            && (forall h, call :: h in c.handlers && call in h.calls ==> call in ServiceNames(s))
            && c.serviceModule == "../service/" + s.dbTable + ".service"
  {
    var c := Controller(modelName, primaryKey, requiredFields);
    var s := Service(modelName, primaryKey);
    assert HandlerNames(c) == ["getAll" + modelName + "s", "create" + modelName, "update" + modelName, "delete" + modelName];
    assert ServiceNames(s) == ["create" + modelName, "getAll" + modelName + "s", "update" + modelName, "delete" + modelName];
  }

  lemma ListStatuses(modelName: string)
    ensures Statuses(ListHandler(modelName)) == {404, 200, 500}
  {
  }

  lemma CreateStatuses(modelName: string)
    ensures Statuses(CreateHandler(modelName)) == {400, 201, 500}
  {
  }

  lemma UpdateStatuses(modelName: string)
    ensures Statuses(UpdateHandler(modelName)) == {400, 404, 200, 500}
  {
    assert (set g | g in UpdateHandler(modelName).guards :: g.reply.status) == {400, 404};
  }

  lemma DeleteStatuses(modelName: string)
    ensures Statuses(DeleteHandler(modelName)) == {404, 200, 500}
  {
  }

  /** Each route's `@swagger` comment lists every status the handler it binds can send. */
  lemma DocsListEveryStatus(modelName: string, primaryKey: string, requiredFields: seq<string>)
    ensures var c := Controller(modelName, primaryKey, requiredFields);
            var r := Routes(modelName);
            |r.routes| == |c.handlers|
            && forall i :: 0 <= i < |r.routes| ==>
                 r.routes[i].handler == c.handlers[i].name && r.routes[i].doc.Some?
                 && forall st :: st in Statuses(c.handlers[i]) ==> st in r.routes[i].doc.value.responses
  {
    ListStatuses(modelName);
    CreateStatuses(modelName);
    UpdateStatuses(modelName);
    DeleteStatuses(modelName);
  }

  /** The router binds exactly GET /, POST /, PUT /:id and DELETE /:id, in that order. */
  lemma RouteTable(modelName: string)
    ensures Bindings(Routes(modelName)) == [(Get, "/"), (Post, "/"), (Put, "/:id"), (Delete, "/:id")]
  {
  }

  /**
   * The service lists only rows with `Deleted: 'F'` and `Active: 'T'`;
   * update filters on the primary key alone and yields null when no row
   * changes; delete marks the row `Deleted: 'T'` through an update instead of
   * removing it and reports `updated > 0`; every failure is rethrown with its
   * own code.
   */
  lemma ServiceQueries(modelName: string, primaryKey: string)
    ensures var s := Service(modelName, primaryKey);
            var list := s.functions[1].queries;
            var update := s.functions[2];
            var delete := s.functions[3];
            |list| == 1 && list[0].FindAll? && list[0].where == [Filter("Deleted", "'F'"), Filter("Active", "'T'")]
            && update.queries[0].Update? && FilterColumns(update.queries[0].where) == [primaryKey]
            && update.onZeroRows == ReturnNull
            && delete.queries == [SetFields([Filter("Deleted", "'T'")], [Filter(primaryKey, "id")])]
            && delete.result == RowsChanged
            && forall i, code :: 0 <= i < |s.functions| ==> Propagate(s.functions[i].onError, code) == code
  {
    var s := Service(modelName, primaryKey);
    assert FilterColumns([Filter(primaryKey, "id")]) == [primaryKey];
  }

  /**
   * An update that changes no row reaches the client as 404 with
   * `<NAME>_NOT_FOUND`: the service returns null and the handler's second
   * guard catches it; a delete that changes no row does the same.
   */
  lemma NoRowIsNotFound(modelName: string, primaryKey: string, requiredFields: seq<string>, facts: set<Condition>)
    requires IdParamMissing !in facts && ResultMissing in facts
    ensures Service(modelName, primaryKey).functions[2].onZeroRows == ReturnNull
    ensures var c := Controller(modelName, primaryKey, requiredFields);
            Respond(c.handlers[2].guards, c.handlers[2].success, facts) == Reply(404, CodedError(LegacyNotFoundCode(modelName)))
            && Respond(c.handlers[3].guards, c.handlers[3].success, facts) == Reply(404, CodedError(LegacyNotFoundCode(modelName)))
  {
  }
}
