/**
 * The shapes of the generated code, shared by the legacy and the enhanced
 * renderers: request handlers with their guards and replies, service
 * functions with their queries and error handling, and route tables.
 * A renderer returns one of these values; its text is a rendering of it.
 */
module Artifacts {
  import opened Wrappers

  /** A condition a generated handler tests before answering. */
  datatype Condition =
    | BodyMissingOrEmpty        // `!req.body || Object.keys(req.body).length === 0`
    | IdParamMissing            // `!<lower>Id` for `req.params.id`
    | ResultEmpty               // `!rows || rows.length === 0`
    | ResultMissing             // `!result` after a service call
    | FieldBlank(field: string) // `!f || f.toString().trim() === ''`
    | NotAString(field: string) // the body's value for `f` is not a string: omitted, null, a number, ...
    | SentNotAString(field: string) // the body's value for `f` is present (`!== undefined`) but not a string

  /** The JSON body of a reply. */
  datatype Body =
    | DataBody                  // `{ status: 'success', data: ... }`
    | MessageBody               // `{ status: 'success', message: ... }` without data
    | EmptyListBody             // `{ status: 'success', data: [], count: 0, ... }`
    | CodedError(code: string)  // `{ status: 'error', code: ..., message: ... }`
    | CannedError(name: string) // one of the `errorResponse` constants
    | MessageError(text: string) // `{ status: 'error', message: ... }` without a code

  datatype Reply = Reply(status: nat, body: Body)

  /**
   * A check made before the last service call: either
   * `if (<when>) { return res.status(...).json(...); }`, or a statement that
   * throws when `<when>` holds (`f.trim()` on a value that is not a string),
   * whose reply is then the handler's `catch` reply for that failure.
   */
  datatype Guard = Guard(when: Condition, reply: Reply)

  /** A field copied from the request body, `.trim()`-ed when `trim` holds. */
  datatype Assign = Assign(field: string, trim: bool)

  /** What a handler passes to the service. */
  datatype Payload =
    | WholeBody                                                         // `req.body` as it is
    | IdAndBody                                                         // `(id, req.body)`
    | IdOnly                                                            // `(id)`
    | Nothing                                                           // `()`
    | CreateData(fields: seq<Assign>, activeDefault: string, stamp: string) // every field, Active defaulted, creator stamped
    | UpdateData(fields: seq<Assign>, stamp: string)                    // each field and Active only when `!== undefined`; updater always stamped

  /**
   * One exported handler: the service functions it calls, in order, what it
   * passes, its guards in the order they are tested, its success reply,
   * and its replies for a `DATABASE_ERROR`-coded failure and for any other.
   */
  datatype Handler = Handler(
    name: string, calls: seq<string>, payload: Payload, guards: seq<Guard>,
    success: Reply, onDatabaseError: Reply, onOtherError: Reply)

  datatype ControllerDef = ControllerDef(serviceVar: string, serviceModule: string, handlers: seq<Handler>)

  function HandlerNames(c: ControllerDef): (r: seq<string>)
  {
    seq(|c.handlers|, i requires 0 <= i < |c.handlers| => c.handlers[i].name)
  }

  /**
   * The reply a handler gives when exactly the conditions in `facts` hold
   * and the service call succeeds: the first guard whose condition holds,
   * else the success reply.
   */
  function Respond(guards: seq<Guard>, success: Reply, facts: set<Condition>): Reply
  {
    if guards == [] then success
    else if guards[0].when in facts then guards[0].reply
    else Respond(guards[1..], success, facts)
  }

  /**
   * With guards that all give the same reply, the handler gives that reply
   * exactly when one of their conditions holds, and succeeds otherwise.
   */
  lemma {:induction false} RespondUniformGuards(guards: seq<Guard>, reject: Reply, success: Reply, facts: set<Condition>)
    requires forall i :: 0 <= i < |guards| ==> guards[i].reply == reject
    ensures (exists i :: 0 <= i < |guards| && guards[i].when in facts) ==> Respond(guards, success, facts) == reject
    ensures (forall i :: 0 <= i < |guards| ==> guards[i].when !in facts) ==> Respond(guards, success, facts) == success
  {
    if guards != [] && guards[0].when !in facts {
      RespondUniformGuards(guards[1..], reject, success, facts);
      if exists i :: 0 <= i < |guards| && guards[i].when in facts {
        var i :| 0 <= i < |guards| && guards[i].when in facts;
        assert guards[1..][i - 1] == guards[i];
      }
      forall i | 0 <= i < |guards[1..]| ensures guards[1..][i] == guards[i + 1] {
      }
    }
  }

  /** Guards tested one list after the other: the second list is reached only when no guard of the first fires. */
  lemma {:induction false} RespondAppend(first: seq<Guard>, second: seq<Guard>, success: Reply, facts: set<Condition>)
    ensures Respond(first + second, success, facts) == Respond(first, Respond(second, success, facts), facts)
  {
    if first != [] {
      assert (first + second)[1..] == first[1..] + second;
      RespondAppend(first[1..], second, success, facts);
    } else {
      assert first + second == second;
    }
  }

  /** Every status a handler can answer with. */
  function Statuses(h: Handler): set<nat>
  {
    (set g | g in h.guards :: g.reply.status) + {h.success.status, h.onDatabaseError.status, h.onOtherError.status}
  }

  /** A `where` entry or a set entry: the column and the JavaScript expression it is compared with or set to. */
  datatype Filter = Filter(column: string, value: string)

  datatype Order = Order(column: string, direction: string)

  /** A Sequelize call in a generated service function. */
  datatype Query =
    | Insert(data: string)                                                  // `Model.create(data)`
    | FindAll(where: seq<Filter>, attributes: seq<string>, order: seq<Order>) // `Model.findAll({...})`
    | FindOne(where: seq<Filter>, attributes: seq<string>)                  // `Model.findOne({...})`
    | FindByPk(key: string, attributes: seq<string>)                        // `Model.findByPk(key, {...})`
    | Update(data: string, stamps: seq<string>, where: seq<Filter>)         // stamps set on `data` first, then `Model.update(data, { where })`
    | SetFields(values: seq<Filter>, where: seq<Filter>)                    // `Model.update({ col: value, ... }, { where })`

  /** What a service function does when its update changes no row. */
  datatype OnZeroRows = NotChecked | ReturnNull | Throw(code: string)

  /** What a service function returns on success. */
  datatype Returns = Record | RowsChanged // RowsChanged: `updated > 0`

  /** The `catch` block of a service function. */
  datatype Catch =
    | Rethrow                          // `throw error`
    | WrapAsDatabaseError              // `throw { code: 'DATABASE_ERROR', ... }`
    | RethrowOnly(code: string)        // rethrow when `error.code === code`, else wrap as DATABASE_ERROR

  const DatabaseError := "DATABASE_ERROR"

  /** The code a failure with code `thrown` leaves the catch block with. */
  function Propagate(c: Catch, thrown: string): (r: string)
    ensures c.Rethrow? ==> r == thrown
    ensures c.WrapAsDatabaseError? ==> r == DatabaseError
    ensures c.RethrowOnly? ==> (r == thrown <==> thrown == c.code || thrown == DatabaseError)
  {
    match c
    case Rethrow => thrown
    case WrapAsDatabaseError => DatabaseError
    case RethrowOnly(code) => if thrown == code then thrown else DatabaseError
  }

  datatype ServiceFn = ServiceFn(
    name: string, queries: seq<Query>, onZeroRows: OnZeroRows, result: Returns, onError: Catch)

  /** `const <modelVar> = db.<table>;` and the exported functions. */
  datatype ServiceDef = ServiceDef(modelVar: string, dbTable: string, functions: seq<ServiceFn>)

  function ServiceNames(s: ServiceDef): seq<string>
  {
    seq(|s.functions|, i requires 0 <= i < |s.functions| => s.functions[i].name)
  }

  function FilterColumns(where: seq<Filter>): seq<string>
  {
    seq(|where|, i requires 0 <= i < |where| => where[i].column)
  }

  datatype Verb = Get | Post | Put | Delete

  /** The `@swagger` comment above a legacy route: the documented path, the operation id and the statuses it lists. */
  datatype RouteDoc = RouteDoc(docPath: string, operationId: string, responses: seq<nat>)

  /** `router.<verb>('<path>', <controller>.<handler>);` */
  datatype Route = Route(verb: Verb, path: string, handler: string, doc: Option<RouteDoc>)

  datatype RouterDef = RouterDef(controllerVar: string, controllerModule: string, tagDoc: Option<string>, routes: seq<Route>)

  /** The (verb, path) pairs a router binds. */
  function Bindings(r: RouterDef): seq<(Verb, string)>
  {
    seq(|r.routes|, i requires 0 <= i < |r.routes| => (r.routes[i].verb, r.routes[i].path))
  }
}
