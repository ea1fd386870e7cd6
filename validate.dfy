/** The `validate(schema)` middleware: parse the request against a schema, then go on or answer. */
module Validate {
  import opened Wrappers
  import opened Json
  import Http
  import opened Zod

  /** `{ body: req.body, query: req.query, params: req.params }`; route parameters are always strings. */
  function RequestValue(body: Option<Value>, query: map<string, Value>, params: map<string, string>): (v: Value)
    ensures Get(v, "body") == body
    ensures Get(v, "query") == Some(Obj(query))
    ensures Get(v, "params") == Some(Obj(map k | k in params :: Str(params[k])))
  {
    var fields := map["query" := Obj(query), "params" := Obj(map k | k in params :: Str(params[k]))];
    Obj(if body.Some? then fields["body" := body.value] else fields)
  }

  /** How `schema.parse` ends: it returns, it throws a `ZodError`, or it throws something else. */
  datatype ParseOutcome = Parsed | ZodFailure(issues: seq<Issue>) | Thrown

  datatype ErrorBody = ValidationFailed(message: string, errors: seq<Issue>) | ServerError(message: string)

  /** The middleware's mapping of the parse outcome; the 500 message is spelled as the source spells it. */
  function Decide(outcome: ParseOutcome): (g: Http.Gate<ErrorBody>)
    ensures g.Proceed? <==> outcome.Parsed?
    ensures outcome.ZodFailure? ==> g == Http.Halt(400, ValidationFailed("Validation failed", outcome.issues))
    ensures outcome.Thrown? ==> g == Http.Halt(500, ServerError("Internal server errro"))
  {
    match outcome
    case Parsed => Http.Proceed
    case ZodFailure(issues) => Http.Halt(400, ValidationFailed("Validation failed", issues))
    case Thrown => Http.Halt(500, ServerError("Internal server errro"))
  }

  /** `schema.parse(...)` on the request triple: it throws a `ZodError` exactly when there are issues. */
  function Parse(schema: Schema, body: Option<Value>, query: map<string, Value>, params: map<string, string>,
                 isEmail: string -> bool): ParseOutcome
  {
    var issues := Issues(schema, Some(RequestValue(body, query, params)), [], isEmail);
    if issues == [] then Parsed else ZodFailure(issues)
  }

  /** `validate(schema)` on a request: `next()` exactly when the schema accepts the triple, 400 with the issues otherwise. */
  function ValidateRequest(schema: Schema, body: Option<Value>, query: map<string, Value>, params: map<string, string>,
                           isEmail: string -> bool): (g: Http.Gate<ErrorBody>)
    ensures g.Proceed? <==> Accepts(schema, Some(RequestValue(body, query, params)), isEmail)
    ensures g.Halt? ==>
      && g.status == 400
      && g.body == ValidationFailed("Validation failed", Issues(schema, Some(RequestValue(body, query, params)), [], isEmail))
      && g.body.errors != []
  {
    Decide(Parse(schema, body, query, params, isEmail))
  }
}
