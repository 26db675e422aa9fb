/** The plan record, the response shapes the handlers return, and the
    environment the plans code takes as given: the choice lists of the `lists`
    module and Python's number and literal parsers. */
module Plans {
  import opened Json

  /** A stored plan. Apart from the id, which the code assumes `plan.id`
      holds after `save()`, every field holds the JSON value the create
      payload carried for it. */
  datatype Plan = Plan(
    id: int,
    planCode: Json,
    minutes: Json,
    internet: Json,
    price: Json,
    planType: Json,
    operator: Json,
    ddds: Json)

  /** The store's rows, in the order a query yields them. */
  type Store = seq<Plan>

  /** One `{field: reason}` entry of an `invalid_fields` list. */
  datatype FieldError = FieldError(field: string, reason: string)

  const IsEmpty := "is empty"
  const NotANumber := "is not a valid number."
  const NotAChoice := "is not a valid choice."
  const AlreadyExists := "already exists."

  const BadRequest := "Bad Request."
  const InternalServerError := "Internal Server Error."

  const Get := "GET"
  const Post := "POST"
  const Put := "PUT"

  /** `{'error': {'code': ..., 'message': ..., 'invalid_fields': ...}}`. */
  datatype ErrorEnvelope = ErrorEnvelope(code: int, message: string, invalidFields: Option<seq<FieldError>>)

  /** A JSON response body: an error envelope, or `{'data': [...]}` with the
      optional `total` and `status_code` members. */
  datatype Body =
    | ErrorBody(error: ErrorEnvelope)
    | DataBody(data: seq<Plan>, total: Option<int>, statusCode: Option<int>)

  /** An HTTP status and the JSON body sent with it. */
  datatype Response = Response(status: int, body: Body)

  /** What a handler returns, together with the store it leaves behind. */
  datatype Handled = Handled(response: Response, store: Store)

  /** A handler that either returns or lets an exception escape to Django. */
  datatype Outcome = Returned(handled: Handled) | Raised(exception: string)

  /** What the plans code takes from outside: the choice lists of the `lists`
      module, whether Python's `int()` and `float()` accept a string, and what
      `ast.literal_eval` makes of the `ddds` query parameter (None when it is
      not a list of integers). */
  datatype Env = Env(
    planTypesChoice: set<Json>,
    dddsChoice: set<Json>,
    intParses: string -> bool,
    floatParses: string -> bool,
    literalEval: string -> Option<seq<int>>)

  /** The parts of the parsers Python fixes for every run: `int('')` and
      `float('')` raise ValueError. */
  predicate WellFormedEnv(env: Env) {
    !env.intParses("") && !env.floatParses("")
  }
}
