/** app/plans/services.py: its own copies of the three helpers and of the four
    handlers. The validator is given here as the appending loops the code
    runs; every copy is proved to decide exactly as the helpers.py function
    or api.py handler it duplicates. */
module Services {
  import opened Json
  import opened Plans
  import Helpers
  import Api

  /** services.py's `error_response`: the envelope first, `invalid_fields`
      added to it afterwards when the list is non-empty. */
  function ErrorResponse(status: int, message: string, invalidFields: Option<seq<FieldError>>): (r: Response)
    ensures r == Helpers.ErrorResponse(status, message, invalidFields)
  {
    var error := ErrorEnvelope(status, message, None);
    if invalidFields.Some? && invalidFields.value != [] then
      Response(status, ErrorBody(error.(invalidFields := invalidFields)))
    else
      Response(status, ErrorBody(error))
  }

  /** The first loop of `validates_payload`: an "is empty" entry for each
      key whose value is falsy, in key order. */
  method EmptinessLoop(payload: Entries) returns (invalidFields: seq<FieldError>)
    requires DistinctKeys(payload)
    ensures invalidFields == Helpers.EmptyErrors(payload)
  {
    invalidFields := [];
    for i := 0 to |payload|
      invariant invalidFields == Helpers.EmptyErrors(payload[..i])
    {
      var key := payload[i].0;
      KeyIndexAt(payload, i);
      if !Truthy(Lookup(payload, key)) {
        invalidFields := invalidFields + [FieldError(key, IsEmpty)];
      }
      assert payload[..i + 1][..i] == payload[..i];
    }
    assert payload[..|payload|] == payload;
  }

  /** The last loop of `validates_payload`: one entry appended per ddd
      outside the choices. */
  method DddLoop(env: Env, ddds: seq<Json>, before: seq<FieldError>) returns (invalidFields: seq<FieldError>)
    ensures invalidFields == before + Helpers.DddErrors(env, ddds)
  {
    invalidFields := before;
    for j := 0 to |ddds|
      invariant invalidFields == before + Helpers.DddErrors(env, ddds[..j])
    {
      if ddds[j] !in env.dddsChoice {
        invalidFields := invalidFields + [FieldError("ddds", NotAChoice)];
      }
      assert ddds[..j + 1][..j] == ddds[..j];
    }
    assert ddds[..|ddds|] == ddds;
  }

  lemma AppendAssoc(a: seq<FieldError>, b: seq<FieldError>, c: seq<FieldError>, d: seq<FieldError>, e: seq<FieldError>)
    ensures a + b + c + d + e == a + (b + c + d + e)
  {
  }

  /** services.py's `validates_payload`, step by step: it builds the same
      list as the helpers.py validator. */
  method ValidatesPayload(env: Env, payload: Entries) returns (invalidFields: seq<FieldError>)
    requires Helpers.ValidatorDefined(payload)
    ensures invalidFields == Helpers.ValidatesPayload(env, payload)
  {
    var minutes := Lookup(payload, "minutes");
    var price := Lookup(payload, "price");
    var planType := Lookup(payload, "plan_type");
    var ddds := Lookup(payload, "ddds");
    invalidFields := EmptinessLoop(payload);
    ghost var empties := invalidFields;
    if !Helpers.IntConvertible(env, minutes) {
      invalidFields := invalidFields + [FieldError("minutes", NotANumber)];
    }
    if !Helpers.FloatConvertible(env, price) {
      invalidFields := invalidFields + [FieldError("price", NotANumber)];
    }
    if planType !in env.planTypesChoice {
      invalidFields := invalidFields + [FieldError("plan_type", NotAChoice)];
    }
    assert invalidFields == empties + Helpers.MinutesErrors(env, minutes)
      + Helpers.PriceErrors(env, price) + Helpers.PlanTypeErrors(env, planType);
    invalidFields := DddLoop(env, Iterate(ddds), invalidFields);
    AppendAssoc(empties, Helpers.MinutesErrors(env, minutes), Helpers.PriceErrors(env, price),
      Helpers.PlanTypeErrors(env, planType), Helpers.DddErrors(env, Iterate(ddds)));
  }

  /** services.py's `build_lookups`, one branch per key. */
  function BuildLookups(env: Env, query: Helpers.Query): (r: Option<Helpers.Lookups>)
    requires Helpers.LookupsDefined(env, query)
    ensures r == Helpers.BuildLookups(env, query)
  {
    if "ddds" in query then
      var ddds := env.literalEval(query["ddds"][0]).value;
      var planType := if "plan_type" in query then Helpers.Equals(query["plan_type"][0]) else Helpers.NotNull;
      var operator := if "operator" in query then Helpers.Equals(query["operator"][0]) else Helpers.NotNull;
      var planCode := if "plan_code" in query then Helpers.Equals(query["plan_code"][0]) else Helpers.NotNull;
      Some(Helpers.Lookups(ddds, planType, operator, planCode))
    else
      None
  }

  /** services.py's `create`, calling its own validator; it answers and
      stores exactly what api.py's handler does once that handler calls
      the validator it means to. */
  method Create(env: Env, verb: string, body: Json, store: Store, newId: int) returns (h: Handled)
    requires Api.CreateDefined(env, verb, body, store)
    ensures h == Api.Create(env, verb, body, store, newId)
  {
    if verb != Post {
      return Handled(ErrorResponse(400, BadRequest, None), store);
    }
    var payload := body.fields;
    var invalidFields := ValidatesPayload(env, payload);
    if invalidFields != [] {
      return Handled(ErrorResponse(400, BadRequest, Some(invalidFields)), store);
    }
    if Helpers.PlanCodeAlreadyExists(store, Lookup(payload, "plan_code")) {
      return Handled(ErrorResponse(500, InternalServerError, Some([FieldError("plan_code", AlreadyExists)])), store);
    }
    var plan := Api.NewPlan(payload, newId);
    h := Handled(Response(200, DataBody([plan], None, Some(200))), store + [plan]);
  }

  /** services.py's `update`: the same answer as api.py's. */
  function Update(verb: string, planId: nat, store: Store): (h: Handled)
    ensures h == Api.Update(verb, planId, store)
  {
    if verb !in {Post, Put} then Handled(ErrorResponse(400, BadRequest, None), store)
    else Handled(Response(200, DataBody([Api.FixedRecord(planId)], None, None)), store)
  }

  /** services.py's `delete`: the same answer as api.py's. */
  function Delete(verb: string, planId: nat, store: Store): (h: Handled)
    ensures h == Api.Delete(verb, planId, store)
  {
    if verb != Post then Handled(ErrorResponse(400, BadRequest, None), store)
    else Handled(Response(200, DataBody([Api.FixedRecord(planId)], None, None)), store)
  }

  /** services.py's `list`, filtering through its own `build_lookups`: the
      same answer as api.py's. */
  function List(env: Env, verb: string, query: Helpers.Query, store: Store): (r: Response)
    requires Api.ListDefined(env, verb, query)
    ensures r == Api.List(env, verb, query, store)
  {
    if verb != Get then ErrorResponse(400, BadRequest, None)
    else
      var lookups := BuildLookups(env, query);
      var plans := if lookups.Some? then Helpers.Filter(store, lookups.value) else store;
      var status := if plans != [] then 200 else 404;
      Response(status, DataBody(plans, Some(|plans|), Some(status)))
  }
}
