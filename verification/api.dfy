/** The routed handlers of app/plans/api.py: the order of their guards, what
    they return, and what they leave in the store. The store is the sequence
    of rows; request parsing and JSON serialisation happen outside. */
module Api {
  import opened Json
  import opened Plans
  import opened Helpers

  // ---------------------------------------------------------------------
  // create
  // ---------------------------------------------------------------------

  /** `create` lets no exception escape: a POST body is a dict the validator
      can read; an accepted payload has a `plan_code`; and one that will be
      saved also has the `internet` and `operator` the constructor reads
      (without them the constructor's KeyError is swallowed and the response
      then reads an unbound `plan`). */
  predicate CreateDefined(env: Env, verb: string, body: Json, store: Store) {
    verb == Post ==>
      && body.JObj?
      && ValidatorDefined(body.fields)
      && (ValidatesPayload(env, body.fields) == [] ==>
            && HasKey(body.fields, "plan_code")
            && (!PlanCodeAlreadyExists(store, Lookup(body.fields, "plan_code")) ==>
                  HasKey(body.fields, "internet") && HasKey(body.fields, "operator")))
  }

  /** The record `create` builds from an accepted payload. */
  function NewPlan(payload: Entries, id: int): Plan
    requires HasKey(payload, "plan_code") && HasKey(payload, "minutes") && HasKey(payload, "internet")
    requires HasKey(payload, "price") && HasKey(payload, "plan_type") && HasKey(payload, "operator")
    requires HasKey(payload, "ddds")
  {
    Plan(id,
      Lookup(payload, "plan_code"), Lookup(payload, "minutes"), Lookup(payload, "internet"),
      Lookup(payload, "price"), Lookup(payload, "plan_type"), Lookup(payload, "operator"),
      Lookup(payload, "ddds"))
  }

  /** `create`, calling `helpers.validates_payload` as evidently intended.
      `newId` is the id the code assumes `plan.id` holds after `save()`, taken
      to be fresh: an id already stored would make Django update that row,
      where this model appends a second one. */
  function Create(env: Env, verb: string, body: Json, store: Store, newId: int): (h: Handled)
    requires CreateDefined(env, verb, body, store)
    // the verb is checked before the body is looked at
    ensures verb != Post ==>
      && h.store == store && h.response.status == 400
      && h.response.body == ErrorBody(ErrorEnvelope(400, BadRequest, None))
    // a rejected payload is reported whole, and the store is not consulted
    ensures verb == Post && ValidatesPayload(env, body.fields) != [] ==>
      && h.store == store && h.response.status == 400
      && h.response.body == ErrorBody(ErrorEnvelope(400, BadRequest, Some(ValidatesPayload(env, body.fields))))
    // a taken plan code is a 500 that leaves the store alone
    ensures verb == Post && ValidatesPayload(env, body.fields) == []
            && PlanCodeAlreadyExists(store, Lookup(body.fields, "plan_code")) ==>
      && h.store == store && h.response.status == 500
      && h.response.body == ErrorBody(ErrorEnvelope(500, InternalServerError, Some([FieldError("plan_code", AlreadyExists)])))
    // only a POST with an accepted payload and a new plan code succeeds
    ensures h.response.status == 200 <==>
      verb == Post && ValidatesPayload(env, body.fields) == []
      && !PlanCodeAlreadyExists(store, Lookup(body.fields, "plan_code"))
    // success appends one row and echoes it, every field as the payload gave it
    ensures h.response.status == 200 ==>
      && h.response.body.DataBody? && |h.response.body.data| == 1
      && h.response.body.statusCode == Some(200) && h.response.body.total == None
      && var plan := h.response.body.data[0];
      && h.store == store + [plan] && plan.id == newId
      && plan.planCode == Lookup(body.fields, "plan_code") && plan.minutes == Lookup(body.fields, "minutes")
      && plan.internet == Lookup(body.fields, "internet") && plan.price == Lookup(body.fields, "price")
      && plan.planType == Lookup(body.fields, "plan_type") && plan.operator == Lookup(body.fields, "operator")
      && plan.ddds == Lookup(body.fields, "ddds")
  {
    if verb != Post then
      Handled(ErrorResponse(400, BadRequest, None), store)
    else
      var payload := body.fields;
      var invalidFields := ValidatesPayload(env, payload);
      if invalidFields != [] then
        Handled(ErrorResponse(400, BadRequest, Some(invalidFields)), store)
      else if PlanCodeAlreadyExists(store, Lookup(payload, "plan_code")) then
        Handled(ErrorResponse(500, InternalServerError, Some([FieldError("plan_code", AlreadyExists)])), store)
      else
        var plan := NewPlan(payload, newId);
        Handled(Response(200, DataBody([plan], None, Some(200))), store + [plan])
  }

  /** `create` as written: it calls `validates_payload`, a name api.py never
      binds (it binds the module `helpers`, not the name), so every POST raises NameError. */
  function CreateAsWritten(env: Env, verb: string, body: Json, store: Store, newId: int): (o: Outcome)
    ensures o.Raised? <==> verb == Post
    ensures verb != Post ==> o == Returned(Create(env, verb, body, store, newId))
  {
    if verb != Post then Returned(Handled(ErrorResponse(400, BadRequest, None), store))
    else Raised("NameError")
  }

  /** The create payload of the repository's own tests, with every choice it
      uses admitted. */
  function SamplePayload(): Entries {
    [("plan_code", JStr("OiPro100")), ("minutes", JInt(100)), ("internet", JStr("10GB")),
     ("price", JStr("29.75")), ("plan_type", JStr("P\U{F3}s")), ("operator", JStr("Oi")),
     ("ddds", JArr([JInt(21)]))]
  }

  function SampleEnv(): Env {
    Env({JStr("P\U{F3}s")}, {JInt(21)}, s => s != "", s => s != "", s => None)
  }

  lemma SampleLookups()
    ensures DistinctKeys(SamplePayload())
    ensures HasKey(SamplePayload(), "plan_code") && Lookup(SamplePayload(), "plan_code") == JStr("OiPro100")
    ensures HasKey(SamplePayload(), "minutes") && Lookup(SamplePayload(), "minutes") == JInt(100)
    ensures HasKey(SamplePayload(), "internet") && HasKey(SamplePayload(), "operator")
    ensures HasKey(SamplePayload(), "price") && Lookup(SamplePayload(), "price") == JStr("29.75")
    ensures HasKey(SamplePayload(), "plan_type") && Lookup(SamplePayload(), "plan_type") == JStr("P\U{F3}s")
    ensures HasKey(SamplePayload(), "ddds") && Lookup(SamplePayload(), "ddds") == JArr([JInt(21)])
  {
    var p := SamplePayload();
    assert DistinctKeys(p) by {
      assert |p[0].0| == 9 && |p[1].0| == 7 && |p[2].0| == 8 && |p[3].0| == 5;
      assert |p[4].0| == 9 && |p[5].0| == 8 && |p[6].0| == 4;
      assert p[0].0[5] != p[4].0[5] && p[2].0[0] != p[5].0[0];
    }
    KeyIndexAt(p, 0);
    KeyIndexAt(p, 1);
    KeyIndexAt(p, 2);
    KeyIndexAt(p, 3);
    KeyIndexAt(p, 4);
    KeyIndexAt(p, 5);
    KeyIndexAt(p, 6);
  }

  lemma SampleTruthy()
    ensures AllTruthy(SamplePayload())
  {
    var p := SamplePayload();
    forall i | 0 <= i < |p| ensures Truthy(p[i].1) {
      assert p[i].1 in {JStr("OiPro100"), JInt(100), JStr("10GB"), JStr("29.75"), JStr("P\U{F3}s"), JStr("Oi"), JArr([JInt(21)])};
    }
  }

  lemma SampleAccepted()
    ensures ValidatorDefined(SamplePayload())
    ensures ValidatesPayload(SampleEnv(), SamplePayload()) == []
  {
    var p := SamplePayload();
    var env := SampleEnv();
    SampleLookups();
    assert ValidatorDefined(p);
    SampleTruthy();
    assert Iterate(Lookup(p, "ddds")) == [JInt(21)];
    assert FloatConvertible(env, Lookup(p, "price"));
    assert Lookup(p, "plan_type") in env.planTypesChoice;
    ValidIff(env, p);
  }

  /** On a valid POST to an empty store the intended handler saves the plan,
      while the handler as written raises. */
  lemma CreateAsWrittenFailsValidPost()
    ensures CreateDefined(SampleEnv(), Post, JObj(SamplePayload()), [])
    ensures Create(SampleEnv(), Post, JObj(SamplePayload()), [], 1).response.status == 200
    ensures CreateAsWritten(SampleEnv(), Post, JObj(SamplePayload()), [], 1) == Raised("NameError")
  {
    SampleLookups();
    SampleAccepted();
  }

  // ---------------------------------------------------------------------
  // the store create builds
  // ---------------------------------------------------------------------

  /** A row as `create` saves it: every field passed the validator. */
  predicate ValidRecord(env: Env, plan: Plan) {
    && Truthy(plan.planCode) && Truthy(plan.minutes) && Truthy(plan.internet) && Truthy(plan.price)
    && IntArgument(plan.minutes) && IntConvertible(env, plan.minutes)
    && FloatArgument(plan.price) && FloatConvertible(env, plan.price)
    && Truthy(plan.planType) && Truthy(plan.operator) && Truthy(plan.ddds)
    && plan.planType in env.planTypesChoice
    && Iterable(plan.ddds) && (forall d :: d in Iterate(plan.ddds) ==> d in env.dddsChoice)
  }

  /** Ids and plan codes are unique and every row is valid. */
  predicate ValidStore(env: Env, store: Store) {
    && (forall i, j :: 0 <= i < j < |store| ==> store[i].id != store[j].id && store[i].planCode != store[j].planCode)
    && (forall i :: 0 <= i < |store| ==> ValidRecord(env, store[i]))
  }

  /** Creating with a fresh id keeps ids and plan codes unique and every row
      valid: created plans have no empty field and only admitted choices. */
  lemma CreatePreservesValidStore(env: Env, verb: string, body: Json, store: Store, newId: int)
    requires CreateDefined(env, verb, body, store)
    requires ValidStore(env, store)
    requires forall i :: 0 <= i < |store| ==> store[i].id != newId
    ensures ValidStore(env, Create(env, verb, body, store, newId).store)
  {
    var h := Create(env, verb, body, store, newId);
    if h.response.status == 200 {
      var p := body.fields;
      ValidIff(env, p);
      var s := h.store;
      var n := |store|;
      forall k | k in {"plan_code", "minutes", "internet", "price", "plan_type", "operator", "ddds"}
        ensures Truthy(Lookup(p, k))
      {
        KeyIndexAt(p, KeyIndex(p, k));
      }
      assert ValidRecord(env, s[n]);
      forall i, j | 0 <= i < j < |s|
        ensures s[i].id != s[j].id && s[i].planCode != s[j].planCode
      {
        if j == n {
          assert s[i] == store[i];
        }
      }
    }
  }

  /** Once a plan code was saved, creating it again fails with a 500 and
      changes nothing. */
  lemma SecondCreateConflicts(env: Env, body1: Json, body2: Json, store: Store, id1: int, id2: int)
    requires CreateDefined(env, Post, body1, store)
    requires Create(env, Post, body1, store, id1).response.status == 200
    requires CreateDefined(env, Post, body2, Create(env, Post, body1, store, id1).store)
    requires ValidatesPayload(env, body2.fields) == []
    requires Lookup(body2.fields, "plan_code") == Lookup(body1.fields, "plan_code")
    ensures var after := Create(env, Post, body1, store, id1).store;
      var h := Create(env, Post, body2, after, id2);
      && h.store == after && h.response.status == 500
      && h.response.body.error.invalidFields == Some([FieldError("plan_code", AlreadyExists)])
  {
    var after := Create(env, Post, body1, store, id1).store;
    assert after[|store|].planCode == Lookup(body1.fields, "plan_code");
  }

  // ---------------------------------------------------------------------
  // update and delete
  // ---------------------------------------------------------------------

  /** The constant record `update` and `delete` answer with, whatever the
      store holds: only its `id` is taken from the request path. */
  function FixedRecord(planId: nat): Plan {
    Plan(planId, JStr("timpre200"), JInt(200), JStr("20GB"), JFloat(99.90),
      JStr("Pr\U{E9}"), JStr("Tim"), JArr([JInt(21), JInt(22)]))
  }

  /** `update`: POST or PUT get the placeholder record for `plan_id`; nothing
      is read from or written to the store. */
  function Update(verb: string, planId: nat, store: Store): (h: Handled)
    ensures h.store == store
    ensures h.response.status == 200 <==> verb in {Post, Put}
    ensures verb !in {Post, Put} ==>
      h.response.status == 400 && h.response.body == ErrorBody(ErrorEnvelope(400, BadRequest, None))
    ensures verb in {Post, Put} ==>
      && h.response.body.DataBody? && h.response.body.data == [FixedRecord(planId)]
      && h.response.body.total.None? && h.response.body.statusCode.None?
  {
    if verb !in {Post, Put} then Handled(ErrorResponse(400, BadRequest, None), store)
    else Handled(Response(200, DataBody([FixedRecord(planId)], None, None)), store)
  }

  /** `delete`: only POST gets the placeholder record for `plan_id`; nothing
      is removed from the store. */
  function Delete(verb: string, planId: nat, store: Store): (h: Handled)
    ensures h.store == store
    ensures h.response.status == 200 <==> verb == Post
    ensures verb != Post ==>
      h.response.status == 400 && h.response.body == ErrorBody(ErrorEnvelope(400, BadRequest, None))
    ensures verb == Post ==>
      && h.response.body.DataBody? && h.response.body.data == [FixedRecord(planId)]
      && h.response.body.total.None? && h.response.body.statusCode.None?
  {
    if verb != Post then Handled(ErrorResponse(400, BadRequest, None), store)
    else Handled(Response(200, DataBody([FixedRecord(planId)], None, None)), store)
  }

  /** What `update` answers depends on the method and `plan_id` alone, never
      on what the store holds. */
  lemma UpdateIgnoresStore(verb: string, planId: nat, s1: Store, s2: Store)
    ensures Update(verb, planId, s1).response == Update(verb, planId, s2).response
  {
  }

  /** What `delete` answers depends on the method and `plan_id` alone, never
      on what the store holds. */
  lemma DeleteIgnoresStore(verb: string, planId: nat, s1: Store, s2: Store)
    ensures Delete(verb, planId, s1).response == Delete(verb, planId, s2).response
  {
  }

  // ---------------------------------------------------------------------
  // list
  // ---------------------------------------------------------------------

  /** `list` lets no exception escape: a GET's query string is one
      `build_lookups` accepts. */
  predicate ListDefined(env: Env, verb: string, query: Query) {
    verb == Get ==> LookupsDefined(env, query)
  }

  /** A row `list` returns: every row when there is no filter, else the rows
      the four lookups admit. */
  predicate Listed(env: Env, query: Query, plan: Plan)
    requires LookupsDefined(env, query)
  {
    var lookups := BuildLookups(env, query);
    lookups.None? || Matches(plan, lookups.value)
  }

  lemma FilterCountAll(store: Store, lookups: Lookups)
    ensures forall p :: multiset(Filter(store, lookups))[p] == if Matches(p, lookups) then multiset(store)[p] else 0
  {
    forall p ensures multiset(Filter(store, lookups))[p] == if Matches(p, lookups) then multiset(store)[p] else 0 {
      FilterCount(store, lookups, p);
    }
  }

  /** The answer `list` shapes from the rows it found: `total` counts them and
      the status, repeated as `status_code`, is 404 exactly when there are
      none. */
  function DataResponse(data: seq<Plan>): (r: Response)
    ensures r.body == DataBody(data, Some(|data|), Some(r.status))
    ensures r.status == 200 <==> data != []
    ensures r.status == 404 <==> data == []
  {
    var status := if data != [] then 200 else 404;
    Response(status, DataBody(data, Some(|data|), Some(status)))
  }

  /** `list`: the listed rows, as many times as stored, with `total` their
      number and status 200 when there is at least one, else 404. */
  function List(env: Env, verb: string, query: Query, store: Store): (r: Response)
    requires ListDefined(env, verb, query)
    ensures verb != Get ==>
      r.status == 400 && r.body == ErrorBody(ErrorEnvelope(400, BadRequest, None))
    ensures verb == Get ==>
      && r.body.DataBody?
      && (forall p :: multiset(r.body.data)[p] == if Listed(env, query, p) then multiset(store)[p] else 0)
      && r.body.total == Some(|r.body.data|)
      && r.body.statusCode == Some(r.status)
      && (r.status == 200 <==> r.body.data != [])
      && (r.status == 404 <==> r.body.data == [])
  {
    if verb != Get then ErrorResponse(400, BadRequest, None)
    else
      var lookups := BuildLookups(env, query);
      if lookups.None? then DataResponse(store)
      else
        FilterCountAll(store, lookups.value);
        DataResponse(Filter(store, lookups.value))
  }

  /** Without a `ddds` parameter every row is listed, whatever else the query
      asks for. */
  lemma ListWithoutDddsIsUnfiltered(env: Env, query: Query, store: Store)
    requires LookupsDefined(env, query) && "ddds" !in query
    ensures List(env, Get, query, store).body.data == store
    ensures List(env, Get, query, store).status == (if store == [] then 404 else 200)
  {
  }

  /** On a store `create` built, a row is listed for a query with `ddds`
      exactly when its ddds hold every requested code and it equals each of
      plan_type, operator and plan_code the query gives. */
  lemma ListedOnValidStore(env: Env, query: Query, store: Store, i: nat)
    requires LookupsDefined(env, query) && "ddds" in query
    requires ValidStore(env, store) && i < |store|
    ensures Listed(env, query, store[i]) <==>
      && store[i].ddds.JArr?
      && (forall d :: d in env.literalEval(query["ddds"][0]).value ==> JInt(d) in store[i].ddds.items)
      && ("plan_type" in query ==> store[i].planType == JStr(query["plan_type"][0]))
      && ("operator" in query ==> store[i].operator == JStr(query["operator"][0]))
      && ("plan_code" in query ==> store[i].planCode == JStr(query["plan_code"][0]))
  {
    assert ValidRecord(env, store[i]);
    LookupsDenotation(env, query, store[i]);
  }

  /** A plan just created is listed by an unfiltered GET, which then answers
      200. */
  lemma CreatedPlanIsListed(env: Env, body: Json, store: Store, newId: int)
    requires CreateDefined(env, Post, body, store)
    requires Create(env, Post, body, store, newId).response.status == 200
    ensures var h := Create(env, Post, body, store, newId);
      var r := List(env, Get, map[], h.store);
      r.status == 200 && h.response.body.data[0] in r.body.data
  {
    var h := Create(env, Post, body, store, newId);
    var r := List(env, Get, map[], h.store);
    assert r.body.data == h.store;
    assert h.store[|store|] == h.response.body.data[0];
  }
}
