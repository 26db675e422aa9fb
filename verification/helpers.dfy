/** The pure functions of app/plans/helpers.py: the error envelope, the
    payload validator, the plan-code existence check and the list filter. */
module Helpers {
  import opened Json
  import opened Plans

  // ---------------------------------------------------------------------
  // error_response
  // ---------------------------------------------------------------------

  /** The error envelope sent with HTTP status `status`; `invalid_fields` is
      attached only when a non-empty list is given. */
  function ErrorResponse(status: int, message: string, invalidFields: Option<seq<FieldError>>): (r: Response)
    ensures r.status == status && r.body.ErrorBody?
    ensures r.body.error.code == status && r.body.error.message == message
    ensures r.body.error.invalidFields.Some? <==> invalidFields.Some? && invalidFields.value != []
    ensures r.body.error.invalidFields.Some? ==> r.body.error.invalidFields == invalidFields
  {
    var fields := if invalidFields.Some? && invalidFields.value != [] then invalidFields else None;
    Response(status, ErrorBody(ErrorEnvelope(status, message, fields)))
  }

  // ---------------------------------------------------------------------
  // validates_payload
  // ---------------------------------------------------------------------

  /** Values `int()` takes without a TypeError (a bad string is a ValueError). */
  predicate IntArgument(v: Json) {
    v.JStr? || v.JInt? || v.JFloat? || v.JBool?
  }

  /** 2^1024 - 2^970: an int at least this large in magnitude rounds to
      2^1024 under `float()`, which raises OverflowError instead. */
  const FloatLimit: int := 179769313486231580793728971405303415079934132710037826936173778980444968292764750946649017977587207096330286416692887910946555547851940402630657488671505820681908902000708383676273854845817711531764475730270069855571366959622842914819860834936475292719074168444365510704342711559699508093042880177904174497792

  /** Values `float()` takes without a TypeError or an OverflowError: unlike
      `int()`, it refuses integers beyond the double range. */
  predicate FloatArgument(v: Json) {
    || v.JStr? || v.JFloat? || v.JBool?
    || (v.JInt? && -FloatLimit < v.i < FloatLimit)
  }

  /** The largest integer `float()` accepts is the one just below the limit;
      `int()` accepts that integer and every larger one. */
  lemma FloatArgumentRange()
    ensures FloatArgument(JInt(FloatLimit - 1)) && FloatArgument(JInt(1 - FloatLimit))
    ensures !FloatArgument(JInt(FloatLimit)) && !FloatArgument(JInt(-FloatLimit))
    ensures IntArgument(JInt(FloatLimit))
  {
  }

  /** `int(v)` returns rather than raising ValueError. */
  predicate IntConvertible(env: Env, v: Json)
    requires IntArgument(v)
  {
    match v
    case JStr(s) => env.intParses(s)
    case _ => true
  }

  /** `float(v)` returns rather than raising ValueError. */
  predicate FloatConvertible(env: Env, v: Json)
    requires FloatArgument(v)
  {
    match v
    case JStr(s) => env.floatParses(s)
    case _ => true
  }

  /** The payload is a dict, and the validator raises no uncaught exception on
      it: the four keys it reads are present, `minutes` and `price` are values
      the conversions accept without TypeError or OverflowError, and `ddds`
      can be iterated. */
  predicate ValidatorDefined(payload: Entries) {
    && DistinctKeys(payload)
    && HasKey(payload, "minutes") && IntArgument(Lookup(payload, "minutes"))
    && HasKey(payload, "price") && FloatArgument(Lookup(payload, "price"))
    && HasKey(payload, "plan_type")
    && HasKey(payload, "ddds") && Iterable(Lookup(payload, "ddds"))
  }

  function EmptyError(entry: (string, Json)): seq<FieldError> {
    if Truthy(entry.1) then [] else [FieldError(entry.0, IsEmpty)]
  }

  /** The first loop of the validator, one step per payload entry. */
  function EmptyErrors(payload: Entries): seq<FieldError>
    decreases |payload|
  {
    if payload == [] then []
    else EmptyErrors(payload[..|payload| - 1]) + EmptyError(payload[|payload| - 1])
  }

  function MinutesErrors(env: Env, minutes: Json): seq<FieldError>
    requires IntArgument(minutes)
  {
    if IntConvertible(env, minutes) then [] else [FieldError("minutes", NotANumber)]
  }

  function PriceErrors(env: Env, price: Json): seq<FieldError>
    requires FloatArgument(price)
  {
    if FloatConvertible(env, price) then [] else [FieldError("price", NotANumber)]
  }

  function PlanTypeErrors(env: Env, planType: Json): seq<FieldError> {
    if planType in env.planTypesChoice then [] else [FieldError("plan_type", NotAChoice)]
  }

  function DddError(env: Env, ddd: Json): seq<FieldError> {
    if ddd in env.dddsChoice then [] else [FieldError("ddds", NotAChoice)]
  }

  /** The last loop of the validator, one step per element of `ddds`. */
  function DddErrors(env: Env, ddds: seq<Json>): seq<FieldError>
    decreases |ddds|
  {
    if ddds == [] then []
    else DddErrors(env, ddds[..|ddds| - 1]) + DddError(env, ddds[|ddds| - 1])
  }

  /** `validates_payload`: the emptiness errors, then the minutes, price,
      plan_type and ddds checks, each appending to one list. */
  function ValidatesPayload(env: Env, payload: Entries): seq<FieldError>
    requires ValidatorDefined(payload)
  {
    EmptyErrors(payload) + CheckErrors(env, payload)
  }

  /** The checks after the first loop: minutes, price, plan_type, then ddds. */
  function CheckErrors(env: Env, payload: Entries): seq<FieldError>
    requires ValidatorDefined(payload)
  {
    MinutesErrors(env, Lookup(payload, "minutes"))
    + PriceErrors(env, Lookup(payload, "price"))
    + PlanTypeErrors(env, Lookup(payload, "plan_type"))
    + DddErrors(env, Iterate(Lookup(payload, "ddds")))
  }

  /** Positions of the `ddds` elements outside the choice list. */
  function InvalidPositions(env: Env, ddds: seq<Json>): set<nat> {
    set i: nat | i < |ddds| && ddds[i] !in env.dddsChoice
  }

  /** Python truthiness of every payload value. */
  predicate AllTruthy(payload: Entries) {
    forall i :: 0 <= i < |payload| ==> Truthy(payload[i].1)
  }

  /** The order of the error list: emptiness errors first, then minutes,
      price, plan_type and ddds. */
  function Rank(e: FieldError): nat {
    if e.reason == IsEmpty then 0
    else if e.field == "minutes" then 1
    else if e.field == "price" then 2
    else if e.field == "plan_type" then 3
    else 4
  }

  predicate RankSorted(errors: seq<FieldError>) {
    forall i, j :: 0 <= i < j < |errors| ==> Rank(errors[i]) <= Rank(errors[j])
  }

  /** Among the emptiness errors, earlier entries name earlier payload keys. */
  predicate KeyOrdered(payload: Entries, errors: seq<FieldError>) {
    forall i, j :: 0 <= i < j < |errors| && errors[i].reason == IsEmpty && errors[j].reason == IsEmpty ==>
      HasKey(payload, errors[i].field) && HasKey(payload, errors[j].field)
      && KeyIndex(payload, errors[i].field) < KeyIndex(payload, errors[j].field)
  }

  lemma {:induction false} EmptyErrorsFacts(payload: Entries)
    requires DistinctKeys(payload)
    ensures forall e :: e in EmptyErrors(payload) ==>
      e.reason == IsEmpty && HasKey(payload, e.field) && !Truthy(Lookup(payload, e.field))
    ensures KeyOrdered(payload, EmptyErrors(payload))
    decreases |payload|
  {
    if payload != [] {
      var n := |payload| - 1;
      var init := payload[..n];
      var a := EmptyErrors(init);
      var r := EmptyErrors(payload);
      EmptyErrorsFacts(init);
      KeyIndexAt(payload, n);
      forall e | e in r
        ensures e.reason == IsEmpty && HasKey(payload, e.field) && !Truthy(Lookup(payload, e.field))
      {
        if e in a {
          LookupPrefix(payload, n, e.field);
        }
      }
      forall i, j | 0 <= i < j < |r| && r[i].reason == IsEmpty && r[j].reason == IsEmpty
        ensures HasKey(payload, r[i].field) && HasKey(payload, r[j].field)
        ensures KeyIndex(payload, r[i].field) < KeyIndex(payload, r[j].field)
      {
        assert r[i] == a[i] && a[i] in a;
        assert HasKey(init, a[i].field);
        LookupPrefix(payload, n, a[i].field);
        if j < |a| {
          assert r[j] == a[j] && a[j] in a;
          LookupPrefix(payload, n, a[j].field);
          assert KeyIndex(init, a[i].field) < KeyIndex(init, a[j].field);
        } else {
          assert r[j] == FieldError(payload[n].0, IsEmpty);
          assert KeyIndex(init, a[i].field) < n;
          assert KeyIndex(payload, r[j].field) == n;
        }
      }
    }
  }

  lemma {:induction false} EmptyErrorsCount(payload: Entries, k: string)
    requires DistinctKeys(payload)
    ensures multiset(EmptyErrors(payload))[FieldError(k, IsEmpty)]
      == if HasKey(payload, k) && !Truthy(Lookup(payload, k)) then 1 else 0
    decreases |payload|
  {
    if payload != [] {
      var n := |payload| - 1;
      var init := payload[..n];
      EmptyErrorsCount(init, k);
      KeyIndexAt(payload, n);
      if payload[n].0 == k {
        assert !HasKey(init, k);
      } else {
        if HasKey(payload, k) {
          HasKeyInit(payload, k);
          LookupPrefix(payload, n, k);
        }
      }
    }
  }

  lemma {:induction false} EmptyErrorsNone(payload: Entries)
    ensures EmptyErrors(payload) == [] <==> AllTruthy(payload)
    decreases |payload|
  {
    if payload != [] {
      var n := |payload| - 1;
      EmptyErrorsNone(payload[..n]);
      assert forall i :: 0 <= i < n ==> payload[..n][i] == payload[i];
    }
  }

  /** Adding one element to `ddds` adds its position to the invalid ones
      exactly when it is outside the choices. */
  lemma InvalidPositionsStep(env: Env, ddds: seq<Json>)
    requires ddds != []
    ensures InvalidPositions(env, ddds)
      == InvalidPositions(env, ddds[..|ddds| - 1])
       + (if ddds[|ddds| - 1] in env.dddsChoice then {} else {|ddds| - 1})
    ensures |ddds| - 1 !in InvalidPositions(env, ddds[..|ddds| - 1])
  {
  }

  lemma {:induction false} DddErrorsUniform(env: Env, ddds: seq<Json>)
    ensures forall e :: e in DddErrors(env, ddds) ==> e == FieldError("ddds", NotAChoice)
    decreases |ddds|
  {
    if ddds != [] {
      DddErrorsUniform(env, ddds[..|ddds| - 1]);
    }
  }

  lemma {:induction false} DddErrorsCount(env: Env, ddds: seq<Json>)
    ensures multiset(DddErrors(env, ddds))[FieldError("ddds", NotAChoice)] == |InvalidPositions(env, ddds)|
    decreases |ddds|
  {
    if ddds != [] {
      DddErrorsCount(env, ddds[..|ddds| - 1]);
      InvalidPositionsStep(env, ddds);
    }
  }

  lemma {:induction false} DddErrorsNone(env: Env, ddds: seq<Json>)
    ensures DddErrors(env, ddds) == [] <==> forall d :: d in ddds ==> d in env.dddsChoice
    decreases |ddds|
  {
    if ddds != [] {
      var n := |ddds| - 1;
      DddErrorsNone(env, ddds[..n]);
      assert forall d :: d in ddds <==> d in ddds[..n] || d == ddds[n];
    }
  }

  lemma DddErrorsFacts(env: Env, ddds: seq<Json>)
    ensures forall e :: e in DddErrors(env, ddds) ==> e == FieldError("ddds", NotAChoice)
    ensures multiset(DddErrors(env, ddds))[FieldError("ddds", NotAChoice)] == |InvalidPositions(env, ddds)|
    ensures DddErrors(env, ddds) == [] <==> forall d :: d in ddds ==> d in env.dddsChoice
  {
    DddErrorsUniform(env, ddds);
    DddErrorsCount(env, ddds);
    DddErrorsNone(env, ddds);
  }

  /** The three reasons and the four checked field names are distinct. */
  lemma MessagesDistinct()
    ensures IsEmpty != NotANumber && IsEmpty != NotAChoice && NotANumber != NotAChoice
    ensures "minutes" != "price" && "minutes" != "plan_type" && "minutes" != "ddds"
    ensures "price" != "plan_type" && "price" != "ddds" && "plan_type" != "ddds"
    ensures Rank(FieldError("minutes", NotANumber)) == 1 && Rank(FieldError("price", NotANumber)) == 2
    ensures Rank(FieldError("plan_type", NotAChoice)) == 3 && Rank(FieldError("ddds", NotAChoice)) == 4
  {
    assert |IsEmpty| != |NotANumber| && |IsEmpty| != |NotAChoice|;
    assert NotANumber[15] != NotAChoice[15];
    assert |"minutes"| == 7 && |"price"| == 5 && |"plan_type"| == 9 && |"ddds"| == 4;
  }

  /** How often an entry occurs in the error list, segment by segment. */
  lemma CountSplit(env: Env, payload: Entries, x: FieldError)
    requires ValidatorDefined(payload)
    ensures multiset(ValidatesPayload(env, payload))[x]
      == multiset(EmptyErrors(payload))[x]
       + multiset(MinutesErrors(env, Lookup(payload, "minutes")))[x]
       + multiset(PriceErrors(env, Lookup(payload, "price")))[x]
       + multiset(PlanTypeErrors(env, Lookup(payload, "plan_type")))[x]
       + multiset(DddErrors(env, Iterate(Lookup(payload, "ddds"))))[x]
  {
  }

  /** A payload key gets one "is empty" entry when its value is falsy and none
      otherwise; a key the payload lacks gets none. */
  lemma EmptyFieldEntries(env: Env, payload: Entries, k: string)
    requires ValidatorDefined(payload)
    ensures multiset(ValidatesPayload(env, payload))[FieldError(k, IsEmpty)]
      == if HasKey(payload, k) && !Truthy(Lookup(payload, k)) then 1 else 0
  {
    var x := FieldError(k, IsEmpty);
    CountSplit(env, payload, x);
    EmptyErrorsCount(payload, k);
    DddErrorsFacts(env, Iterate(Lookup(payload, "ddds")));
    MessagesDistinct();
    assert x !in DddErrors(env, Iterate(Lookup(payload, "ddds")));
  }

  /** An unparseable `minutes` or `price` gets exactly one "is not a valid
      number." entry under its own name; a parseable one gets none. */
  lemma NumberEntries(env: Env, payload: Entries)
    requires ValidatorDefined(payload)
    ensures multiset(ValidatesPayload(env, payload))[FieldError("minutes", NotANumber)]
      == if IntConvertible(env, Lookup(payload, "minutes")) then 0 else 1
    ensures multiset(ValidatesPayload(env, payload))[FieldError("price", NotANumber)]
      == if FloatConvertible(env, Lookup(payload, "price")) then 0 else 1
  {
    var m := FieldError("minutes", NotANumber);
    var p := FieldError("price", NotANumber);
    CountSplit(env, payload, m);
    CountSplit(env, payload, p);
    EmptyErrorsFacts(payload);
    DddErrorsFacts(env, Iterate(Lookup(payload, "ddds")));
    MessagesDistinct();
    assert m !in EmptyErrors(payload) && p !in EmptyErrors(payload);
    assert m !in DddErrors(env, Iterate(Lookup(payload, "ddds")));
    assert p !in DddErrors(env, Iterate(Lookup(payload, "ddds")));
  }

  /** `plan_type` gets one "is not a valid choice." entry exactly when its
      value is not in the plan type choices (exact, case-sensitive). */
  lemma PlanTypeEntry(env: Env, payload: Entries)
    requires ValidatorDefined(payload)
    ensures multiset(ValidatesPayload(env, payload))[FieldError("plan_type", NotAChoice)]
      == if Lookup(payload, "plan_type") in env.planTypesChoice then 0 else 1
  {
    var t := FieldError("plan_type", NotAChoice);
    CountSplit(env, payload, t);
    EmptyErrorsFacts(payload);
    DddErrorsFacts(env, Iterate(Lookup(payload, "ddds")));
    MessagesDistinct();
    assert t !in EmptyErrors(payload);
    assert t !in DddErrors(env, Iterate(Lookup(payload, "ddds")));
  }

  /** There is one `ddds` entry per element outside the area code choices,
      duplicates included. */
  lemma DddEntries(env: Env, payload: Entries)
    requires ValidatorDefined(payload)
    ensures multiset(ValidatesPayload(env, payload))[FieldError("ddds", NotAChoice)]
      == |InvalidPositions(env, Iterate(Lookup(payload, "ddds")))|
  {
    var d := FieldError("ddds", NotAChoice);
    CountSplit(env, payload, d);
    EmptyErrorsFacts(payload);
    DddErrorsFacts(env, Iterate(Lookup(payload, "ddds")));
    MessagesDistinct();
    assert d !in EmptyErrors(payload);
  }

  /** The payload is accepted exactly when no value is falsy, both numbers
      parse, the plan type is a choice and every ddd is a choice. */
  lemma ValidIff(env: Env, payload: Entries)
    requires ValidatorDefined(payload)
    ensures ValidatesPayload(env, payload) == [] <==>
      && AllTruthy(payload)
      && IntConvertible(env, Lookup(payload, "minutes"))
      && FloatConvertible(env, Lookup(payload, "price"))
      && Lookup(payload, "plan_type") in env.planTypesChoice
      && forall d :: d in Iterate(Lookup(payload, "ddds")) ==> d in env.dddsChoice
  {
    EmptyErrorsNone(payload);
    DddErrorsFacts(env, Iterate(Lookup(payload, "ddds")));
  }

  lemma SortedConcat(a: seq<FieldError>, b: seq<FieldError>)
    requires RankSorted(a) && RankSorted(b)
    requires forall x, y :: x in a && y in b ==> Rank(x) <= Rank(y)
    ensures RankSorted(a + b)
  {
    var c := a + b;
    forall i, j | 0 <= i < j < |c| ensures Rank(c[i]) <= Rank(c[j]) {
      if j < |a| {
        assert c[i] == a[i] && c[j] == a[j];
      } else if i < |a| {
        assert c[i] == a[i] && c[i] in a;
        assert c[j] == b[j - |a|] && c[j] in b;
      } else {
        assert c[i] == b[i - |a|] && c[j] == b[j - |a|];
      }
    }
  }

  lemma KeyOrderedConcat(payload: Entries, a: seq<FieldError>, b: seq<FieldError>)
    requires KeyOrdered(payload, a)
    requires forall x :: x in b ==> x.reason != IsEmpty
    ensures KeyOrdered(payload, a + b)
  {
    var c := a + b;
    forall i, j | 0 <= i < j < |c| && c[i].reason == IsEmpty && c[j].reason == IsEmpty
      ensures HasKey(payload, c[i].field) && HasKey(payload, c[j].field)
      ensures KeyIndex(payload, c[i].field) < KeyIndex(payload, c[j].field)
    {
      assert j < |a|;
      assert c[i] == a[i] && c[j] == a[j];
    }
  }

  /** One of the four errors the number, plan type and ddd checks emit. */
  predicate IsCheckError(e: FieldError) {
    || e == FieldError("minutes", NotANumber)
    || e == FieldError("price", NotANumber)
    || e == FieldError("plan_type", NotAChoice)
    || e == FieldError("ddds", NotAChoice)
  }

  lemma UniformSorted(errors: seq<FieldError>, e: FieldError)
    requires forall x :: x in errors ==> x == e
    ensures RankSorted(errors)
  {
    forall i, j | 0 <= i < j < |errors| ensures Rank(errors[i]) <= Rank(errors[j]) {
      assert errors[i] in errors && errors[j] in errors;
    }
  }

  lemma CheckSegments(minutes: seq<FieldError>, price: seq<FieldError>, planType: seq<FieldError>, ddds: seq<FieldError>)
    requires forall x :: x in minutes ==> x == FieldError("minutes", NotANumber)
    requires forall x :: x in price ==> x == FieldError("price", NotANumber)
    requires forall x :: x in planType ==> x == FieldError("plan_type", NotAChoice)
    requires forall x :: x in ddds ==> x == FieldError("ddds", NotAChoice)
    ensures forall e :: e in minutes + price + planType + ddds ==> IsCheckError(e) && e.reason != IsEmpty && Rank(e) > 0
    ensures RankSorted(minutes + price + planType + ddds)
  {
    MessagesDistinct();
    UniformSorted(minutes, FieldError("minutes", NotANumber));
    UniformSorted(price, FieldError("price", NotANumber));
    UniformSorted(planType, FieldError("plan_type", NotAChoice));
    UniformSorted(ddds, FieldError("ddds", NotAChoice));
    SortedConcat(minutes, price);
    SortedConcat(minutes + price, planType);
    SortedConcat(minutes + price + planType, ddds);
  }

  lemma CheckErrorsFacts(env: Env, payload: Entries)
    requires ValidatorDefined(payload)
    ensures forall e :: e in CheckErrors(env, payload) ==> IsCheckError(e) && e.reason != IsEmpty && Rank(e) > 0
    ensures RankSorted(CheckErrors(env, payload))
  {
    var minutes := MinutesErrors(env, Lookup(payload, "minutes"));
    var price := PriceErrors(env, Lookup(payload, "price"));
    var planType := PlanTypeErrors(env, Lookup(payload, "plan_type"));
    var ddds := DddErrors(env, Iterate(Lookup(payload, "ddds")));
    DddErrorsFacts(env, Iterate(Lookup(payload, "ddds")));
    assert forall x :: x in minutes ==> x == FieldError("minutes", NotANumber);
    assert forall x :: x in price ==> x == FieldError("price", NotANumber);
    assert forall x :: x in planType ==> x == FieldError("plan_type", NotAChoice);
    CheckSegments(minutes, price, planType, ddds);
    assert CheckErrors(env, payload) == minutes + price + planType + ddds;
  }

  /** Every entry is an emptiness error on a falsy payload key or one of the
      four check errors; they come grouped in the order emptiness, minutes,
      price, plan_type, ddds, and the emptiness errors follow the payload's
      key order. */
  lemma ErrorOrder(env: Env, payload: Entries)
    requires ValidatorDefined(payload)
    ensures forall e :: e in ValidatesPayload(env, payload) ==>
      || (e.reason == IsEmpty && HasKey(payload, e.field) && !Truthy(Lookup(payload, e.field)))
      || IsCheckError(e)
    ensures RankSorted(ValidatesPayload(env, payload))
    ensures KeyOrdered(payload, ValidatesPayload(env, payload))
  {
    var empties := EmptyErrors(payload);
    var checks := CheckErrors(env, payload);
    EmptyErrorsFacts(payload);
    CheckErrorsFacts(env, payload);
    assert forall x :: x in empties ==> Rank(x) == 0;
    SortedConcat(empties, checks);
    KeyOrderedConcat(payload, empties, checks);
  }

  /** An empty-string `minutes` or `price` is reported twice: once as empty
      and once as not a number, since `int('')` and `float('')` both raise
      ValueError. */
  lemma EmptyNumberTwoEntries(env: Env, payload: Entries)
    requires ValidatorDefined(payload) && WellFormedEnv(env)
    ensures Lookup(payload, "minutes") == JStr("") ==>
      && FieldError("minutes", IsEmpty) in ValidatesPayload(env, payload)
      && FieldError("minutes", NotANumber) in ValidatesPayload(env, payload)
    ensures Lookup(payload, "price") == JStr("") ==>
      && FieldError("price", IsEmpty) in ValidatesPayload(env, payload)
      && FieldError("price", NotANumber) in ValidatesPayload(env, payload)
  {
    EmptyFieldEntries(env, payload, "minutes");
    EmptyFieldEntries(env, payload, "price");
    NumberEntries(env, payload);
  }

  // ---------------------------------------------------------------------
  // plan_code_already_exists
  // ---------------------------------------------------------------------

  /** Some stored plan carries this plan code. */
  predicate PlanCodeAlreadyExists(store: Store, planCode: Json) {
    exists i :: 0 <= i < |store| && store[i].planCode == planCode
  }

  // ---------------------------------------------------------------------
  // build_lookups
  // ---------------------------------------------------------------------

  /** The query string as `dict(request.GET)` gives it. */
  type Query = map<string, seq<string>>

  /** One equality filter, or the `isnull=False` pass-through. */
  datatype FieldLookup = Equals(value: string) | NotNull

  /** The four Q objects `filter` ANDs together. */
  datatype Lookups = Lookups(ddds: seq<int>, planType: FieldLookup, operator: FieldLookup, planCode: FieldLookup)

  /** `build_lookups` raises nothing: when `ddds` is given, the four keys it
      reads hold at least one value and `ddds` is a list-of-integers literal. */
  predicate LookupsDefined(env: Env, query: Query) {
    "ddds" in query ==>
      && (forall k :: k in {"ddds", "plan_type", "operator", "plan_code"} && k in query ==> |query[k]| > 0)
      && env.literalEval(query["ddds"][0]).Some?
  }

  function FieldLookupOf(query: Query, key: string): FieldLookup
    requires key in query ==> |query[key]| > 0
  {
    if key in query then Equals(query[key][0]) else NotNull
  }

  /** `build_lookups`: no filter at all unless `ddds` is given. */
  function BuildLookups(env: Env, query: Query): (r: Option<Lookups>)
    requires LookupsDefined(env, query)
    ensures r.None? <==> "ddds" !in query
  {
    if "ddds" in query then
      Some(Lookups(
        env.literalEval(query["ddds"][0]).value,
        FieldLookupOf(query, "plan_type"),
        FieldLookupOf(query, "operator"),
        FieldLookupOf(query, "plan_code")))
    else None
  }

  /** `ddds__contains`: the stored array holds every wanted code. */
  predicate DddsContain(stored: Json, wanted: seq<int>) {
    stored.JArr? && forall d :: d in wanted ==> JInt(d) in stored.items
  }

  predicate FieldMatches(stored: Json, lookup: FieldLookup) {
    match lookup
    case Equals(v) => stored == JStr(v)
    case NotNull => stored != JNull
  }

  /** The denotation of the four ANDed Q objects on one row. */
  predicate Matches(plan: Plan, lookups: Lookups) {
    && DddsContain(plan.ddds, lookups.ddds)
    && FieldMatches(plan.planType, lookups.planType)
    && FieldMatches(plan.operator, lookups.operator)
    && FieldMatches(plan.planCode, lookups.planCode)
  }

  /** `Plans.objects.filter(...)`: the matching rows, in store order. */
  function Filter(store: Store, lookups: Lookups): Store
    decreases |store|
  {
    if store == [] then []
    else (if Matches(store[0], lookups) then [store[0]] else []) + Filter(store[1..], lookups)
  }

  /** The filtered rows are the matching rows, each as often as it is stored. */
  lemma {:induction false} FilterCount(store: Store, lookups: Lookups, p: Plan)
    ensures multiset(Filter(store, lookups))[p] == if Matches(p, lookups) then multiset(store)[p] else 0
    decreases |store|
  {
    if store != [] {
      FilterCount(store[1..], lookups, p);
      assert store == [store[0]] + store[1..];
    }
  }

  /** With `ddds` given, a row with non-null text fields passes the filter
      exactly when its ddds hold every parsed code and each of plan_type,
      operator and plan_code is absent from the query or equal to its first
      value. */
  lemma LookupsDenotation(env: Env, query: Query, plan: Plan)
    requires LookupsDefined(env, query) && "ddds" in query
    requires plan.planType != JNull && plan.operator != JNull && plan.planCode != JNull
    ensures Matches(plan, BuildLookups(env, query).value) <==>
      && plan.ddds.JArr?
      && (forall d :: d in env.literalEval(query["ddds"][0]).value ==> JInt(d) in plan.ddds.items)
      && ("plan_type" in query ==> plan.planType == JStr(query["plan_type"][0]))
      && ("operator" in query ==> plan.operator == JStr(query["operator"][0]))
      && ("plan_code" in query ==> plan.planCode == JStr(query["plan_code"][0]))
  {
  }
}
