# Plans API decision logic, modelled in Dafny

This project models the decision logic of the `plans` app of the wooza REST API, which stores telecom
plans. A plan has a code, minutes, data allowance, price, plan type, operator and a list of area codes
("ddds"). The model covers:

- the payload validator `validates_payload`;
- the list filter builder `build_lookups`;
- the error envelope builder `error_response`;
- the four handlers `create`, `update`, `delete` and `list`: their guard order, what they answer, and what
  they leave in the store.

The model is functional. JSON values are a datatype with Python truthiness. A payload is a dict seen as
its ordered entries. The store is the sequence of rows, in the order the store yields them. Each handler
is a pure function from its inputs to a response and the resulting store.

Modules:

- `Json` (`json.dfy`): JSON values, `Truthy` (Python `bool()`), `Iterate` (Python `for x in v`), and a
  dict as distinct-key entries with `Lookup`.
- `Plans` (`plans.dfy`): the plan row, the `{field: reason}` error entry, the message constants, and the
  response shapes. It also holds `Env`, which collects what the code takes from outside:
  - the choice lists of the `lists` module;
  - whether Python's `int()` and `float()` accept a string;
  - what `ast.literal_eval` makes of the `ddds` query parameter.
- `Helpers` (`helpers.dfy`): `app/plans/helpers.py`, plus the lemmas about the validator and the filter.
- `Api` (`api.dfy`): the routed handlers of `app/plans/api.py`, plus the lemmas about them.
- `Services` (`services.dfy`): the duplicate code in `app/plans/services.py`. Its validator is written
  as the appending loops the code runs. Every copy there is proved equal to the `helpers.py` function or
  `api.py` handler it duplicates.

Where the code and its accompanying prose or tests disagree, the model follows the code:

- The emptiness reason is `is empty`, without a final dot. The tests expect `is empty.`.
- An empty-string `minutes` or `price` yields two entries: "is empty" and "is not a valid number.". An
  empty-string `plan_type` likewise yields "is empty" and, unless `''` is a choice, "is not a valid
  choice.". The tests expect one entry.
- `create` stores `plan_type` and `operator` verbatim. Nothing is lower-cased.
- `update` and `delete` neither read nor change the store. Both answer with a fixed placeholder record
  whose `id` is the requested `plan_id`. There is no 404, no merge and no removal.
- Filtering in `list` is active only when `ddds` is given. A `plan_type`, `operator` or `plan_code`
  parameter on its own changes nothing.

## Model

| member | source | states |
|---|---|---|
| `Json.Truthy` | app/plans/helpers.py:28-30 | a payload value is falsy exactly when it is null, false, 0, 0.0, `''`, `[]` or `{}` |
| `Json.Iterate` | app/plans/helpers.py:45 | `for ddd in payload['ddds']` visits a list's items in order, a string's one-character strings, or an object's keys; the validator lemmas below count over exactly these values |
| `Helpers.ErrorResponse` | app/plans/helpers.py:12-23 | the HTTP status and `code` are the given status and `message` is the given text; `invalid_fields` is present iff a non-empty list was passed, and then it is that list |
| `Helpers.ValidatesPayload` | app/plans/helpers.py:25-49 | the validator itself; its list is specified by `EmptyFieldEntries`, `NumberEntries`, `PlanTypeEntry`, `DddEntries` (how often each entry occurs), `ErrorOrder` (in what order) and `ValidIff` (when it is empty) |
| `Helpers.FloatArgumentRange` | app/plans/helpers.py:37-40 | `float()` accepts an int only below 2^1024 - 2^970 in magnitude (beyond it OverflowError escapes the `except ValueError`), while `int()` accepts any int; such a price is outside the validator's domain |
| `Helpers.EmptyFieldEntries` | app/plans/helpers.py:28-30 | the result has exactly one `{k: 'is empty'}` for each payload key whose value is falsy, and none for a truthy or missing key |
| `Helpers.NumberEntries` | app/plans/helpers.py:32-40 | `{'minutes': 'is not a valid number.'}` occurs exactly once when `int()` rejects `minutes`, else never; the same holds for `price` and `float()` |
| `Helpers.PlanTypeEntry` | app/plans/helpers.py:42-43 | `{'plan_type': 'is not a valid choice.'}` occurs once iff the value is not in the plan type choices, compared exactly, else never |
| `Helpers.DddEntries` | app/plans/helpers.py:45-47 | the number of `{'ddds': 'is not a valid choice.'}` entries equals the number of positions of `ddds` holding a value outside the area code choices, duplicates counted |
| `Helpers.ValidIff` | app/plans/helpers.py:25-49 | the error list is empty iff no payload value is falsy, `minutes` and `price` parse, `plan_type` is a choice and every ddd is a choice |
| `Helpers.ErrorOrder` | app/plans/helpers.py:25-49 | every entry is an emptiness error on a falsy key or one of the four check errors; entries are grouped emptiness, minutes, price, plan_type, ddds; emptiness entries follow payload key order |
| `Helpers.EmptyNumberTwoEntries` | app/plans/helpers.py:28-40 | since `int('')` and `float('')` raise ValueError, an empty-string `minutes` gives both an "is empty" and an "is not a valid number." entry, and so does an empty-string `price` |
| `Helpers.PlanCodeAlreadyExists` | app/plans/helpers.py:51-52 | some stored row carries the plan code; its use is specified by `Api.Create` (500 exactly for a taken code) and `Api.SecondCreateConflicts` |
| `Helpers.EmptyErrorsFacts` | app/plans/helpers.py:28-30 | the first loop emits only "is empty" entries, each naming a falsy payload key, in the payload's key order |
| `Helpers.BuildLookups` | app/plans/helpers.py:54-73 | the result is "no filter" iff the query has no `ddds` key, whatever other keys it has |
| `Helpers.Matches` | app/plans/helpers.py:56-71 | a row passes the four ANDed `Q` objects; specified by `LookupsDenotation` |
| `Helpers.LookupsDenotation` | app/plans/helpers.py:55-73 | with `ddds` given, a row with non-null text fields passes iff its ddds contain every parsed code and each of plan_type, operator, plan_code is absent from the query or equal to its first value |
| `Helpers.Filter` | app/plans/api.py:117-118 | `Plans.objects.filter(...)` over the stored rows; specified by `FilterCount` |
| `Helpers.FilterCount` | app/plans/api.py:115-118 | the filtered rows are the matching rows, each as many times as it is stored |
| `Api.Create` | app/plans/api.py:13-57 | non-POST gives 400 `Bad Request.` without `invalid_fields`, whatever the body; a rejected payload gives 400 with exactly the validator's list and an unchanged store; a taken code gives 500 `Internal Server Error.` with `[{'plan_code': 'already exists.'}]` and an unchanged store; status 200 iff POST, valid and new code, and then one row is appended and echoed with every field as the payload gave it |
| `Api.CreateAsWritten` | app/plans/api.py:20 | as written, every POST raises NameError; any other method gets the same 400 as the intended handler |
| `Api.CreateAsWrittenFailsValidPost` | app/plans/api.py:18-26 | the repository's test payload, on an empty store, is saved by the intended handler (status 200) but raises in the handler as written |
| `Api.CreatePreservesValidStore` | app/plans/api.py:20-38 | starting from a store with unique ids and codes and only valid rows (no falsy field, `minutes` and `price` convertible, admitted plan type and ddds), `create` with a fresh id keeps it so |
| `Api.SecondCreateConflicts` | app/plans/api.py:24-26 | after a successful create, a valid create with the same plan code gets 500 with `already exists.` and leaves the store unchanged |
| `Api.Update` | app/plans/api.py:59-80 | 200 iff the method is POST or PUT, otherwise 400 `Bad Request.`; the answer is exactly the constant record of lines 66-77 with `id` = `plan_id`, no `total` or `status_code`; the store is unchanged |
| `Api.UpdateIgnoresStore` | app/plans/api.py:59-80 | the `update` answer is the same whatever the store holds |
| `Api.Delete` | app/plans/api.py:82-103 | 200 iff the method is POST, otherwise 400 `Bad Request.`; the answer is exactly the constant record of lines 89-100 with `id` = `plan_id`, no `total` or `status_code`; the store is unchanged |
| `Api.DeleteIgnoresStore` | app/plans/api.py:82-103 | the `delete` answer is the same whatever the store holds |
| `Api.DataResponse` | app/plans/api.py:137-144 | `total` is the number of rows and the status, repeated as `status_code`, is 200 iff there is a row and 404 iff there is none |
| `Api.List` | app/plans/api.py:105-144 | non-GET gives 400; otherwise each row appears in `data` as often as stored if listed (no filter, or it matches the lookups) and not at all otherwise; `total` is the length of `data`; status and `status_code` are 200 iff `data` is non-empty, else 404 |
| `Api.ListWithoutDddsIsUnfiltered` | app/plans/api.py:113-120 | without a `ddds` parameter `list` returns every row, 404 only for an empty store |
| `Api.ListedOnValidStore` | app/plans/api.py:113-118 | on a store `create` built, a row is listed for a `ddds` query iff its ddds hold every requested code and it equals each plan_type, operator and plan_code the query gives |
| `Api.CreatedPlanIsListed` | app/plans/api.py:28-57 | a plan just created shows up in an unfiltered list, which then answers 200 |
| `Services.ErrorResponse` | app/plans/services.py:12-23 | the copy builds the same envelope as helpers.py's `error_response` |
| `Services.EmptinessLoop` | app/plans/services.py:28-30 | the first loop, run key by key, appends exactly the emptiness entries of the reference validator |
| `Services.DddLoop` | app/plans/services.py:45-47 | the ddds loop appends exactly one entry per invalid ddd, in order |
| `Services.ValidatesPayload` | app/plans/services.py:25-49 | the copy, run as appending loops, returns the same list as helpers.py's `validates_payload` |
| `Services.BuildLookups` | app/plans/services.py:54-73 | the copy returns the same lookups as helpers.py's `build_lookups` |
| `Services.Create` | app/plans/services.py:75-119 | services.py's create answers and stores exactly as api.py's create with the intended validator call |
| `Services.Update` | app/plans/services.py:121-142 | the copy answers exactly as api.py's `update` |
| `Services.Delete` | app/plans/services.py:144-165 | the copy answers exactly as api.py's `delete` |
| `Services.List` | app/plans/services.py:167-206 | the copy, filtering through its own `build_lookups`, answers exactly as api.py's `list` |

## Findings

| source | as written | input that shows it | evidently intended | confidence | as-written member | corrected member |
|---|---|---|---|---|---|---|
| app/plans/api.py:20 | `create` calls `validates_payload(payload)`, but api.py binds the module `helpers` and never the name `validates_payload` | any POST, e.g. the test payload `{'plan_code': 'OiPro100', ...}` | `helpers.validates_payload(payload)`, as services.py does with its local copy | high; not executed | `Api.CreateAsWritten` | `Api.Create` |

`Api.CreateAsWrittenFailsValidPost` exhibits the discrepancy on one concrete payload. The rest of the
model uses `Api.Create`, and `Services.Create` is proved to behave exactly like it.

## Left out

- HTTP plumbing is not modelled: `JsonResponse` serialisation, `csrf_exempt`, URL routing
  (`app/plans/urls.py`, `app/wooza/urls.py`) and `json.loads` of the request body. Handlers take the
  method and the already-parsed body or query string as inputs.
- The ORM is replaced by a sequence of rows. `filter`/`exists`/`all` become `Filter` and
  `PlanCodeAlreadyExists`, and `Q` objects become the `Lookups` datatype with its `Matches` denotation.
  The parameter `newId` stands for the id the code assumes `plan.id` holds after `save()`. Under
  `app/plans/models.py` as written nothing assigns it, so `plan.id` would stay None. Row order is
  whatever order the store yields.
- The store's column types are not modelled. Rows hold the payload's JSON values verbatim. A `CharField`
  or `IntegerField` coercing or rejecting a value is not modelled.
- Api.Create: `newId` is taken to be fresh. Given an id already in the store, the model appends a second row
  with that id, where Django's `save()` would update the existing row. `CreatePreservesValidStore`
  requires a fresh id.
- Api.Create: the saved and echoed `minutes` and `price` are the payload's values, not `int(...)` and
  `float(...)` of them, because numeric conversion is not modelled. Only whether the conversion succeeds
  is modelled, as the given predicates `intParses` and `floatParses`.
- `ast.literal_eval` of the `ddds` query parameter is a given function (`literalEval`). A literal that is
  not a list of integers, which raises in the source or makes the ORM reject the lookup, is excluded by
  precondition.
- An uncaught exception is a precondition, not a modelled error path. This covers KeyError on a missing
  key, TypeError from `int()`/`float()` on null, lists or objects, OverflowError from `float()` on an
  integer price of magnitude 2^1024 - 2^970 or more, iterating a non-iterable `ddds`, and an empty query
  value list. The preconditions are `ValidatorDefined`, `LookupsDefined`, `CreateDefined` and
  `ListDefined`.
- The swallowed save error at app/plans/services.py:101-102 and app/plans/api.py:39-40 is not modelled.
  The error response is built and discarded, and the handler still answers 200. The model assumes the
  save succeeds.
- `update` and `delete` parse their body with `json.loads` and ignore it. A body that does not parse is
  not modelled.
- Choice membership is structural equality on JSON values. Python's cross-type equality inside the
  `in` tests is not modelled: `21.0` would match a choice `21`, and `True` a choice `1`. JSON `NaN` and
  `Infinity` floats are not representable.
- The `lists` module is not part of this model. `PLAN_TYPES_CHOICE` and `DDDS_CHOICE` are the sets
  `planTypesChoice` and `dddsChoice` of `Env`.
- `app/plans/models.py` is used only to shape the `Plan` record. The schema and the code disagree in
  three places, and the model follows the code:
  - the class is `Plan` but the code imports `Plans`;
  - `internet` is an `IntegerField` while payloads carry strings such as `'10GB'`;
  - `id` is a plain `IntegerField` primary key, so nothing assigns it automatically.
- `app/plans/tests.py` is Django test-client I/O and is not modelled. Its expectations disagree with the
  code as noted above.
- Concurrency is not modelled. Two concurrent creates can both pass the existence check.
