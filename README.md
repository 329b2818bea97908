# Nutrition AI backend: the `/search-food` endpoint

This project models the one piece of logic in the nutrition app's backend, the
`search_food` handler in `backend/main.py`. The handler checks that the two
Edamam credentials (application id and key) are set. It then sends one request
to the Edamam food-database parser and turns the provider's list of *hints* into
at most twenty `FoodItem` records. If anything goes wrong, it maps the failure to
an HTTP status code.

Modules:

- `Wrappers` (`wrappers.dfy`): `Option` and `Result`.
- `Edamam` (`edamam.dfy`): the provider's side of the call.
  - The outbound `Request`: URL, `app_id`, `app_key`, `ingr`,
    `nutrition-type = "cooking"` and a 10-second timeout.
  - The typed schema of a reply (`Hint`, `Food`, `Nutrient`, `Payload`, `Body`).
    Every object key the handler reads is a `Field`: `Missing`, a `Value` of the
    expected type, or `Invalid` (any other JSON value, with its Python truth value
    and the message Python raises when the handler uses it). A nutrient entry is
    an `Amount` or `NotANumber`; a list element is a `Hint` or `NotAnObject`.
  - An `Exchange`: a reply with a status code, a transport error, or some other
    failure.
  - The `Provider` class: its `Get` method is the one outbound call, and its
    `calls` field records every request made.
- `Normalize` (`normalize.dfy`): turns hints into records.
  - `NormalizeHints` is the handler's loop, written as a method. Its body for one
    hint is the method `ReadHint`.
  - `NormalizeHints` is proved equal to the specification function `Normalized`,
    built from `First` (the at-most-20 prefix), `Collect` (drop unlabeled hints,
    map the rest with `ToItem`) and `HintError` (where the loop body raises).
- `Search` (`search.dfy`): the rest of the endpoint.
  - `Configured` is the credential gate.
  - `Classify` maps an exchange to an `Outcome`.
  - `StatusCode` and `Respond` map an outcome to an HTTP reply.
  - `SearchFood` is the endpoint itself.

Inputs that the handler reads from its surroundings come in as parameters:

- The credentials are a `Credentials` value, not environment variables.
- The provider is a `Provider` object. `SearchFood` may change only that object,
  and its contract fixes the provider's `calls` afterwards. So "no call is made"
  and "exactly one call, no retry" are proved about the method body.
- Python's `round(x, 1)` is a function parameter `round1: real -> real`. The
  contracts say where it is applied and nothing about what it computes.

Two behaviours of the code are worth stating:

- The query only has to have length at least 1. The code does not trim
  whitespace, so `" "` is accepted.
- `raise_for_status` raises for every status outside 200..299. So 1xx and 3xx
  replies are passed through as errors too, not only 4xx and 5xx.

Where the loop body raises on a hint (main.py:80-101):

- These raise for every hint among the first twenty:
  - a hint that is not an object;
  - a `food` that is present but not an object (`null` included);
  - a `nutrients` value that is present but not an object.
- A hint whose label is falsy (missing, `""`, `null`, `0`, `[]`) is dropped
  without looking at its id or nutrients.
- A hint whose label is truthy raises if any of these is not of the expected
  type, in this order: a nutrient among `ENERC_KCAL`, `PROCNT`, `CHOCDF`, `FAT`
  (`round` fails), then the id, then a label that is not a string (the
  `FoodItem` validation fails).
- Any raise abandons the whole list and gives a 500. Hints after the twentieth
  are never read, so they never raise.

## Model

| member | source | states |
|---|---|---|
| `Normalize.FoodOf` | backend/main.py:81 | the food is the hint's `food` object when it has one, and the empty object (every key missing) otherwise |
| `Normalize.Truthy` | backend/main.py:92 | a missing label is falsy, a string label is truthy exactly when non-empty, any other value is truthy as Python judges it |
| `Normalize.NutrientError` | backend/main.py:87-100 | rounding a nutrient raises exactly when the nutrient map holds that code with a non-number, and the message is that entry's |
| `Normalize.LabelOf` | backend/main.py:81-86 | the label is the food's `label` when that is a string; it is `""` otherwise, and when the `food` object is missing |
| `Normalize.NutrientOf` | backend/main.py:82-90 | a nutrient is the number under its code in the food's `nutrients` map; it is 0.0 when the map or the code is missing |
| `Normalize.Labeled` | backend/main.py:92 | a hint is kept exactly when it is an object whose food's `label` is a non-empty string |
| `Normalize.ToItem` | backend/main.py:85-101 | the item's id is `foodId` or `""`; its name is the label; calories, protein, carbs and fat are `round1` applied to `ENERC_KCAL`, `PROCNT`, `CHOCDF` and `FAT` (each 0.0 when missing) |
| `Normalize.HintError` | backend/main.py:81-101 | a non-object hint, a non-object food or a non-object nutrient map always raises; a hint with a falsy label raises only for those; with a truthy label it raises exactly when some nutrient is not a number or the id or label is ill-typed, the message being that of the first non-number among calories, protein, carbs, fat; a hint that does not raise is kept exactly when its label is truthy |
| `Normalize.FirstErrorIndex` | backend/main.py:80-101 | the position of the first hint that raises: every earlier hint reads cleanly, and the hint there raises |
| `Normalize.First` | backend/main.py:80 | the hints examined are a prefix of the list with at most 20 entries; the whole list when it has at most 20, exactly 20 otherwise |
| `Normalize.Collect` | backend/main.py:80-102 | the loop yields at most one item per hint, and every item has a non-empty name |
| `Normalize.Normalized` | backend/main.py:79-107 | a success has at most 20 items, all with non-empty names; a missing, empty or falsy `hints` value gives `[]`; a truthy non-list `hints` value raises |
| `Normalize.ReadHint` | backend/main.py:81-102 | the loop body raises exactly with the message `HintError` gives, and otherwise yields `ToItem` of the hint when it is labeled and nothing when it is not |
| `Normalize.NormalizeHints` | backend/main.py:77-107 | the loop, including the `if not food_items: return []` branch, returns exactly `Normalized`, so that branch changes nothing |
| `Normalize.CollectAppend` | backend/main.py:80-102 | hints contribute independently and in order: collecting `a + b` gives the items of `a` followed by those of `b` |
| `Normalize.HintContribution` | backend/main.py:92-102 | a hint adds its own item if it is labeled and nothing otherwise; the output length grows by exactly one for a labeled hint and stays the same for an unlabeled one |
| `Normalize.CollectCount` | backend/main.py:92-102 | the number of items equals the number of labeled hints |
| `Normalize.LabeledIndices` | backend/main.py:92 | the positions of the labeled hints, strictly increasing, each in range and labeled, and containing every labeled position |
| `Normalize.CollectIsLabeledSubsequence` | backend/main.py:80-102 | item k is `ToItem` of the hint at the k-th labeled position: the output is the labeled hints in their original order |
| `Normalize.CollectAllLabeled` | backend/main.py:80-102 | when every hint is labeled, item i is `ToItem` of hint i, and no hint is lost |
| `Normalize.NormalizedFailure` | backend/main.py:80-101 | the normalisation fails exactly when some hint among the first 20 raises, and then with the message of the first such hint |
| `Normalize.NormalizedCount` | backend/main.py:79-107 | a successful result has one item per labeled hint among the first 20 |
| `Normalize.NormalizedAllLabeled` | backend/main.py:79-107 | N hints whose first twenty are all labeled and all read cleanly give a success of min(N, 20) items, item i built from hint i |
| `Normalize.HintsPastLimitIgnored` | backend/main.py:80 | replacing a hint at position 20 or later, even by one that would raise, never changes the result |
| `Normalize.NormalizedIsLabeledSubsequence` | backend/main.py:80-102 | a successful result is the labeled hints among the first 20, in order, each mapped by `ToItem`; every source position is below 20 |
| `Edamam.Provider.Get` | backend/main.py:62-72 | one outbound call: it returns the provider's exchange for the request and appends that request to `calls` |
| `Search.Configured` | backend/main.py:54 | the gate fails exactly when the id or the key is unset or empty |
| `Search.RequestFor` | backend/main.py:63-71 | the request carries the id, the key, the query as `ingr`, `nutrition-type` "cooking", the 10-second timeout and the parser URL |
| `Search.StatusCode` | backend/main.py:55-122 | an upstream status is passed through; a transport failure is 503; a missing credential and any other failure are 500; success is 200 |
| `Search.Respond` | backend/main.py:54-123 | the reply's status is `StatusCode` of the outcome; only success carries items, and they are unchanged; an upstream rejection carries the upstream body after the fixed prefix |
| `Search.Classify` | backend/main.py:60-123 | a reply outside 200..299 is an upstream status with that code and body; a transport error is a transport failure; a 2xx reply whose body decodes gives exactly the `Normalized` items, or an internal failure with its message when normalisation raises; an undecodable body or another failure is an internal failure; never "misconfigured" |
| `Search.SearchFood` | backend/main.py:44-123 | missing or empty credentials give 500 and leave the provider's calls unchanged, whatever the query; otherwise exactly one call (id, key, query, "cooking", 10 s) is added and the reply is the classified outcome; any item list has at most 20 named items |
| `Search.UpstreamStatusPassedThrough` | backend/main.py:109-113 | a non-success reply gives an error with that same status and the body after "Edamam API error: " |
| `Search.FailureStatuses` | backend/main.py:114-123 | a transport error gives 503; any other failure, including an undecodable success body with any reply text, gives 500 |
| `Search.ErrorKindsDistinct` | backend/main.py:109-123 | the upstream-status, transport and internal replies are pairwise different; their status codes coincide only when the upstream code is 503 (transport) or 500 (internal) |
| `Search.EmptyResultIsSuccess` | backend/main.py:79-107 | a successful reply with no hints, a falsy `hints` value, or hints whose first twenty are all unlabeled and read cleanly gives the empty item list with status 200, not an error |
| `Search.BrokenLabeledHintFails` | backend/main.py:92-100 | a labeled hint among the first 20 whose calories are not a number, after hints that read cleanly, makes the reply a 500 with that message |
| `Search.RiceScenario` | backend/main.py:85-101 | one hint labeled "Rice, white" with no id and four nutrients gives one item with id "", that name and the four rounded values |

## Left out

- The FastAPI application, the root route, the CORS middleware and the `uvicorn` entry point (backend/main.py:12-21, 38-40, 126-128): framework wiring with no logic.
- Reading `EDAMAM_APP_ID` and `EDAMAM_APP_KEY` from the environment (backend/main.py:24-25): I/O. Credentials are a parameter.
- The `httpx.AsyncClient` GET, its timeout, `raise_for_status` and `response.json()` (backend/main.py:62-74): network I/O and library calls. Their results are the abstract `Exchange` that `Provider.Get` returns. The 10-second timeout is recorded in the `Request` but not enforced.
- `Provider` exposes its `respond` function as a field. A method could call it directly instead of `Get`, and such a call would not show in `calls`. `SearchFood` makes every call through `Get`.
- Decoding of the JSON body into the typed schema. A body that is not JSON gives `Malformed`, which ends in the generic 500 path. A JSON body that is not an object is not modelled: `"hints" in data` on an array or a string does not raise, so the handler has no single outcome for it.
- The truth value and error message of each `Invalid` value are inputs, not computed from JSON. For a truthy label or id that is not a string, the model follows pydantic v2, which rejects both rather than converting them.
- When a record fails validation on both the id and the name, the model reports the id's message. Pydantic reports both in one message.
- `round(x, 1)` on binary floats (backend/main.py:97-100): floating point. It is the uninterpreted parameter `round1`, so the model proves nothing about rounding to one decimal place.
- The exact text of `str(e)` for transport and internal failures: it is the `reason` or `error` carried in the input.
- The length-1 minimum on `query` (backend/main.py:44): FastAPI enforces it, and `SearchFood` takes it as a precondition. The 422 reply FastAPI sends for an empty query is not modelled.
- Asynchronous execution and concurrency between requests.
