# starling_waterfall, modelled in Dafny

The repository is a personal-finance script for the Starling Bank REST API. It reads the
account's effective balance and its savings goals ("spaces"). For each goal it reads the
recurring transfer that tops it up. It then adds up the recurring amounts, the "waterfall
total". This project models the sequential core beneath the HTTP client and the console
output:

- **The client's requests** (`StarlingAPI`). It sends a bearer-token `Authorization` header and a
  JSON `Content-Type`. It builds one URL per endpoint: balance, savings goals, and the
  recurring transfer of a goal (GET and PUT).
- **The network**, made abstract. The request decorator `api_request` becomes
  `Transport = HttpCall -> Option<map<string, Value>>`. `None` is a failed request, which
  the decorator catches. `Some` is the parsed JSON object of the answer.
- **The projections** `get_balance` and `get_savings_goals` of fetched data. `Starling.GetBalance` and
  `Starling.GetSavingsGoals` apply `BalanceFromData` and `GoalsFromData` to what the transport answers.
- **The typed records** `RecurrenceRule`, `Amount`, `RecurringTransfer` and `SavingsSpace`.
  Each has a total validator from a JSON dictionary to `Result<record, Error>`. It fills
  declared defaults (`currency = "GBP"`, `frequency = "MONTHLY"`, optional fields `None`). It
  fails on a missing or mistyped required field.
- **`transform_childs_class`** from utils.py, as a `Dict` class whose `entries` map is updated
  in place, specified by the function `TransformChild`.
- **`Application`**, as a class holding `api`, `balance` and `spaces`:
  - `refresh_spaces` is a loop that appends one space per fetched goal. A validation error
    raised part-way stops it, keeping the spaces already appended, as Python does.
  - `_refresh_spaces_if_needed` is the refresh-once guard.
  - `calculate_waterfall_total` sums the recurring amounts in minor units.

`Value` is JSON (`Null` being Python's `None`) plus `Instance(Model)`. The program stores
validated model instances back into dictionaries: `goal["totalSaved"] = ...` in refresh_spaces,
and `parent[child] = new_class` in transform_childs_class. The enclosing record's validator
then accepts the instance as it is.

Modules: `Wrappers` (Option, Result), `Records` (the four records), `Json` (values and errors),
`Validation` (the `model_validate` calls), `Utils` (utils.py), `Starling` (the client),
`Waterfall` (the application).

The model follows the code in these points, which are easy to assume otherwise:

- `refresh_spaces` appends to `self.spaces` without clearing it. Calling it twice repeats the
  goals. It is not idempotent.
- A validation failure raises rather than coming back as "absent". Only `transform_childs_class`
  catches it. Inside `refresh_spaces` the raised error ends the refresh.
- `Amount.minorUnits` is any integer. Nothing checks that it is non-negative.
- The balance-gated "waterfall" that resubmits transfers exists only as commented-out code,
  so it is not modelled.

## Model

| member | source | states |
|---|---|---|
| `Starling.StarlingApi.Headers` | starling_waterfall.py:18-24 | Exactly two headers. `Authorization` carries the bearer form, from which the API token is recovered unchanged. `Content-Type` is `application/json`. |
| `Starling.StarlingApi.BalanceRequest` | starling_waterfall.py:27-30 | A GET without body whose URL has the shape `BASE_URL/accounts/<id>/balance`; the account id is recovered from it. |
| `Starling.StarlingApi.SavingsGoalsRequest` | starling_waterfall.py:40-43 | A GET without body whose URL has the shape `BASE_URL/account/<id>/savings-goals`; the account id is recovered from it. |
| `Starling.StarlingApi.GetRecurringTransferRequest` | starling_waterfall.py:53-56 | A GET without body. Its URL extends the savings-goals URL plus `/` and has the shape `.../savings-goals/<goal>/recurring-transfer`. The goal id is recovered from it. |
| `Starling.StarlingApi.SetRecurringTransferRequest` | starling_waterfall.py:59-72 | A PUT whose body is the given data. Its URL equals the GET's URL for the same goal. |
| `Utils.ApiRequest` | utils.py:23-40 | `api_request` made abstract: the built request is handed, with the client's headers, to `Transport`. It is a definition without a contract of its own. `BalanceData`, `SavingsGoalsData`, `GetRecurringTransfer`, `SetRecurringTransfer` and `GetAndPutShareUrl` state the calls sent. |
| `Starling.BalanceData` | starling_waterfall.py:27-30 | `_get_balance_data` as decorated: the answer to a GET without body to `BASE_URL/accounts/<id>/balance`, with the client's headers. |
| `Starling.SavingsGoalsData` | starling_waterfall.py:40-43 | `_get_savings_goals_data` as decorated: the answer to a GET without body to `BASE_URL/account/<id>/savings-goals`, with the client's headers. |
| `Starling.GetRecurringTransfer` | starling_waterfall.py:53-56 | `get_recurring_transfer(goal)` as decorated: the answer to a GET without body to the savings-goals URL extended by `/<goal>/recurring-transfer`. |
| `Starling.SetRecurringTransfer` | starling_waterfall.py:59-72 | `set_recurring_transfer(goal, data)` as decorated: the answer to a PUT carrying `data` to the same URL as the GET. |
| `Starling.BalanceAndGoalsUrlsDiffer` | starling_waterfall.py:29-42 | A balance URL (plural `accounts`) never equals a savings-goals URL (singular `account`), whatever the two account ids. |
| `Starling.UrlsIdentifyTheirIds` | starling_waterfall.py:29-56 | Equal recurring-transfer URLs mean equal goal ids. Equal balance URLs mean equal account ids. So do equal savings-goals URLs. |
| `Starling.GetAndPutShareUrl` | starling_waterfall.py:53-72 | The decorated GET and PUT for one goal go to the same URL with the same headers. They differ only in method and body. |
| `Starling.BalanceFromData` | starling_waterfall.py:33-37 | Absent or empty data gives `None`. Present data gives `effectiveBalance.minorUnits` (`None` if that key is missing). It raises exactly when `effectiveBalance` is missing or not a dictionary. |
| `Starling.GetBalance` | starling_waterfall.py:33-37 | `get_balance` applies `BalanceFromData` to the answer to a GET without body to `BASE_URL/accounts/<id>/balance` with the client's headers. A failed or empty answer gives `None`. It raises only when data is there and its `effectiveBalance` is not a dictionary. |
| `Starling.GetBalanceReadsEffectiveBalance` | starling_waterfall.py:33-37 | When `effectiveBalance` is an encoded Amount, `get_balance` returns its minor units. |
| `Starling.GetBalanceAgreesWithValidatedBalance` | starling_waterfall.py:108-110 | `get_balance` returns the minor units of the balance the application validates from the same data. |
| `Starling.GetBalanceOnFixture` | tests/test_starling_waterfall.py:96-107 | On the test's balance fixture `get_balance` is 123451, the effective balance, not one of the six other balances. |
| `Starling.GoalsFromData` | starling_waterfall.py:46-50 | Absent or empty data gives `None`. Present data gives `savingsGoalList` as it is (`None` if missing). |
| `Starling.GetSavingsGoals` | starling_waterfall.py:46-50 | `get_savings_goals` applies `GoalsFromData` to the answer to a GET without body to `BASE_URL/account/<id>/savings-goals` with the client's headers. A failed or empty answer gives `None`. A non-`None` result is the fetched `savingsGoalList`. |
| `Starling.GetSavingsGoalsReturnsList` | tests/test_starling_waterfall.py:110-127 | A fetched goal list comes back unchanged, element for element. |
| `Validation.ValidateRule` | starling_waterfall.py:75-77 | Succeeds exactly when `startDate` is a string and `frequency`, if given, is one. Keeps `startDate` and defaults `frequency` to `MONTHLY`. Fails with "missing startDate" when absent. |
| `Validation.ValidateAmount` | starling_waterfall.py:80-82 | Succeeds exactly when `minorUnits` is an integer and `currency`, if given, is a string. Keeps `minorUnits` and defaults `currency` to `GBP`. Fails when `minorUnits` is absent. |
| `Validation.ValidateTransfer` | starling_waterfall.py:85-91 | Succeeds exactly when `transferUid` is a string, `recurrenceRule` and `currencyAndAmount` are present and validate as their classes, and `description` and `reference` are each absent, null or a string. The uid is kept and the nested records are the validated ones. `description` and `reference` are `None` when absent or null, the given string otherwise. |
| `Validation.ValidateSpace` | starling_waterfall.py:94-103 | Succeeds exactly when `savingsGoalUid`, `name` and `state` are strings, `totalSaved` validates as an Amount, and each of `target` (Amount), `savedPercentage` (integer) and `recurringTransfer` (RecurringTransfer) is absent, null or valid. The four required fields are kept. Each optional field is `None` when absent or null, and otherwise the given value, validated as its class. |
| `Validation.TransferFixtureValidates` | tests/test_starling_waterfall.py:76-93 | The transfer the test's API answers with validates. It has no `description` or `reference`, and it gives `frequency`. Both optional strings become `None` and the undeclared keys are ignored. |
| `Validation.GoalFixtureValidates` | tests/test_starling_waterfall.py:45-58 | The test's first savings goal, which has no `recurringTransfer`, validates to a space with `target` 100000, `totalSaved` 50000, `savedPercentage` 50 and no transfer. |
| `Validation.ModelValidate` | starling_waterfall.py:157-166 | The result is of the requested class. An instance of that class passes unchanged. Anything that is neither a dictionary nor an instance is refused. |
| `Validation.TransferRoundTrip` | starling_waterfall.py:85-91 | Validating a transfer's wire shape gives the transfer back. |
| `Validation.SpaceRoundTrip` | starling_waterfall.py:94-103 | Validating a space's wire shape, nested records included, gives the space back. |
| `Validation.ModelRoundTrip` | starling_waterfall.py:75-103 | For every record class, validating the wire shape of an instance gives the instance back. |
| `Validation.AmountFieldsPreserved` | starling_waterfall.py:80-82 | Validating an Amount payload and writing it back keeps `minorUnits`. It keeps `currency`, or fills in `GBP`. |
| `Validation.RuleFieldsPreserved` | starling_waterfall.py:75-77 | Validating a RecurrenceRule payload and writing it back keeps `startDate`. It keeps `frequency`, or fills in `MONTHLY`. |
| `Validation.NestedRuleAgrees` | starling_waterfall.py:88 | A nested `recurrenceRule` field gives exactly what `RecurrenceRule.model_validate` gives, in both directions. |
| `Validation.NestedAmountAgrees` | starling_waterfall.py:89-98 | A nested Amount field gives exactly what `Amount.model_validate` gives, in both directions. |
| `Utils.TransformChild` | utils.py:45-67 | Key absent, or validation fails: the dictionary is unchanged and the result is `None`. Validation succeeds: the entry becomes the instance, which is returned. In every case the keys stay the same and no other entry changes. A non-`None` result is the instance now stored under the key. |
| `Utils.Dict.TransformChildsClass` | utils.py:58-67 | The in-place update leaves entries and result as `TransformChild` describes. It keeps the key set, changes no other key, and a non-`None` result is what is now stored. |
| `Waterfall.GoalToSpace` | starling_waterfall.py:156-166 | A goal that is not a dictionary raises. A built space's `savingsGoalUid` is the goal's own. |
| `Waterfall.ConversionBeforeTransferIsTransparent` | starling_waterfall.py:163-166 | Converting `recurrenceRule` and `currencyAndAmount` before validating the transfer gives the same outcome as validating the raw data. |
| `Waterfall.StoredTotalSavedIsTransparent` | starling_waterfall.py:157-159 | Storing the validated `totalSaved` back before validating the goal gives the same space as validating the raw goal. If `totalSaved` fails, so does the raw goal. |
| `Waterfall.GoalToSpaceMatchesReference` | starling_waterfall.py:156-166 | One goal's space is the reference `SpaceOfGoal`: the raw goal validated, with the raw fetched transfer attached. Success too coincides. |
| `Waterfall.TransferAttachedIffFetched` | starling_waterfall.py:161-166 | A fetched non-empty transfer is attached, validated. A failed or empty fetch leaves what the goal gave, which is `None` without its own entry. So the transfer is there if and only if the fetch returned data. |
| `Waterfall.BuildSpaces` | starling_waterfall.py:156-168 | The loop over the fetched goals, as a definition without a contract of its own. `BuildSpacesInOrder`, `BuildSpacesStep`, `BuildSpacesAppend` and `BuiltSpacesCarryFetchedTransfers` state its properties: one space per goal in fetch order, stopping at the first goal that raises. |
| `Waterfall.BuildSpacesAppend` | starling_waterfall.py:156-168 | Building from `p + q` is building from `p` and, if no goal raised, continuing with `q`. |
| `Waterfall.BuildSpacesStep` | starling_waterfall.py:156-168 | One more loop iteration either appends that goal's space to those built so far or, if the goal raises, ends the whole build with that error. |
| `Waterfall.BuildSpacesInOrder` | starling_waterfall.py:156-168 | The i-th space is the i-th goal's, in fetch order. The loop finishes exactly when no goal raises, with one space per goal. Otherwise it stops at the first goal that raises. |
| `Waterfall.BuiltSpacesCarryFetchedTransfers` | starling_waterfall.py:156-168 | Every built space comes from the goal at its position with the same id. A goal without its own entry gets a transfer exactly when its fetch returned data. |
| `Waterfall.WaterfallTotal` | starling_waterfall.py:133 | The `sum` over spaces with a transfer, as a definition without a contract of its own. `TotalWithoutTransfersIsZero`, `TotalOfConcat`, `TotalIsOrderIndependent` and `TotalBoundsEachAmount` state its properties. |
| `Waterfall.TotalWithoutTransfersIsZero` | starling_waterfall.py:133 | When no space has a recurring transfer, the empty list included, the total is 0. |
| `Waterfall.TotalOfConcat` | starling_waterfall.py:133 | The total of two lists joined is the sum of their totals. |
| `Waterfall.TotalWithoutOne` | starling_waterfall.py:133 | Removing one space removes exactly its recurring amount (0 without a transfer) from the total. |
| `Waterfall.TotalIsOrderIndependent` | starling_waterfall.py:133 | Any permutation of the spaces has the same total. |
| `Waterfall.TotalBoundsEachAmount` | starling_waterfall.py:133 | With non-negative amounts, each space's amount lies between 0 and the total. |
| `Waterfall.TotalOfExample` | starling_waterfall.py:128-134 | Two spaces, one with a 50000 transfer and one without, total 50000 in either order. |
| `Waterfall.Application.constructor` | starling_waterfall.py:108-111 | Sets the client and the balance, and starts with no spaces. |
| `Waterfall.Application.Create` | starling_waterfall.py:108-113 | Building the application succeeds exactly when the effective balance validates and no goal raises. A balance that fails validation raises that error before any goal is read. When the balance validates but a goal raises, that goal's error is what is raised. On success the balance is the validated one and the spaces are the built ones. |
| `Waterfall.Application.CalculateWaterfallTotal` | starling_waterfall.py:128-134 | The sum of the recurring amounts of the spaces that have a transfer. It is 0 when none does. |
| `Waterfall.Application.RefreshSpaces` | starling_waterfall.py:150-170 | The new spaces are the old ones followed by the built ones, so nothing is removed. The balance is unchanged. The result is the spaces, or the error that stopped the loop. On success the length grows by the number of goals. |
| `Waterfall.Application.RefreshOne` | starling_waterfall.py:156-168 | The loop body, run on mutable dictionaries, gives exactly `GoalToSpace` of the goal. |
| `Waterfall.Application.RefreshSpacesIfNeeded` | starling_waterfall.py:173-180 | Held spaces are left unchanged and returned. With no spaces held, it refreshes: the spaces become the built ones and an error propagates. |

## Left out

- The HTTP request itself (`requests.request`, `raise_for_status`, `.json()`). It is network I/O, made abstract as the `Transport` function.
- Answers that are JSON but not objects (a list, a number) are not modelled, because every endpoint of this API answers with an object.
- The error branch of `api_request` prints `response.text`. After a connection error `response` is unbound, so the print would itself raise. This is not modelled: a failed request is always `None`.
- `json.dumps` of the PUT body is a library call. The request carries the unserialised data as its body.
- pydantic coercion rules (a numeric string accepted as an int, and so on) are not modelled. Fields must have exactly their declared JSON type. pydantic reports every failing field; the model reports the first, in declaration order.
- JSON floating-point numbers are not modelled.
- The print methods (`print_balance`, `print_savings_goals`, `print_recurring_transfer(s)`, `print_waterfall_total`) and `run` are console output only, with float division.
- The console messages inside the core are not modelled: `transform_childs_class` prints on a failed validation and on a missing key, and `_refresh_spaces_if_needed` prints "Refreshing savings goals...". They are output only and change no state or result.
- The `__main__` block and the dotenv loading are environment I/O.
- `Waterfall.Application.Create`: requires that the balance data is present with an `effectiveBalance` key, because Python subscripts it without a check. It also requires that, once the balance validates, `get_savings_goals` returns a list, because Python then iterates it without a check.
- `Waterfall.Application.RefreshSpaces`: requires that `get_savings_goals` returned a list. Python iterates it without a check.
- `Waterfall.Application.RefreshSpacesIfNeeded`: requires the same, but only when no spaces are held, because only then does it refresh and iterate the list without a check.
- The balance-gated resubmission of transfers is only a commented-out draft in the source, so it is not modelled.
- The network is one fixed function, so two calls with the same request get the same answer. Answers that change over time are not modelled.
