/**
 * `StarlingAPI` of starling_waterfall.py:11-72: the headers it sends, the
 * requests its decorated methods build, and the two projections of fetched
 * data (`get_balance`, `get_savings_goals`).
 */
module Starling {
  import opened Wrappers
  import opened Json
  import opened Utils

  const BaseUrl: string := "https://api.starlingbank.com/api/v2"
  const ContentType: string := "application/json"
  const BearerPrefix: string := "Bearer "

  /** The token carried by an `Authorization` header value, if it has the bearer form. */
  function BearerToken(header: string): Option<string> {
    if |BearerPrefix| <= |header| && header[..|BearerPrefix|] == BearerPrefix
    then Some(header[|BearerPrefix|..]) else None
  }

  /** The part of `s` between `prefix` and `suffix`, if `s` has that shape. */
  function Between(s: string, prefix: string, suffix: string): Option<string> {
    if |prefix| + |suffix| <= |s| && s[..|prefix|] == prefix && s[|s| - |suffix|..] == suffix
    then Some(s[|prefix|..|s| - |suffix|]) else None
  }

  lemma BetweenOfConcat(prefix: string, x: string, suffix: string)
    ensures Between(prefix + x + suffix, prefix, suffix) == Some(x)
  {
  }

  /** The account id a balance URL names. */
  function AccountOfBalanceUrl(url: string): Option<string> {
    Between(url, BaseUrl + "/accounts/", "/balance")
  }

  /** The account id a savings-goals URL names. */
  function AccountOfSavingsGoalsUrl(url: string): Option<string> {
    Between(url, BaseUrl + "/account/", "/savings-goals")
  }

  /** The goal id a recurring-transfer URL of `account` names. */
  function GoalOfTransferUrl(account: string, url: string): Option<string> {
    Between(url, BaseUrl + "/account/" + account + "/savings-goals/", "/recurring-transfer")
  }

  /** The client: credentials fixed at construction. */
  datatype StarlingApi = StarlingApi(apiToken: string, accountUid: string) {

    /** The headers built by the constructor and sent with every request. */
    function Headers(): (h: map<string, string>)
      ensures h.Keys == {"Authorization", "Content-Type"}
      ensures BearerToken(h["Authorization"]) == Some(apiToken)
      ensures h["Content-Type"] == ContentType
    {
      var auth := BearerPrefix + apiToken;
      assert auth[..|BearerPrefix|] == BearerPrefix && auth[|BearerPrefix|..] == apiToken;
      map["Authorization" := auth, "Content-Type" := ContentType]
    }

    /** `_get_balance_data` before decoration. */
    function BalanceRequest(): (req: Request)
      ensures req.verb == GET && req.body == None
      ensures AccountOfBalanceUrl(req.url) == Some(accountUid)
    {
      BetweenOfConcat(BaseUrl + "/accounts/", accountUid, "/balance");
      Request(GET, BaseUrl + "/accounts/" + accountUid + "/balance", None)
    }

    /** `_get_savings_goals_data` before decoration. */
    function SavingsGoalsRequest(): (req: Request)
      ensures req.verb == GET && req.body == None
      ensures AccountOfSavingsGoalsUrl(req.url) == Some(accountUid)
    {
      BetweenOfConcat(BaseUrl + "/account/", accountUid, "/savings-goals");
      Request(GET, BaseUrl + "/account/" + accountUid + "/savings-goals", None)
    }

    /** `get_recurring_transfer` before decoration: a URL under the savings-goals URL. */
    function GetRecurringTransferRequest(goalId: string): (req: Request)
      ensures req.verb == GET && req.body == None
      ensures GoalOfTransferUrl(accountUid, req.url) == Some(goalId)
      ensures SavingsGoalsRequest().url + "/" <= req.url
    {
      var prefix := BaseUrl + "/account/" + accountUid + "/savings-goals/";
      BetweenOfConcat(prefix, goalId, "/recurring-transfer");
      assert SavingsGoalsRequest().url + "/" == prefix;
      Request(GET, prefix + goalId + "/recurring-transfer", None)
    }

    /** `set_recurring_transfer` before decoration: same URL as the GET, with the data as body. */
    function SetRecurringTransferRequest(goalId: string, data: Value): (req: Request)
      ensures req.verb == PUT && req.body == Some(data)
      ensures req.url == GetRecurringTransferRequest(goalId).url
    {
      Request(PUT, BaseUrl + "/account/" + accountUid + "/savings-goals/" + goalId + "/recurring-transfer", Some(data))
    }
  }

  // ----- decorated calls -----

  /** `_get_balance_data()` after decoration: a GET without body to the balance URL. */
  function BalanceData(api: StarlingApi, transport: Transport): (r: Option<map<string, Value>>)
    ensures r == transport(HttpCall(GET, BaseUrl + "/accounts/" + api.accountUid + "/balance", api.Headers(), None))
  {
    ApiRequest(api.BalanceRequest(), api.Headers(), transport)
  }

  /** `_get_savings_goals_data()` after decoration: a GET without body to the savings-goals URL. */
  function SavingsGoalsData(api: StarlingApi, transport: Transport): (r: Option<map<string, Value>>)
    ensures r == transport(HttpCall(GET, BaseUrl + "/account/" + api.accountUid + "/savings-goals", api.Headers(), None))
  {
    ApiRequest(api.SavingsGoalsRequest(), api.Headers(), transport)
  }

  /** `get_recurring_transfer(goal_id)` after decoration. */
  function GetRecurringTransfer(api: StarlingApi, goalId: string, transport: Transport): (r: Option<map<string, Value>>)
    ensures r == transport(HttpCall(GET, api.SavingsGoalsRequest().url + "/" + goalId + "/recurring-transfer", api.Headers(), None))
  {
    assert api.GetRecurringTransferRequest(goalId).url == api.SavingsGoalsRequest().url + "/" + goalId + "/recurring-transfer";
    ApiRequest(api.GetRecurringTransferRequest(goalId), api.Headers(), transport)
  }

  /** `set_recurring_transfer(goal_id, data)` after decoration. */
  function SetRecurringTransfer(api: StarlingApi, goalId: string, data: Value, transport: Transport): (r: Option<map<string, Value>>)
    ensures r == transport(HttpCall(PUT, api.SavingsGoalsRequest().url + "/" + goalId + "/recurring-transfer", api.Headers(), Some(data)))
  {
    assert api.SetRecurringTransferRequest(goalId, data).url == api.SavingsGoalsRequest().url + "/" + goalId + "/recurring-transfer";
    ApiRequest(api.SetRecurringTransferRequest(goalId, data), api.Headers(), transport)
  }

  // ----- projections -----

  /**
   * The body of `get_balance` on fetched data: `effectiveBalance.minorUnits`
   * when the data is present, `None` otherwise; `.get` on a missing or
   * non-dictionary `effectiveBalance` raises.
   */
  function BalanceFromData(data: Option<map<string, Value>>): (r: Result<Value, Error>)
    ensures !Present(data) ==> r == Ok(Null)
    ensures Present(data) && "effectiveBalance" in data.value && data.value["effectiveBalance"].Object? ==>
              r == Ok(Get(data.value["effectiveBalance"].fields, "minorUnits"))
    ensures r.Err? <==> Present(data) && !Get(data.value, "effectiveBalance").Object?
  {
    if Present(data) then
      match Get(data.value, "effectiveBalance")
      case Object(balance) => Ok(Get(balance, "minorUnits"))
      case _ => Err(NoAttribute("get"))
    else Ok(Null)
  }

  /** `get_balance()`: the projection applied to whatever the balance request answers. */
  function GetBalance(api: StarlingApi, transport: Transport): (r: Result<Value, Error>)
    ensures r == BalanceFromData(transport(HttpCall(GET, BaseUrl + "/accounts/" + api.accountUid + "/balance", api.Headers(), None)))
    ensures !Present(BalanceData(api, transport)) ==> r == Ok(Null)
    ensures r.Err? ==> BalanceData(api, transport).Some? && !Get(BalanceData(api, transport).value, "effectiveBalance").Object?
  {
    BalanceFromData(BalanceData(api, transport))
  }

  /** The body of `get_savings_goals` on fetched data: `savingsGoalList` when present, `None` otherwise. */
  function GoalsFromData(data: Option<map<string, Value>>): (r: Value)
    ensures !Present(data) ==> r == Null
    ensures Present(data) && "savingsGoalList" in data.value ==> r == data.value["savingsGoalList"]
    ensures Present(data) && "savingsGoalList" !in data.value ==> r == Null
  {
    if Present(data) then Get(data.value, "savingsGoalList") else Null
  }

  /** `get_savings_goals()`: the projection applied to whatever the savings-goals request answers. */
  function GetSavingsGoals(api: StarlingApi, transport: Transport): (r: Value)
    ensures r == GoalsFromData(transport(HttpCall(GET, BaseUrl + "/account/" + api.accountUid + "/savings-goals", api.Headers(), None)))
    ensures !Present(SavingsGoalsData(api, transport)) ==> r == Null
    ensures r != Null ==> SavingsGoalsData(api, transport).Some? && r == SavingsGoalsData(api, transport).value["savingsGoalList"]
  {
    GoalsFromData(SavingsGoalsData(api, transport))
  }

  // ----- properties -----

  /** The balance URL ("accounts", plural) never equals a savings-goals URL ("account", singular). */
  lemma BalanceAndGoalsUrlsDiffer(api: StarlingApi, other: StarlingApi)
    ensures api.BalanceRequest().url != other.SavingsGoalsRequest().url
  {
    var b := api.BalanceRequest().url;
    var g := other.SavingsGoalsRequest().url;
    var k := |BaseUrl| + 8;
    assert b[k] == (BaseUrl + "/accounts/")[k] == 's';
    assert g[k] == (BaseUrl + "/account/")[k] == '/';
  }

  /** Distinct goals get distinct recurring-transfer URLs, and distinct accounts distinct balance URLs. */
  lemma UrlsIdentifyTheirIds(api: StarlingApi, other: StarlingApi, g1: string, g2: string)
    ensures api.GetRecurringTransferRequest(g1).url == api.GetRecurringTransferRequest(g2).url ==> g1 == g2
    ensures api.BalanceRequest().url == other.BalanceRequest().url ==> api.accountUid == other.accountUid
    ensures api.SavingsGoalsRequest().url == other.SavingsGoalsRequest().url ==> api.accountUid == other.accountUid
  {
  }

  /** The GET and the PUT for one goal are sent to the same URL with the same headers; only the PUT has a body. */
  lemma GetAndPutShareUrl(api: StarlingApi, goalId: string, data: Value, transport: Transport)
    ensures var get := api.GetRecurringTransferRequest(goalId);
            var put := api.SetRecurringTransferRequest(goalId, data);
            SetRecurringTransfer(api, goalId, data, transport)
              == transport(HttpCall(PUT, get.url, api.Headers(), Some(data)))
            && GetRecurringTransfer(api, goalId, transport)
              == transport(HttpCall(GET, put.url, api.Headers(), None))
  {
  }

  /** A balance encoded as an Amount payload is read back by `get_balance` as its minor units. */
  lemma GetBalanceReadsEffectiveBalance(data: map<string, Value>, a: Records.Amount)
    requires "effectiveBalance" in data && data["effectiveBalance"] == Object(Validation.AmountToJson(a))
    ensures BalanceFromData(Some(data)) == Ok(Int(a.minorUnits))
  {
  }

  /**
   * `get_balance` agrees with the balance the application validates from the
   * same data: whenever `Amount.model_validate(data["effectiveBalance"])` gives
   * an amount from a dictionary, `get_balance` returns its minor units.
   */
  lemma GetBalanceAgreesWithValidatedBalance(data: map<string, Value>, a: Records.Amount)
    requires "effectiveBalance" in data && data["effectiveBalance"].Object?
    requires Validation.ModelValidate(Records.AmountClass, data["effectiveBalance"]) == Ok(Records.AmountModel(a))
    ensures BalanceFromData(Some(data)) == Ok(Int(a.minorUnits))
  {
  }

  /** The test fixture of tests/test_starling_waterfall.py:13-42. */
  function BalanceFixture(): map<string, Value> {
    map["clearedBalance" := Object(map["currency" := Str("GBP"), "minorUnits" := Int(123450)]),
        "effectiveBalance" := Object(map["currency" := Str("GBP"), "minorUnits" := Int(123451)]),
        "pendingTransactions" := Object(map["currency" := Str("GBP"), "minorUnits" := Int(123452)]),
        "acceptedOverdraft" := Object(map["currency" := Str("GBP"), "minorUnits" := Int(123453)]),
        "amount" := Object(map["currency" := Str("GBP"), "minorUnits" := Int(123454)]),
        "totalClearedBalance" := Object(map["currency" := Str("GBP"), "minorUnits" := Int(123455)]),
        "totalEffectiveBalance" := Object(map["currency" := Str("GBP"), "minorUnits" := Int(123456)])]
  }

  /** tests/test_starling_waterfall.py:96-107: the effective balance, 123451, is what `get_balance` returns. */
  lemma GetBalanceOnFixture(api: StarlingApi, transport: Transport)
    requires BalanceData(api, transport) == Some(BalanceFixture())
    ensures GetBalance(api, transport) == Ok(Int(123451))
  {
    assert "effectiveBalance" in BalanceFixture();
  }

  /** tests/test_starling_waterfall.py:110-127: the goal list comes back unchanged. */
  lemma GetSavingsGoalsReturnsList(api: StarlingApi, transport: Transport, goals: seq<Value>)
    requires SavingsGoalsData(api, transport) == Some(map["savingsGoalList" := List(goals)])
    ensures GetSavingsGoals(api, transport) == List(goals)
  {
    assert "savingsGoalList" in map["savingsGoalList" := List(goals)];
  }
}
