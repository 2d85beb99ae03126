/**
 * `Application` of starling_waterfall.py:106-180: building the savings spaces
 * from the fetched goals and their recurring transfers, the refresh-once guard,
 * and the total of the recurring amounts.
 */
module Waterfall {
  import opened Wrappers
  import opened Records
  import opened Json
  import opened Validation
  import opened Utils
  import opened Starling

  // ----- one goal -----

  /** Whether the per-goal fetch gave a transfer to attach (`if recurring_transfer:`). */
  predicate HasTransfer(api: StarlingApi, transport: Transport, goalId: string) {
    Present(GetRecurringTransfer(api, goalId, transport))
  }

  /**
   * The body of the loop in `refresh_spaces` for one fetched goal: validate
   * `totalSaved` and store it back into the goal, validate the goal, fetch its
   * recurring transfer and, when one came back, convert its two nested entries
   * and attach the validated transfer. Every validation failure propagates.
   */
  function GoalToSpace(api: StarlingApi, transport: Transport, goal: Value): (r: Result<SavingsSpace, Error>)
    ensures !goal.Object? ==> r == Err(NoAttribute("get"))
    ensures r.Ok? ==> goal.Object? && "savingsGoalUid" in goal.fields
                      && goal.fields["savingsGoalUid"] == Str(r.value.savingsGoalUid)
  {
    if !goal.Object? then Err(NoAttribute("get"))
    else
      match ModelValidate(AmountClass, Get(goal.fields, "totalSaved"))
      case Err(e) => Err(e)
      case Ok(totalSaved) =>
        match ValidateSpace(goal.fields["totalSaved" := Instance(totalSaved)])
        case Err(e) => Err(e)
        case Ok(space) =>
          var fetched := GetRecurringTransfer(api, space.savingsGoalUid, transport);
          if Present(fetched) then
            var withRule := TransformChild(fetched.value, "recurrenceRule", RecurrenceRuleClass).parent;
            var converted := TransformChild(withRule, "currencyAndAmount", AmountClass).parent;
            match ValidateTransfer(converted)
            case Err(e) => Err(e)
            case Ok(transfer) => Ok(space.(recurringTransfer := Some(transfer)))
          else Ok(space)
  }

  /**
   * Reference for one goal, without the intermediate conversions: validate the
   * raw goal, then attach the raw fetched transfer, validated, when one came back.
   */
  function SpaceOfGoal(api: StarlingApi, transport: Transport, goal: map<string, Value>): Result<SavingsSpace, Error> {
    var space :- ValidateSpace(goal);
    var fetched := GetRecurringTransfer(api, space.savingsGoalUid, transport);
    if Present(fetched) then
      var transfer :- ValidateTransfer(fetched.value);
      Ok(space.(recurringTransfer := Some(transfer)))
    else Ok(space)
  }

  /** Converting the two nested entries before validating a transfer changes nothing about the outcome. */
  lemma ConversionBeforeTransferIsTransparent(d: map<string, Value>)
    ensures var withRule := TransformChild(d, "recurrenceRule", RecurrenceRuleClass).parent;
            ValidateTransfer(TransformChild(withRule, "currencyAndAmount", AmountClass).parent) == ValidateTransfer(d)
  {
    var withRule := TransformChild(d, "recurrenceRule", RecurrenceRuleClass).parent;
    var converted := TransformChild(withRule, "currencyAndAmount", AmountClass).parent;
    if "recurrenceRule" in d {
      NestedRuleAgrees(RecurringTransferClass, "recurrenceRule", d["recurrenceRule"]);
    }
    if "currencyAndAmount" in d {
      NestedAmountAgrees(RecurringTransferClass, "currencyAndAmount", withRule["currencyAndAmount"]);
    }
    assert OptionalStr(RecurringTransferClass, converted, "description") == OptionalStr(RecurringTransferClass, d, "description");
    assert OptionalStr(RecurringTransferClass, converted, "reference") == OptionalStr(RecurringTransferClass, d, "reference");
    assert RequiredStr(RecurringTransferClass, converted, "transferUid") == RequiredStr(RecurringTransferClass, d, "transferUid");
  }

  /**
   * Storing the validated `totalSaved` back into the goal before validating it
   * changes nothing: the space built is the one the raw goal validates to.
   */
  lemma StoredTotalSavedIsTransparent(goal: map<string, Value>)
    ensures ModelValidate(AmountClass, Get(goal, "totalSaved")).Ok? ==>
              ValidateSpace(goal["totalSaved" := Instance(ModelValidate(AmountClass, Get(goal, "totalSaved")).value)])
                == ValidateSpace(goal)
    ensures ModelValidate(AmountClass, Get(goal, "totalSaved")).Err? ==> ValidateSpace(goal).Err?
  {
  }

  /** One goal's space is exactly the reference: the raw goal validated, with the raw fetched transfer attached. */
  lemma GoalToSpaceMatchesReference(api: StarlingApi, transport: Transport, goal: Value)
    ensures GoalToSpace(api, transport, goal).Ok? <==> goal.Object? && SpaceOfGoal(api, transport, goal.fields).Ok?
    ensures GoalToSpace(api, transport, goal).Ok? ==>
              GoalToSpace(api, transport, goal).value == SpaceOfGoal(api, transport, goal.fields).value
  {
    if goal.Object? {
      StoredTotalSavedIsTransparent(goal.fields);
      var space := ValidateSpace(goal.fields);
      if space.Ok? {
        var fetched := GetRecurringTransfer(api, space.value.savingsGoalUid, transport);
        if Present(fetched) {
          ConversionBeforeTransferIsTransparent(fetched.value);
        }
      }
    }
  }

  /**
   * A built space carries a recurring transfer exactly when the per-goal fetch
   * returned a non-empty object; otherwise it keeps what the goal itself gave,
   * which is `None` when the goal has no `recurringTransfer` entry.
   */
  lemma TransferAttachedIffFetched(api: StarlingApi, transport: Transport, goal: Value)
    requires GoalToSpace(api, transport, goal).Ok?
    ensures var s := GoalToSpace(api, transport, goal).value;
            var fetched := GetRecurringTransfer(api, s.savingsGoalUid, transport);
            && (Present(fetched) ==> s.recurringTransfer == Some(ValidateTransfer(fetched.value).value))
            && (!Present(fetched) && "recurringTransfer" !in goal.fields ==> s.recurringTransfer == None)
            && ("recurringTransfer" !in goal.fields ==> (s.recurringTransfer.Some? <==> Present(fetched)))
  {
    GoalToSpaceMatchesReference(api, transport, goal);
  }

  // ----- all goals -----

  /** The spaces built before the loop stopped, and the error that stopped it, if any. */
  datatype Batch = Batch(spaces: seq<SavingsSpace>, error: Option<Error>)

  /** What the loop does with one goal. */
  type GoalStep = Value -> Result<SavingsSpace, Error>

  /** The loop body of `refresh_spaces` as a step. */
  function GoalStepOf(api: StarlingApi, transport: Transport): GoalStep {
    goal => GoalToSpace(api, transport, goal)
  }

  /** The whole loop of `refresh_spaces`: goals in order, stopping at the first that raises. */
  function BuildSpaces(step: GoalStep, goals: seq<Value>): Batch {
    if goals == [] then Batch([], None)
    else
      match step(goals[0])
      case Err(e) => Batch([], Some(e))
      case Ok(s) =>
        var rest := BuildSpaces(step, goals[1..]);
        Batch([s] + rest.spaces, rest.error)
  }

  /** Building from `p + q` is building from `p` and, if that finished, going on with `q`. */
  lemma {:induction false} BuildSpacesAppend(step: GoalStep, p: seq<Value>, q: seq<Value>)
    ensures var bp := BuildSpaces(step, p);
            var bq := BuildSpaces(step, q);
            BuildSpaces(step, p + q)
              == if bp.error.None? then Batch(bp.spaces + bq.spaces, bq.error) else bp
  {
    if p == [] {
      assert p + q == q;
    } else {
      var pq := p + q;
      assert pq[0] == p[0];
      assert pq[1..] == p[1..] + q;
      BuildSpacesAppend(step, p[1..], q);
      match step(p[0])
      case Err(e) =>
      case Ok(s) =>
        var tail := BuildSpaces(step, p[1..]);
        var bq := BuildSpaces(step, q);
        assert [s] + (tail.spaces + bq.spaces) == ([s] + tail.spaces) + bq.spaces;
    }
  }

  /** One more goal: either its space is appended to the prefix's, or its error ends the whole build. */
  lemma BuildSpacesStep(step: GoalStep, goals: seq<Value>, i: nat)
    requires i < |goals| && BuildSpaces(step, goals[..i]).error.None?
    ensures var prefix := BuildSpaces(step, goals[..i]).spaces;
            match step(goals[i])
            case Ok(s) => BuildSpaces(step, goals[..i + 1]) == Batch(prefix + [s], None)
            case Err(e) => BuildSpaces(step, goals) == Batch(prefix, Some(e))
  {
    var head, one, tail := goals[..i], [goals[i]], goals[i + 1..];
    assert goals[..i + 1] == head + one;
    assert goals == (head + one) + tail;
    BuildSpacesAppend(step, head, one);
    assert one[1..] == [];
    match step(goals[i])
    case Ok(s) =>
      assert BuildSpaces(step, one) == Batch([s], None);
    case Err(e) =>
      assert BuildSpaces(step, one) == Batch([], Some(e));
      assert BuildSpaces(step, head + one) == Batch(BuildSpaces(step, head).spaces, Some(e));
      BuildSpacesAppend(step, head + one, tail);
  }

  /**
   * One space per goal in fetch order: the i-th space is the i-th goal's; the
   * loop finishes exactly when no goal raises; when it stops, it stops at the
   * first goal that raises.
   */
  lemma {:induction false} BuildSpacesInOrder(step: GoalStep, goals: seq<Value>)
    ensures var b := BuildSpaces(step, goals);
            && |b.spaces| <= |goals|
            && (forall i :: 0 <= i < |b.spaces| ==> step(goals[i]) == Ok(b.spaces[i]))
            && (b.error.None? <==> forall i :: 0 <= i < |goals| ==> step(goals[i]).Ok?)
            && (b.error.None? ==> |b.spaces| == |goals|)
            && (b.error.Some? ==> |b.spaces| < |goals|
                                  && step(goals[|b.spaces|]) == Err(b.error.value))
  {
    if goals != [] {
      BuildSpacesInOrder(step, goals[1..]);
      var b := BuildSpaces(step, goals);
      var rest := BuildSpaces(step, goals[1..]);
      if step(goals[0]).Ok? {
        forall i | 0 <= i < |b.spaces|
          ensures step(goals[i]) == Ok(b.spaces[i])
        {
          if i > 0 {
            assert goals[i] == goals[1..][i - 1];
            assert b.spaces[i] == rest.spaces[i - 1];
          }
        }
        if rest.error.None? {
          forall i | 0 <= i < |goals|
            ensures step(goals[i]).Ok?
          {
            if i > 0 { assert goals[i] == goals[1..][i - 1]; }
          }
        } else {
          var j :| 0 <= j < |goals[1..]| && step(goals[1..][j]).Err?;
          assert step(goals[j + 1]).Err?;
          assert goals[|b.spaces|] == goals[1..][|rest.spaces|];
        }
      }
    }
  }

  /**
   * Over the whole list: the i-th space built comes from the i-th goal and, for a
   * goal without its own `recurringTransfer` entry, carries a transfer exactly
   * when the fetch for its id returned a non-empty object.
   */
  lemma BuiltSpacesCarryFetchedTransfers(api: StarlingApi, transport: Transport, goals: seq<Value>, i: nat)
    requires i < |BuildSpaces(GoalStepOf(api, transport), goals).spaces|
    ensures var s := BuildSpaces(GoalStepOf(api, transport), goals).spaces[i];
            && i < |goals| && goals[i].Object? && "savingsGoalUid" in goals[i].fields
            && goals[i].fields["savingsGoalUid"] == Str(s.savingsGoalUid)
            && ("recurringTransfer" !in goals[i].fields ==>
                  (s.recurringTransfer.Some? <==> HasTransfer(api, transport, s.savingsGoalUid)))
  {
    BuildSpacesInOrder(GoalStepOf(api, transport), goals);
    TransferAttachedIffFetched(api, transport, goals[i]);
  }

  // ----- the waterfall total -----

  /** What one space adds to the total: its transfer's minor units, or 0 without a transfer. */
  function RecurringAmount(s: SavingsSpace): int {
    if s.recurringTransfer.Some? then s.recurringTransfer.value.currencyAndAmount.minorUnits else 0
  }

  /** `sum(... minorUnits for space in spaces if space.recurringTransfer)`. */
  function WaterfallTotal(spaces: seq<SavingsSpace>): int {
    if spaces == [] then 0 else RecurringAmount(spaces[0]) + WaterfallTotal(spaces[1..])
  }

  /** Spaces without a transfer contribute nothing; in particular the empty list totals 0. */
  lemma {:induction false} TotalWithoutTransfersIsZero(spaces: seq<SavingsSpace>)
    ensures (forall i :: 0 <= i < |spaces| ==> spaces[i].recurringTransfer.None?) ==> WaterfallTotal(spaces) == 0
  {
    if spaces != [] {
      TotalWithoutTransfersIsZero(spaces[1..]);
      assert forall i :: 1 <= i < |spaces| ==> spaces[i] == spaces[1..][i - 1];
    }
  }

  lemma {:induction false} TotalOfConcat(a: seq<SavingsSpace>, b: seq<SavingsSpace>)
    ensures WaterfallTotal(a + b) == WaterfallTotal(a) + WaterfallTotal(b)
  {
    if a == [] {
      assert a + b == b;
    } else {
      assert (a + b)[1..] == a[1..] + b;
      TotalOfConcat(a[1..], b);
    }
  }

  /** Taking one space out of the list takes exactly its amount out of the total. */
  lemma TotalWithoutOne(b: seq<SavingsSpace>, j: nat)
    requires j < |b|
    ensures WaterfallTotal(b) == RecurringAmount(b[j]) + WaterfallTotal(b[..j] + b[j + 1..])
  {
    assert b == b[..j] + ([b[j]] + b[j + 1..]);
    TotalOfConcat(b[..j], [b[j]] + b[j + 1..]);
    TotalOfConcat([b[j]], b[j + 1..]);
    assert WaterfallTotal([b[j]]) == RecurringAmount(b[j]) by {
      assert [b[j]][1..] == [];
    }
    TotalOfConcat(b[..j], b[j + 1..]);
  }

  /** Removing the first element of `a` and an equal element of `b` keeps the two multisets equal. */
  lemma RemoveMatchingFirst(a: seq<SavingsSpace>, b: seq<SavingsSpace>, j: nat)
    requires multiset(a) == multiset(b) && a != [] && j < |b| && b[j] == a[0]
    ensures multiset(a[1..]) == multiset(b[..j] + b[j + 1..])
  {
    assert a == [a[0]] + a[1..];
    assert b == b[..j] + [b[j]] + b[j + 1..];
    assert multiset(a[1..]) == multiset(a) - multiset([a[0]]);
    assert multiset(b[..j] + b[j + 1..]) == multiset(b) - multiset([b[j]]);
  }

  /** The total does not depend on the order of the spaces. */
  lemma {:induction false} TotalIsOrderIndependent(a: seq<SavingsSpace>, b: seq<SavingsSpace>)
    requires multiset(a) == multiset(b)
    ensures WaterfallTotal(a) == WaterfallTotal(b)
    decreases |a|
  {
    if a == [] {
      assert |b| == |multiset(b)| == 0;
    } else {
      assert a[0] in multiset(b);
      var j :| 0 <= j < |b| && b[j] == a[0];
      RemoveMatchingFirst(a, b, j);
      TotalIsOrderIndependent(a[1..], b[..j] + b[j + 1..]);
      TotalWithoutOne(b, j);
    }
  }

  /** With non-negative amounts the total is non-negative and at least every single amount. */
  lemma {:induction false} TotalBoundsEachAmount(spaces: seq<SavingsSpace>, k: nat)
    requires forall i :: 0 <= i < |spaces| ==> RecurringAmount(spaces[i]) >= 0
    requires k < |spaces|
    ensures 0 <= RecurringAmount(spaces[k]) <= WaterfallTotal(spaces)
  {
    var rest := spaces[1..];
    if k > 0 {
      assert spaces[k] == rest[k - 1];
      TotalBoundsEachAmount(rest, k - 1);
    } else if rest != [] {
      TotalBoundsEachAmount(rest, 0);
    }
  }

  /** The example of two goals, one with a 50000 transfer and one without: the total is 50000. */
  lemma TotalOfExample(withTransfer: SavingsSpace, without: SavingsSpace)
    requires withTransfer.recurringTransfer.Some? && withTransfer.recurringTransfer.value.currencyAndAmount.minorUnits == 50000
    requires without.recurringTransfer.None?
    ensures WaterfallTotal([withTransfer, without]) == 50000
    ensures WaterfallTotal([without, withTransfer]) == 50000
  {
    assert [withTransfer, without][1..] == [without];
    assert [without, withTransfer][1..] == [withTransfer];
    assert [without][1..] == [] && [withTransfer][1..] == [];
    assert WaterfallTotal([without]) == 0;
    assert WaterfallTotal([withTransfer]) == 50000;
  }

  // ----- the application -----

  /** `refresh_spaces` can iterate the goal list only when `get_savings_goals` returned a list. */
  predicate GoalListFetched(api: StarlingApi, transport: Transport) {
    GetSavingsGoals(api, transport).List?
  }

  /** The fetched goal list (given it is a list). */
  function FetchedGoals(api: StarlingApi, transport: Transport): seq<Value>
    requires GoalListFetched(api, transport)
  {
    GetSavingsGoals(api, transport).items
  }

  /** The constructor reads `data["effectiveBalance"]` without a check: the data must be there. */
  predicate BalanceReadable(api: StarlingApi, transport: Transport) {
    var data := BalanceData(api, transport);
    data.Some? && "effectiveBalance" in data.value
  }

  class Application {
    const api: StarlingApi
    var balance: Amount
    var spaces: seq<SavingsSpace>

    /** The state `__init__` sets up before loading the goals. */
    constructor (api: StarlingApi, balance: Amount)
      ensures this.api == api && this.balance == balance && spaces == []
    {
      this.api := api;
      this.balance := balance;
      spaces := [];
    }

    /**
     * `Application(api_token, account_uid)`: validate the effective balance,
     * start with no spaces and load the goals once. An error raised on the way
     * means no application is built.
     */
    static method Create(apiToken: string, accountUid: string, transport: Transport) returns (r: Result<Application, Error>)
      requires BalanceReadable(StarlingApi(apiToken, accountUid), transport)
      requires var api := StarlingApi(apiToken, accountUid);
               ModelValidate(AmountClass, BalanceData(api, transport).value["effectiveBalance"]).Ok?
               ==> GoalListFetched(api, transport)
      ensures var api := StarlingApi(apiToken, accountUid);
              r.Ok? <==> ModelValidate(AmountClass, BalanceData(api, transport).value["effectiveBalance"]).Ok?
                         && BuildSpaces(GoalStepOf(api, transport), FetchedGoals(api, transport)).error.None?
      ensures var api := StarlingApi(apiToken, accountUid);
              var balance := ModelValidate(AmountClass, BalanceData(api, transport).value["effectiveBalance"]);
              balance.Err? ==> r == Err(balance.error)
      ensures var api := StarlingApi(apiToken, accountUid);
              var balance := ModelValidate(AmountClass, BalanceData(api, transport).value["effectiveBalance"]);
              balance.Ok? ==>
                var built := BuildSpaces(GoalStepOf(api, transport), FetchedGoals(api, transport));
                built.error.Some? ==> r == Err(built.error.value)
      ensures r.Ok? ==> var api := StarlingApi(apiToken, accountUid);
              && fresh(r.value) && r.value.api == api
              && Ok(AmountModel(r.value.balance)) == ModelValidate(AmountClass, BalanceData(api, transport).value["effectiveBalance"])
              && r.value.spaces == BuildSpaces(GoalStepOf(api, transport), FetchedGoals(api, transport)).spaces
    {
      var api := StarlingApi(apiToken, accountUid);
      var validated := ModelValidate(AmountClass, BalanceData(api, transport).value["effectiveBalance"]);
      if validated.Err? {
        return Err(validated.error);
      }
      var app := new Application(api, validated.value.amount);
      var refreshed := app.RefreshSpaces(transport);
      if refreshed.Err? {
        return Err(refreshed.error);
      }
      r := Ok(app);
    }

    /** `calculate_waterfall_total`. */
    function CalculateWaterfallTotal(): (total: int)
      reads this
      ensures (forall i :: 0 <= i < |spaces| ==> spaces[i].recurringTransfer.None?) ==> total == 0
      ensures total == WaterfallTotal(spaces)
    {
      TotalWithoutTransfersIsZero(spaces);
      WaterfallTotal(spaces)
    }

    /**
     * `refresh_spaces`: append one space per fetched goal, in order, to the
     * spaces already held, never removing any. A goal that raises stops the loop
     * and the call, leaving the spaces appended so far.
     */
    method RefreshSpaces(transport: Transport) returns (r: Result<seq<SavingsSpace>, Error>)
      requires GoalListFetched(api, transport)
      modifies this
      ensures var built := BuildSpaces(GoalStepOf(api, transport), FetchedGoals(api, transport));
              spaces == old(spaces) + built.spaces
              && r == if built.error.None? then Ok(spaces) else Err(built.error.value)
      ensures balance == old(balance)
      ensures r.Ok? ==> |spaces| == |old(spaces)| + |FetchedGoals(api, transport)|
    {
      var goals := GetSavingsGoals(api, transport).items;
      var i := 0;
      while i < |goals|
        invariant 0 <= i <= |goals|
        invariant BuildSpaces(GoalStepOf(api, transport), goals[..i]).error == None
        invariant spaces == old(spaces) + BuildSpaces(GoalStepOf(api, transport), goals[..i]).spaces
        invariant balance == old(balance)
      {
        var step := RefreshOne(goals[i], transport);
        BuildSpacesStep(GoalStepOf(api, transport), goals, i);
        if step.Err? {
          return Err(step.error);
        }
        spaces := spaces + [step.value];
        i := i + 1;
      }
      assert goals[..i] == goals;
      BuildSpacesInOrder(GoalStepOf(api, transport), goals);
      r := Ok(spaces);
    }

    /** The loop body of `refresh_spaces` for one goal, on the mutable dictionaries. */
    method RefreshOne(goal: Value, transport: Transport) returns (r: Result<SavingsSpace, Error>)
      ensures r == GoalToSpace(api, transport, goal)
    {
      if !goal.Object? {
        return Err(NoAttribute("get"));
      }
      var totalSaved := ModelValidate(AmountClass, Get(goal.fields, "totalSaved"));
      if totalSaved.Err? {
        return Err(totalSaved.error);
      }
      var goalDict := new Dict(goal.fields);
      goalDict.entries := goalDict.entries["totalSaved" := Instance(totalSaved.value)];
      var space := ValidateSpace(goalDict.entries);
      if space.Err? {
        return Err(space.error);
      }
      var savingsSpace := space.value;
      var recurringTransfer := GetRecurringTransfer(api, savingsSpace.savingsGoalUid, transport);
      if recurringTransfer.Some? && recurringTransfer.value != map[] {
        var transferDict := new Dict(recurringTransfer.value);
        var _ := transferDict.TransformChildsClass("recurrenceRule", RecurrenceRuleClass);
        var _ := transferDict.TransformChildsClass("currencyAndAmount", AmountClass);
        var transfer := ValidateTransfer(transferDict.entries);
        if transfer.Err? {
          return Err(transfer.error);
        }
        savingsSpace := savingsSpace.(recurringTransfer := Some(transfer.value));
      }
      r := Ok(savingsSpace);
    }

    /**
     * `_refresh_spaces_if_needed`: load the goals only when no space is held;
     * otherwise the spaces are left as they are.
     */
    method RefreshSpacesIfNeeded(transport: Transport) returns (r: Result<seq<SavingsSpace>, Error>)
      requires spaces == [] ==> GoalListFetched(api, transport)
      modifies this
      ensures old(spaces) != [] ==> spaces == old(spaces) && r == Ok(spaces)
      ensures old(spaces) == [] ==>
                var built := BuildSpaces(GoalStepOf(api, transport), FetchedGoals(api, transport));
                spaces == built.spaces && r == if built.error.None? then Ok(spaces) else Err(built.error.value)
      ensures balance == old(balance)
    {
      if spaces == [] {
        r := RefreshSpaces(transport);
        if r.Err? {
          return;
        }
      }
      r := Ok(spaces);
    }
  }
}
