/**
 * `model_validate` for the four record classes of starling_waterfall.py:75-103.
 * Required fields must be present with the declared type; fields with a default
 * take it when absent; optional fields become `None` when absent or null; keys
 * not declared are ignored; a nested record is validated from a dictionary or
 * taken as it is from an instance of its class. The first failing field, in
 * declaration order, is the error reported.
 */
module Validation {
  import opened Wrappers
  import opened Records
  import opened Json

  const RuleRequired: set<string> := {"startDate"}
  const AmountRequired: set<string> := {"minorUnits"}
  const TransferRequired: set<string> := {"transferUid", "recurrenceRule", "currencyAndAmount"}
  const SpaceRequired: set<string> := {"savingsGoalUid", "name", "totalSaved", "state"}

  // ----- fields -----

  function RequiredStr(cls: ModelClass, d: map<string, Value>, key: string): Result<string, Error> {
    if key !in d then Err(MissingField(cls, key))
    else if d[key].Str? then Ok(d[key].s)
    else Err(WrongType(cls, key))
  }

  function StrOrDefault(cls: ModelClass, d: map<string, Value>, key: string, default: string): Result<string, Error> {
    if key !in d then Ok(default)
    else if d[key].Str? then Ok(d[key].s)
    else Err(WrongType(cls, key))
  }

  function OptionalStr(cls: ModelClass, d: map<string, Value>, key: string): Result<Option<string>, Error> {
    if key !in d || d[key].Null? then Ok(None)
    else if d[key].Str? then Ok(Some(d[key].s))
    else Err(WrongType(cls, key))
  }

  function RequiredInt(cls: ModelClass, d: map<string, Value>, key: string): Result<int, Error> {
    if key !in d then Err(MissingField(cls, key))
    else if d[key].Int? then Ok(d[key].i)
    else Err(WrongType(cls, key))
  }

  function OptionalInt(cls: ModelClass, d: map<string, Value>, key: string): Result<Option<int>, Error> {
    if key !in d || d[key].Null? then Ok(None)
    else if d[key].Int? then Ok(Some(d[key].i))
    else Err(WrongType(cls, key))
  }

  /** A field of type RecurrenceRule: a dictionary is validated, an instance is kept. */
  function NestedRule(cls: ModelClass, key: string, v: Value): Result<RecurrenceRule, Error> {
    match v
    case Object(f) => ValidateRule(f)
    case Instance(RuleModel(r)) => Ok(r)
    case _ => Err(WrongType(cls, key))
  }

  /** A field of type Amount: a dictionary is validated, an instance is kept. */
  function NestedAmount(cls: ModelClass, key: string, v: Value): Result<Amount, Error> {
    match v
    case Object(f) => ValidateAmount(f)
    case Instance(AmountModel(a)) => Ok(a)
    case _ => Err(WrongType(cls, key))
  }

  /** A field of type RecurringTransfer: a dictionary is validated, an instance is kept. */
  function NestedTransfer(cls: ModelClass, key: string, v: Value): Result<RecurringTransfer, Error> {
    match v
    case Object(f) => ValidateTransfer(f)
    case Instance(TransferModel(t)) => Ok(t)
    case _ => Err(WrongType(cls, key))
  }

  function RequiredAmount(cls: ModelClass, d: map<string, Value>, key: string): Result<Amount, Error> {
    if key !in d then Err(MissingField(cls, key)) else NestedAmount(cls, key, d[key])
  }

  function OptionalAmount(cls: ModelClass, d: map<string, Value>, key: string): Result<Option<Amount>, Error> {
    if key !in d || d[key].Null? then Ok(None)
    else var a :- NestedAmount(cls, key, d[key]); Ok(Some(a))
  }

  function OptionalTransfer(cls: ModelClass, d: map<string, Value>, key: string): Result<Option<RecurringTransfer>, Error> {
    if key !in d || d[key].Null? then Ok(None)
    else var t :- NestedTransfer(cls, key, d[key]); Ok(Some(t))
  }

  // ----- records -----

  /** `RecurrenceRule.model_validate` on a dictionary. */
  function ValidateRule(d: map<string, Value>): (r: Result<RecurrenceRule, Error>)
    ensures r.Ok? <==> "startDate" in d && d["startDate"].Str? && ("frequency" in d ==> d["frequency"].Str?)
    ensures r.Ok? ==> RuleRequired <= d.Keys && d["startDate"] == Str(r.value.startDate)
    ensures r.Ok? ==> r.value.frequency == if "frequency" in d then d["frequency"].s else DefaultFrequency
    ensures "startDate" !in d ==> r == Err(MissingField(RecurrenceRuleClass, "startDate"))
  {
    var startDate :- RequiredStr(RecurrenceRuleClass, d, "startDate");
    var frequency :- StrOrDefault(RecurrenceRuleClass, d, "frequency", DefaultFrequency);
    Ok(RecurrenceRule(startDate, frequency))
  }

  /** `Amount.model_validate` on a dictionary. */
  function ValidateAmount(d: map<string, Value>): (r: Result<Amount, Error>)
    ensures r.Ok? <==> ("currency" in d ==> d["currency"].Str?) && "minorUnits" in d && d["minorUnits"].Int?
    ensures r.Ok? ==> AmountRequired <= d.Keys && d["minorUnits"] == Int(r.value.minorUnits)
    ensures r.Ok? ==> r.value.currency == if "currency" in d then d["currency"].s else DefaultCurrency
    ensures "minorUnits" !in d ==> r.Err?
  {
    var currency :- StrOrDefault(AmountClass, d, "currency", DefaultCurrency);
    var minorUnits :- RequiredInt(AmountClass, d, "minorUnits");
    Ok(Amount(currency, minorUnits))
  }

  /** `RecurringTransfer.model_validate` on a dictionary. */
  function ValidateTransfer(d: map<string, Value>): (r: Result<RecurringTransfer, Error>)
    ensures r.Ok? <==> ("description" !in d || d["description"].Null? || d["description"].Str?)
                       && "transferUid" in d && d["transferUid"].Str?
                       && "recurrenceRule" in d && NestedRule(RecurringTransferClass, "recurrenceRule", d["recurrenceRule"]).Ok?
                       && "currencyAndAmount" in d && NestedAmount(RecurringTransferClass, "currencyAndAmount", d["currencyAndAmount"]).Ok?
                       && ("reference" !in d || d["reference"].Null? || d["reference"].Str?)
    ensures r.Ok? ==> TransferRequired <= d.Keys && d["transferUid"] == Str(r.value.transferUid)
    ensures r.Ok? ==> NestedRule(RecurringTransferClass, "recurrenceRule", d["recurrenceRule"]) == Ok(r.value.recurrenceRule)
    ensures r.Ok? ==> NestedAmount(RecurringTransferClass, "currencyAndAmount", d["currencyAndAmount"]) == Ok(r.value.currencyAndAmount)
    ensures r.Ok? && ("description" !in d || d["description"].Null?) ==> r.value.description == None
    ensures r.Ok? && ("reference" !in d || d["reference"].Null?) ==> r.value.reference == None
    ensures r.Ok? && "description" in d && d["description"].Str? ==> r.value.description == Some(d["description"].s)
    ensures r.Ok? && "reference" in d && d["reference"].Str? ==> r.value.reference == Some(d["reference"].s)
  {
    var description :- OptionalStr(RecurringTransferClass, d, "description");
    var transferUid :- RequiredStr(RecurringTransferClass, d, "transferUid");
    var recurrenceRule :- if "recurrenceRule" !in d then Err(MissingField(RecurringTransferClass, "recurrenceRule"))
                          else NestedRule(RecurringTransferClass, "recurrenceRule", d["recurrenceRule"]);
    var currencyAndAmount :- RequiredAmount(RecurringTransferClass, d, "currencyAndAmount");
    var reference :- OptionalStr(RecurringTransferClass, d, "reference");
    Ok(RecurringTransfer(description, transferUid, recurrenceRule, currencyAndAmount, reference))
  }

  /** `SavingsSpace.model_validate` on a dictionary. */
  function ValidateSpace(d: map<string, Value>): (r: Result<SavingsSpace, Error>)
    ensures r.Ok? <==> "savingsGoalUid" in d && d["savingsGoalUid"].Str? && "name" in d && d["name"].Str?
                       && ("target" !in d || d["target"].Null? || NestedAmount(SavingsSpaceClass, "target", d["target"]).Ok?)
                       && "totalSaved" in d && NestedAmount(SavingsSpaceClass, "totalSaved", d["totalSaved"]).Ok?
                       && ("savedPercentage" !in d || d["savedPercentage"].Null? || d["savedPercentage"].Int?)
                       && "state" in d && d["state"].Str?
                       && ("recurringTransfer" !in d || d["recurringTransfer"].Null?
                           || NestedTransfer(SavingsSpaceClass, "recurringTransfer", d["recurringTransfer"]).Ok?)
    ensures r.Ok? ==> SpaceRequired <= d.Keys
    ensures r.Ok? ==> d["savingsGoalUid"] == Str(r.value.savingsGoalUid) && d["name"] == Str(r.value.name)
                      && d["state"] == Str(r.value.state)
    ensures r.Ok? ==> NestedAmount(SavingsSpaceClass, "totalSaved", d["totalSaved"]) == Ok(r.value.totalSaved)
    ensures r.Ok? && ("target" !in d || d["target"].Null?) ==> r.value.target == None
    ensures r.Ok? && ("savedPercentage" !in d || d["savedPercentage"].Null?) ==> r.value.savedPercentage == None
    ensures r.Ok? && ("recurringTransfer" !in d || d["recurringTransfer"].Null?) ==> r.value.recurringTransfer == None
    ensures r.Ok? && "savedPercentage" in d && d["savedPercentage"].Int? ==> r.value.savedPercentage == Some(d["savedPercentage"].i)
    ensures r.Ok? && "target" in d && !d["target"].Null?
            ==> r.value.target == Some(NestedAmount(SavingsSpaceClass, "target", d["target"]).value)
    ensures r.Ok? && "recurringTransfer" in d && !d["recurringTransfer"].Null?
            ==> r.value.recurringTransfer == Some(NestedTransfer(SavingsSpaceClass, "recurringTransfer", d["recurringTransfer"]).value)
  {
    var savingsGoalUid :- RequiredStr(SavingsSpaceClass, d, "savingsGoalUid");
    var name :- RequiredStr(SavingsSpaceClass, d, "name");
    var target :- OptionalAmount(SavingsSpaceClass, d, "target");
    var totalSaved :- RequiredAmount(SavingsSpaceClass, d, "totalSaved");
    var savedPercentage :- OptionalInt(SavingsSpaceClass, d, "savedPercentage");
    var state :- RequiredStr(SavingsSpaceClass, d, "state");
    var recurringTransfer :- OptionalTransfer(SavingsSpaceClass, d, "recurringTransfer");
    Ok(SavingsSpace(savingsGoalUid, name, target, totalSaved, savedPercentage, state, recurringTransfer))
  }

  /** `cls.model_validate(v)`: a dictionary is validated as `cls`, an instance of `cls` is returned unchanged. */
  function ModelValidate(cls: ModelClass, v: Value): (r: Result<Model, Error>)
    ensures r.Ok? ==> r.value.Class() == cls
    ensures v.Instance? && v.model.Class() == cls ==> r == Ok(v.model)
    ensures !v.Object? && !v.Instance? ==> r == Err(NotModelInput(cls))
  {
    match v
    case Object(d) =>
      (match cls
       case RecurrenceRuleClass => var x :- ValidateRule(d); Ok(RuleModel(x))
       case AmountClass => var x :- ValidateAmount(d); Ok(AmountModel(x))
       case RecurringTransferClass => var x :- ValidateTransfer(d); Ok(TransferModel(x))
       case SavingsSpaceClass => var x :- ValidateSpace(d); Ok(SpaceModel(x)))
    case Instance(m) => if m.Class() == cls then Ok(m) else Err(NotModelInput(cls))
    case _ => Err(NotModelInput(cls))
  }

  // ----- wire shape -----

  function OptStrToJson(o: Option<string>): Value {
    match o
    case None => Null
    case Some(s) => Str(s)
  }

  function RuleToJson(r: RecurrenceRule): map<string, Value> {
    map["startDate" := Str(r.startDate), "frequency" := Str(r.frequency)]
  }

  function AmountToJson(a: Amount): map<string, Value> {
    map["currency" := Str(a.currency), "minorUnits" := Int(a.minorUnits)]
  }

  function TransferToJson(t: RecurringTransfer): map<string, Value> {
    map["description" := OptStrToJson(t.description),
        "transferUid" := Str(t.transferUid),
        "recurrenceRule" := Object(RuleToJson(t.recurrenceRule)),
        "currencyAndAmount" := Object(AmountToJson(t.currencyAndAmount)),
        "reference" := OptStrToJson(t.reference)]
  }

  function SpaceToJson(s: SavingsSpace): map<string, Value> {
    map["savingsGoalUid" := Str(s.savingsGoalUid),
        "name" := Str(s.name),
        "target" := (match s.target case None => Null case Some(a) => Object(AmountToJson(a))),
        "totalSaved" := Object(AmountToJson(s.totalSaved)),
        "savedPercentage" := (match s.savedPercentage case None => Null case Some(p) => Int(p)),
        "state" := Str(s.state),
        "recurringTransfer" := (match s.recurringTransfer case None => Null case Some(t) => Object(TransferToJson(t)))]
  }

  function ModelToJson(m: Model): map<string, Value> {
    match m
    case RuleModel(r) => RuleToJson(r)
    case AmountModel(a) => AmountToJson(a)
    case TransferModel(t) => TransferToJson(t)
    case SpaceModel(s) => SpaceToJson(s)
  }

  // ----- round trips -----

  lemma TransferRoundTrip(t: RecurringTransfer)
    ensures ValidateTransfer(TransferToJson(t)) == Ok(t)
  {
  }

  lemma SpaceRoundTrip(s: SavingsSpace)
    ensures ValidateSpace(SpaceToJson(s)) == Ok(s)
  {
    var d := SpaceToJson(s);
    assert RequiredStr(SavingsSpaceClass, d, "savingsGoalUid") == Ok(s.savingsGoalUid);
    assert RequiredStr(SavingsSpaceClass, d, "name") == Ok(s.name);
    assert RequiredStr(SavingsSpaceClass, d, "state") == Ok(s.state);
    assert ValidateAmount(AmountToJson(s.totalSaved)) == Ok(s.totalSaved);
    assert RequiredAmount(SavingsSpaceClass, d, "totalSaved") == Ok(s.totalSaved);
    assert OptionalAmount(SavingsSpaceClass, d, "target") == Ok(s.target);
    assert OptionalInt(SavingsSpaceClass, d, "savedPercentage") == Ok(s.savedPercentage);
    if s.recurringTransfer.Some? {
      TransferRoundTrip(s.recurringTransfer.value);
    }
    assert OptionalTransfer(SavingsSpaceClass, d, "recurringTransfer") == Ok(s.recurringTransfer);
  }

  /** Writing any instance out in its wire shape and validating it as its class gives the instance back. */
  lemma ModelRoundTrip(m: Model)
    ensures ModelValidate(m.Class(), Object(ModelToJson(m))) == Ok(m)
  {
    match m
    case RuleModel(r) =>
    case AmountModel(a) =>
    case TransferModel(t) => TransferRoundTrip(t);
    case SpaceModel(s) => SpaceRoundTrip(s);
  }

  /** Validating a flat Amount payload and writing it back keeps both declared fields, filling the default currency. */
  lemma AmountFieldsPreserved(d: map<string, Value>)
    requires ValidateAmount(d).Ok?
    ensures var w := AmountToJson(ValidateAmount(d).value);
      w["minorUnits"] == d["minorUnits"] && w["currency"] == (if "currency" in d then d["currency"] else Str(DefaultCurrency))
  {
  }

  /** Likewise for a RecurrenceRule payload, filling the default frequency. */
  lemma RuleFieldsPreserved(d: map<string, Value>)
    requires ValidateRule(d).Ok?
    ensures var w := RuleToJson(ValidateRule(d).value);
      w["startDate"] == d["startDate"] && w["frequency"] == (if "frequency" in d then d["frequency"] else Str(DefaultFrequency))
  {
  }

  /** A nested field accepts exactly what `model_validate` of its class accepts, with the same record. */
  lemma NestedRuleAgrees(cls: ModelClass, key: string, v: Value)
    ensures ModelValidate(RecurrenceRuleClass, v).Ok? ==> NestedRule(cls, key, v) == Ok(ModelValidate(RecurrenceRuleClass, v).value.rule)
    ensures NestedRule(cls, key, v).Ok? ==> ModelValidate(RecurrenceRuleClass, v) == Ok(RuleModel(NestedRule(cls, key, v).value))
  {
  }

  lemma NestedAmountAgrees(cls: ModelClass, key: string, v: Value)
    ensures ModelValidate(AmountClass, v).Ok? ==> NestedAmount(cls, key, v) == Ok(ModelValidate(AmountClass, v).value.amount)
    ensures NestedAmount(cls, key, v).Ok? ==> ModelValidate(AmountClass, v) == Ok(AmountModel(NestedAmount(cls, key, v).value))
  {
  }

  // ----- the payloads of the test suite -----

  /** The recurring transfer the API answers with: no description and no reference, extra keys ignored. */
  lemma TransferFixtureValidates()
    ensures var rule := map["startDate" := Str("2023-01-01"), "frequency" := Str("DAILY"),
                             "interval" := Int(2), "count" := Int(10),
                             "untilDate" := Str("2023-01-01"), "days" := List([Str("MONDAY")])];
            var amount := map["currency" := Str("GBP"), "minorUnits" := Int(123456)];
            var d := map["transferUid" := Str("88998899-8899-8899-8899-889988998899"),
                         "recurrenceRule" := Object(rule), "currencyAndAmount" := Object(amount),
                         "nextPaymentDate" := Str("2023-01-01")];
            ValidateTransfer(d) == Ok(RecurringTransfer(None, "88998899-8899-8899-8899-889988998899",
                                                        RecurrenceRule("2023-01-01", "DAILY"), Amount("GBP", 123456), None))
  {
  }

  /** A savings goal as listed by the API: no recurring transfer of its own. */
  lemma GoalFixtureValidates()
    ensures var d := map["savingsGoalUid" := Str("77887788-7788-7788-7788-778877887788"),
                         "name" := Str("Trip to Paris"),
                         "target" := Object(map["currency" := Str("GBP"), "minorUnits" := Int(100000)]),
                         "totalSaved" := Object(map["currency" := Str("GBP"), "minorUnits" := Int(50000)]),
                         "savedPercentage" := Int(50), "state" := Str("ACTIVE")];
            ValidateSpace(d) == Ok(SavingsSpace("77887788-7788-7788-7788-778877887788", "Trip to Paris",
                                                Some(Amount("GBP", 100000)), Amount("GBP", 50000), Some(50), "ACTIVE", None))
  {
  }
}
