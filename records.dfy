/**
 * The four typed records of starling_waterfall.py (pydantic models) as plain values,
 * and a tag for each model class so a validator can be chosen by class.
 */
module Records {
  import opened Wrappers

  /** Declared default of `Amount.currency`. */
  const DefaultCurrency: string := "GBP"
  /** Declared default of `RecurrenceRule.frequency`. */
  const DefaultFrequency: string := "MONTHLY"

  datatype RecurrenceRule = RecurrenceRule(startDate: string, frequency: string)

  /** A money amount in minor units (pence for GBP). */
  datatype Amount = Amount(currency: string, minorUnits: int)

  datatype RecurringTransfer = RecurringTransfer(
    description: Option<string>,
    transferUid: string,
    recurrenceRule: RecurrenceRule,
    currencyAndAmount: Amount,
    reference: Option<string>)

  /** A savings goal ("space") of the account. */
  datatype SavingsSpace = SavingsSpace(
    savingsGoalUid: string,
    name: string,
    target: Option<Amount>,
    totalSaved: Amount,
    savedPercentage: Option<int>,
    state: string,
    recurringTransfer: Option<RecurringTransfer>)

  /** The model classes, as passed to `model_validate` or to `transform_childs_class`. */
  datatype ModelClass = RecurrenceRuleClass | AmountClass | RecurringTransferClass | SavingsSpaceClass

  /** An instance of one of the model classes. */
  datatype Model =
    | RuleModel(rule: RecurrenceRule)
    | AmountModel(amount: Amount)
    | TransferModel(transfer: RecurringTransfer)
    | SpaceModel(space: SavingsSpace)
  {
    /** The class this instance belongs to. */
    function Class(): ModelClass {
      match this
      case RuleModel(_) => RecurrenceRuleClass
      case AmountModel(_) => AmountClass
      case TransferModel(_) => RecurringTransferClass
      case SpaceModel(_) => SavingsSpaceClass
    }
  }
}
