/** Value-for-value records shared by the streaming timer and the recipients view. */
module V4VTypes {
  import opened Js

  /** A value tag of an episode or a podcast. Its recipient splits are read only
      by the queue functions, which are outside this model. */
  datatype ValueTag = ValueTag(valueMethod: string, valueType: string)

  /** A recipient of one split, normalised with the amount it receives. */
  datatype ValueRecipient = ValueRecipient(
    name: string,
    address: string,
    customKey: Option<string>,
    customValue: Option<string>,
    split: int,
    amount: int)

  datatype ValueTransaction = ValueTransaction(normalizedValueRecipient: ValueRecipient)

  /** A transaction that failed to reach one recipient, with the reason. */
  datatype ValueTransactionRouteError = ValueTransactionRouteError(
    customKey: Option<string>,
    customValue: Option<string>,
    address: string,
    message: string)
}
