/** The decisions of the value-for-value recipients view: which route error
    belongs to which recipient, the total's label and value, and whether the
    fees header is shown. */
module V4VRecipientsInfo {
  import opened Js
  import opened Seqs
  import opened Decimal
  import opened V4VTypes

  const AmountPaidLabel: string := "amount paid"
  const TotalAmountLabel: string := "total amount"

  /** An error belongs to a recipient: on key, value and address when the
      recipient has both a custom key and a custom value, else on address. */
  function ErrorMatchesRecipient(recipient: ValueRecipient, e: ValueTransactionRouteError): (m: bool)
    ensures StrTruthy(recipient.customKey) && StrTruthy(recipient.customValue) ==>
      (m <==> e.customKey == recipient.customKey && e.customValue == recipient.customValue &&
              e.address == recipient.address)
    ensures !(StrTruthy(recipient.customKey) && StrTruthy(recipient.customValue)) ==>
      (m <==> e.address == recipient.address)
  {
    (StrTruthy(recipient.customKey) && StrTruthy(recipient.customValue) &&
      e.customKey == recipient.customKey && e.customValue == recipient.customValue &&
      e.address == recipient.address)
    || ((!StrTruthy(recipient.customKey) || !StrTruthy(recipient.customValue)) &&
      e.address == recipient.address)
  }

  function MatchesRecipient(recipient: ValueRecipient): ValueTransactionRouteError -> bool {
    (e: ValueTransactionRouteError) => ErrorMatchesRecipient(recipient, e)
  }

  /** The error shown for a recipient: the first matching entry, if any. */
  function ErroringFor(recipient: ValueRecipient, errors: seq<ValueTransactionRouteError>)
    : (found: Option<ValueTransactionRouteError>)
    ensures found.None? <==> forall i :: 0 <= i < |errors| ==> !ErrorMatchesRecipient(recipient, errors[i])
    ensures found.Some? ==>
      exists i :: 0 <= i < |errors| && errors[i] == found.value && ErrorMatchesRecipient(recipient, found.value) &&
        forall j :: 0 <= j < i ==> !ErrorMatchesRecipient(recipient, errors[j])
  {
    var r := Find(errors, MatchesRecipient(recipient));
    assert r.Some? ==> IsFirstMatch(errors, MatchesRecipient(recipient), r.value);
    r
  }

  /** How the total is given: a number or a string. */
  datatype TotalAmount = AmountNumber(n: int) | AmountText(s: string)

  /** The total as displayed. */
  datatype ShownTotal = ShownNumber(n: int) | ShownNaN | ShownUndefined

  /** One recipient line: name, split, amount, and the error message if any. */
  datatype RecipientRow = RecipientRow(name: string, split: int, amount: int, error: Option<string>)

  datatype RecipientsView = RecipientsView(
    recipientRows: seq<RecipientRow>,
    showFeesHeader: bool,
    feeRows: seq<RecipientRow>,
    totalLabel: string,
    total: ShownTotal)

  datatype Props = Props(
    activeValueTag: Option<ValueTag>,
    erroringTransactions: Option<seq<ValueTransactionRouteError>>,
    feeTransactions: seq<ValueTransaction>,
    isReceipt: bool,
    nonFeeTransactions: seq<ValueTransaction>,
    totalAmount: Option<TotalAmount>)

  /** `parsedTotalAmount`: a string total is parsed in base 10. */
  function ParsedTotal(totalAmount: Option<TotalAmount>): (t: ShownTotal)
    ensures totalAmount.None? ==> t.ShownUndefined?
    ensures totalAmount.Some? && totalAmount.value.AmountNumber? ==> t == ShownNumber(totalAmount.value.n)
    ensures totalAmount.Some? && totalAmount.value.AmountText? ==>
      t == match ParseInt(totalAmount.value.s) case Some(n) => ShownNumber(n) case None => ShownNaN
  {
    match totalAmount
    case None => ShownUndefined
    case Some(AmountNumber(n)) => ShownNumber(n)
    case Some(AmountText(s)) =>
      match ParseInt(s)
      case Some(n) => ShownNumber(n)
      case None => ShownNaN
  }

  /** A total given as the decimal text of a number shows that number. */
  lemma TextTotalShowsItsNumber(n: int)
    ensures ParsedTotal(Some(AmountText(IntToString(n)))) == ShownNumber(n)
  {
    ParseIntRoundTrip(n);
  }

  /** A recipient's line: its own name, split and amount, and the message of
      the first route error that matches it. */
  function RowFor(t: ValueTransaction, errors: seq<ValueTransactionRouteError>): (row: RecipientRow)
    ensures var r := t.normalizedValueRecipient;
      row.name == r.name && row.split == r.split && row.amount == r.amount
    ensures row.error.Some? <==>
      exists i :: 0 <= i < |errors| && ErrorMatchesRecipient(t.normalizedValueRecipient, errors[i])
    ensures row.error.Some? ==>
      exists i :: 0 <= i < |errors| && errors[i].message == row.error.value &&
        ErrorMatchesRecipient(t.normalizedValueRecipient, errors[i]) &&
        forall j :: 0 <= j < i ==> !ErrorMatchesRecipient(t.normalizedValueRecipient, errors[j])
  {
    var r := t.normalizedValueRecipient;
    var erroring := ErroringFor(r, errors);
    RecipientRow(r.name, r.split, r.amount, if erroring.Some? then Some(erroring.value.message) else None)
  }

  function Rows(ts: seq<ValueTransaction>, errors: seq<ValueTransactionRouteError>): (rows: seq<RecipientRow>)
    ensures |rows| == |ts|
    ensures forall i :: 0 <= i < |ts| ==> rows[i] == RowFor(ts[i], errors)
  {
    seq(|ts|, i requires 0 <= i < |ts| => RowFor(ts[i], errors))
  }

  /** What `render` decides: nothing without an active value tag; otherwise a
      row per transaction with its first matching error, the fees header only
      when there are fee transactions, and the labelled total. */
  function RenderRecipientsInfo(props: Props): (v: Option<RecipientsView>)
    ensures v.None? <==> props.activeValueTag.None?
    ensures v.Some? ==>
      var errors := props.erroringTransactions.GetOr([]);
      && v.value.recipientRows == Rows(props.nonFeeTransactions, errors)
      && v.value.feeRows == Rows(props.feeTransactions, errors)
      && (v.value.showFeesHeader <==> |props.feeTransactions| > 0)
      && v.value.totalLabel == (if props.isReceipt then AmountPaidLabel else TotalAmountLabel)
      && v.value.total == ParsedTotal(props.totalAmount)
  {
    if props.activeValueTag.None? then None
    else
      var errors := props.erroringTransactions.GetOr([]);
      Some(RecipientsView(
        Rows(props.nonFeeTransactions, errors),
        |props.feeTransactions| > 0,
        Rows(props.feeTransactions, errors),
        if props.isReceipt then AmountPaidLabel else TotalAmountLabel,
        ParsedTotal(props.totalAmount)))
  }

  /** Without erroring transactions no recipient row shows an error. */
  lemma NoErrorsMarksNoRecipient(props: Props)
    requires props.activeValueTag.Some? && props.erroringTransactions.None?
    ensures var v := RenderRecipientsInfo(props).value;
      && (forall i :: 0 <= i < |v.recipientRows| ==> v.recipientRows[i].error.None?)
      && (forall i :: 0 <= i < |v.feeRows| ==> v.feeRows[i].error.None?)
  {
  }

  /** In the rendered view, the recipient row at position i belongs to the
      i-th transaction and shows an error exactly when some route error
      matches that transaction's recipient. */
  lemma RowErrorIsFirstMatch(props: Props, i: nat)
    requires props.activeValueTag.Some? && i < |props.nonFeeTransactions|
    ensures var v := RenderRecipientsInfo(props).value;
      var recipient := props.nonFeeTransactions[i].normalizedValueRecipient;
      var errors := props.erroringTransactions.GetOr([]);
      && i < |v.recipientRows|
      && v.recipientRows[i].name == recipient.name
      && (v.recipientRows[i].error.Some? <==>
            exists k :: 0 <= k < |errors| && ErrorMatchesRecipient(recipient, errors[k]))
  {
    var errors := props.erroringTransactions.GetOr([]);
    var row := RowFor(props.nonFeeTransactions[i], errors);
    assert RenderRecipientsInfo(props).value.recipientRows[i] == row;
  }
}
