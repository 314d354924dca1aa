/**
 * The payment card: the look chosen for a payment's status, with 'pending'
 * as the fallback for any other status, and the empty state shown when
 * there is no payment.
 */
module PaymentDetail {
  import opened Text

  datatype StatusIcon = CheckCircleIcon | ClockIcon | AlertCircleIcon

  datatype StatusConfig = StatusConfig(color: string, bgColor: string, textColor: string, icon: StatusIcon)

  const CompletedConfig := StatusConfig("from-green-500 to-emerald-500", "from-green-50 to-emerald-50", "text-green-700", CheckCircleIcon)
  const PendingConfig := StatusConfig("from-yellow-500 to-orange-500", "from-yellow-50 to-orange-50", "text-yellow-700", ClockIcon)
  const FailedConfig := StatusConfig("from-red-500 to-rose-500", "from-red-50 to-rose-50", "text-red-700", AlertCircleIcon)

  /** `getStatusConfig`: `configs[status] || configs.pending`. */
  function StatusConfigFor(status: Option<string>): (r: StatusConfig)
    ensures status == Some("completed") ==> r == CompletedConfig
    ensures status == Some("failed") ==> r == FailedConfig
    ensures status != Some("completed") && status != Some("failed") ==> r == PendingConfig
  {
    if status == Some("completed") then CompletedConfig
    else if status == Some("pending") then PendingConfig
    else if status == Some("failed") then FailedConfig
    else PendingConfig
  }

  /**
   * The lookup is total and tells the three statuses apart: the icon alone
   * says which of them a payment has, with every unknown or missing status
   * drawn as pending.
   */
  lemma StatusIconIdentifiesStatus(status: Option<string>)
    ensures StatusConfigFor(status) in {CompletedConfig, PendingConfig, FailedConfig}
    ensures StatusConfigFor(status).icon == CheckCircleIcon <==> status == Some("completed")
    ensures StatusConfigFor(status).icon == AlertCircleIcon <==> status == Some("failed")
    ensures StatusConfigFor(status).icon == ClockIcon <==> status != Some("completed") && status != Some("failed")
  {
  }

  datatype Payment = Payment(
    status: Option<string>,
    amount: int,
    transactionId: Option<string>,
    description: Option<string>)

  /** What `PaymentCard` draws. */
  datatype PaymentCardView =
    | NoPaymentHistory
    | PaymentDetails(config: StatusConfig, status: Option<string>,
                     transactionId: Option<string>, description: Option<string>)

  /**
   * The card for a payment, or the empty state. The transaction id and the
   * description blocks appear only when those fields are truthy.
   */
  function RenderPaymentCard(payment: Option<Payment>): (r: PaymentCardView)
    ensures r == NoPaymentHistory <==> payment.None?
    ensures payment.Some? ==> r.config == StatusConfigFor(payment.value.status) && r.status == payment.value.status
    ensures payment.Some? ==> (r.transactionId.Some? <==> Truthy(payment.value.transactionId))
    ensures payment.Some? ==> (r.description.Some? <==> Truthy(payment.value.description))
    ensures payment.Some? && r.transactionId.Some? ==> r.transactionId == payment.value.transactionId
    ensures payment.Some? && r.description.Some? ==> r.description == payment.value.description
  {
    match payment
    case None => NoPaymentHistory
    case Some(p) =>
      PaymentDetails(
        StatusConfigFor(p.status),
        p.status,
        if Truthy(p.transactionId) then p.transactionId else None,
        if Truthy(p.description) then p.description else None)
  }
}
