/** The customer dashboard: how a booking's status and payment status are shown, and which
    actions its card offers. The page receives the statuses as the texts of the API. */
module Dashboard {
  import opened Domain

  const Green := "bg-green-100 text-green-800"
  const Yellow := "bg-yellow-100 text-yellow-800"
  const Red := "bg-red-100 text-red-800"
  const Gray := "bg-gray-100 text-gray-800"

  /** getStatusColor: a colour per known booking status, gray for anything else. */
  function StatusColor(status: string): (c: string)
    ensures c == Green <==> status == "confirmed"
    ensures c == Yellow <==> status == "pending"
    ensures c == Red <==> status == "cancelled"
    ensures c == Gray <==> status !in {"confirmed", "pending", "cancelled"}
  {
    if status == "confirmed" then Green
    else if status == "pending" then Yellow
    else if status == "cancelled" then Red
    else Gray
  }

  /** formatStatus: the Portuguese label of a known booking status; any other text as is. */
  function FormatStatus(status: string): (r: string)
    ensures status == "confirmed" ==> r == "Confirmado"
    ensures status == "pending" ==> r == "Pendente"
    ensures status == "cancelled" ==> r == "Cancelado"
    ensures status !in {"confirmed", "pending", "cancelled"} ==> r == status
  {
    if status == "confirmed" then "Confirmado"
    else if status == "pending" then "Pendente"
    else if status == "cancelled" then "Cancelado"
    else status
  }

  /** formatPaymentStatus: the Portuguese label of a known payment status; any other text
      as is. */
  function FormatPaymentStatus(status: string): (r: string)
    ensures status == "pending" ==> r == "Pendente"
    ensures status == "paid" ==> r == "Pago"
    ensures status == "failed" ==> r == "Falhou"
    ensures status !in {"pending", "paid", "failed"} ==> r == status
  {
    if status == "pending" then "Pendente"
    else if status == "paid" then "Pago"
    else if status == "failed" then "Falhou"
    else status
  }

  /** The cancel button is shown for a pending booking. */
  predicate CancelShown(status: string)
  {
    status == "pending"
  }

  /** The pay button sits inside the cancel block and also needs a pending payment. */
  predicate PayShown(status: string, paymentStatus: string)
  {
    CancelShown(status) && paymentStatus == "pending"
  }

  /** What the card of one booking shows. */
  datatype Card = Card(color: string, statusLabel: string, paymentLabel: string, cancel: bool, pay: bool)

  function CardOf(b: Agendamento): (c: Card)
    ensures c.pay ==> c.cancel
    ensures c.cancel <==> b.status == Pending
    ensures c.pay <==> b.status == Pending && b.paymentStatus == PaymentPending
    ensures c.color != Gray
    ensures c.statusLabel != StatusName(b.status) && c.paymentLabel != PaymentStatusName(b.paymentStatus)
  {
    var s := StatusName(b.status);
    var p := PaymentStatusName(b.paymentStatus);
    Card(StatusColor(s), FormatStatus(s), FormatPaymentStatus(p), CancelShown(s), PayShown(s, p))
  }

  /** Every status the model can hold has its own colour and a translated label. */
  lemma KnownStatusesAreDistinguished(s: BookingStatus, t: BookingStatus)
    ensures s != t ==> StatusColor(StatusName(s)) != StatusColor(StatusName(t))
    ensures s != t ==> FormatStatus(StatusName(s)) != FormatStatus(StatusName(t))
  {
  }
}
