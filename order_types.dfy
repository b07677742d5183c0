/**
 * The order vocabulary: the four known order statuses with their labels and
 * colours, the payment method labels, and the two customer types.
 */
module OrderTypes {
  import opened Wrappers

  datatype Status = Pending | Processing | Completed | Cancelled

  /** The name the API uses for a status. */
  function StatusName(s: Status): string
  {
    match s
    case Pending => "pending"
    case Processing => "processing"
    case Completed => "completed"
    case Cancelled => "cancelled"
  }

  /** The known status a name stands for, if any. */
  function ParseStatus(name: string): (r: Option<Status>)
    ensures r.Some? ==> StatusName(r.value) == name
    ensures r.None? <==> name !in StatusLabels
  {
    if name == "pending" then Some(Pending)
    else if name == "processing" then Some(Processing)
    else if name == "completed" then Some(Completed)
    else if name == "cancelled" then Some(Cancelled)
    else None
  }

  const StatusLabels: map<string, string> :=
    map["pending" := "Pendiente", "processing" := "En proceso", "completed" := "Completado", "cancelled" := "Cancelado"]

  const StatusColors: map<string, string> :=
    map["pending" := "warning", "processing" := "info", "completed" := "success", "cancelled" := "error"]

  const PaymentMethodLabels: map<string, string> :=
    map["ef" := "Efectivo", "trans" := "Transferencia", "mp" := "Mercado Pago"]

  /** The payment method the order service falls back to. */
  const DefaultPaymentMethod: string := "ef"

  /** `customer_type`: private customer or wholesaler. */
  datatype CustomerType = Particular | Wholesale

  function CustomerCode(c: CustomerType): string
  {
    match c
    case Particular => "p"
    case Wholesale => "m"
  }

  function ParseCustomerType(code: string): (r: Option<CustomerType>)
    ensures r.Some? ==> CustomerCode(r.value) == code
    ensures r.None? <==> code != "p" && code != "m"
  {
    if code == "p" then Some(Particular) else if code == "m" then Some(Wholesale) else None
  }

  /** Names and statuses are in one-to-one correspondence. */
  lemma StatusNameRoundTrip(s: Status, name: string)
    ensures ParseStatus(StatusName(s)) == Some(s)
    ensures ParseStatus(name) == Some(s) <==> StatusName(s) == name
  {
  }

  /** Labels and colours are given for exactly the four known statuses. */
  lemma StatusTablesCover()
    ensures StatusLabels.Keys == StatusColors.Keys == {"pending", "processing", "completed", "cancelled"}
    ensures forall s: Status :: StatusName(s) in StatusLabels && StatusName(s) in StatusColors
    ensures forall name :: name in StatusLabels <==> ParseStatus(name).Some?
  {
  }

  /** Each status has its own colour: pending warns, processing informs,
      completed succeeds and cancelled is an error. */
  lemma StatusColorsSpec()
    ensures StatusColors[StatusName(Pending)] == "warning"
    ensures StatusColors[StatusName(Processing)] == "info"
    ensures StatusColors[StatusName(Completed)] == "success"
    ensures StatusColors[StatusName(Cancelled)] == "error"
    ensures forall s, t: Status :: s != t ==> StatusColors[StatusName(s)] != StatusColors[StatusName(t)]
  {
  }

  /** The three payment methods have labels, the default among them. */
  lemma PaymentMethodsLabelled()
    ensures PaymentMethodLabels.Keys == {"ef", "trans", "mp"}
    ensures DefaultPaymentMethod in PaymentMethodLabels
  {
  }

  /** A customer type is one of two codes, and each code reads back as its type. */
  lemma CustomerTypeRoundTrip(c: CustomerType)
    ensures ParseCustomerType(CustomerCode(c)) == Some(c)
    ensures CustomerCode(c) in {"p", "m"}
  {
  }
}
