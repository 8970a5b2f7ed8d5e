/** The simulated payment gateway (EcommerceBe/Services/MockPaymentService.cs):
    an in-memory table of transactions keyed by transaction id. A transaction
    is created Pending; processing it ends in Success or Failed as its
    simulation settings say; it can be cancelled unless it succeeded. */
module MockPayment {
  import opened Common

  datatype PaymentStatus = Pending | Processing | Success | Failed | Cancelled | Expired

  /** MockPaymentSimulation; FailureReason, BankCode and TransactionRef are nullable. */
  datatype Simulation = Simulation(shouldSucceed: bool, delaySeconds: int, failureReason: Option<string>,
                                   bankCode: Option<string>, transactionRef: Option<string>)

  /** The settings `new MockPaymentSimulation()` starts with. */
  const DefaultSimulation: Simulation := Simulation(true, 2, None, Some("MOCK_BANK"), None)

  /** MockPaymentRequestDto. */
  datatype PaymentRequest = PaymentRequest(orderId: string, amount: int, orderInfo: string, customerName: string,
                                           customerEmail: string, customerPhone: string, paymentMethod: string,
                                           simulation: Option<Simulation>)

  /** A stored MockPaymentTransaction; ResponseCode and Message are nullable. */
  datatype Transaction = Transaction(transactionId: string, orderId: string, amount: int, paymentMethod: string,
                                     customerName: string, customerEmail: string, customerPhone: string,
                                     orderInfo: string, status: PaymentStatus, simulation: Simulation,
                                     responseCode: Option<string>, message: Option<string>)

  datatype CreateResponse = CreateResponse(success: bool, paymentUrl: string, message: string, orderId: string,
                                           transactionId: string, paymentMethod: string, status: PaymentStatus)

  datatype Callback = Callback(orderId: string, transactionId: string, amount: int, paymentMethod: string,
                               status: PaymentStatus, responseCode: string, message: string,
                               bankCode: Option<string>, bankTransactionRef: Option<string>)

  datatype StatusReport = StatusReport(orderId: string, transactionId: string, status: PaymentStatus, message: string)

  datatype Verification = Verification(orderId: string, transactionId: string, isValid: bool,
                                       status: PaymentStatus, message: string)

  /** GetStatusMessage. */
  function StatusMessage(status: PaymentStatus): string
  {
    match status
    case Pending => "Payment is pending"
    case Processing => "Payment is being processed"
    case Success => "Payment completed successfully"
    case Failed => "Payment failed"
    case Cancelled => "Payment was cancelled"
    case Expired => "Payment has expired"
  }

  /** Every status has its own message. */
  lemma StatusMessageDistinct(a: PaymentStatus, b: PaymentStatus)
    ensures StatusMessage(a) == StatusMessage(b) ==> a == b
  {
  }

  /** The message a report shows: the stored one, else the status message. */
  function ShownMessage(t: Transaction): (m: string)
    ensures t.message.Some? ==> m == t.message.value
    ensures t.message.None? ==> m == StatusMessage(t.status)
  {
    if t.message.Some? then t.message.value else StatusMessage(t.status)
  }

  /** The transaction CreatePaymentAsync stores. */
  function NewTransaction(request: PaymentRequest, transactionId: string): (t: Transaction)
    ensures t.status == Pending && t.transactionId == transactionId && t.orderId == request.orderId
    ensures t.amount == request.amount && t.paymentMethod == request.paymentMethod
    ensures t.simulation == if request.simulation.Some? then request.simulation.value else DefaultSimulation
    ensures t.responseCode.None? && t.message.None?
  {
    Transaction(transactionId, request.orderId, request.amount, request.paymentMethod, request.customerName,
                request.customerEmail, request.customerPhone, request.orderInfo, Pending,
                if request.simulation.Some? then request.simulation.value else DefaultSimulation, None, None)
  }

  /** The payment page address handed back for a transaction. */
  function PaymentUrl(transactionId: string): string
  {
    "/api/mockpayment/process/" + transactionId
  }

  /** The transaction after ProcessPaymentAsync: the Processing status it
      passes through is overwritten by the outcome its simulation settings pick. */
  function Processed(t: Transaction): (r: Transaction)
    ensures r.status == (if t.simulation.shouldSucceed then Success else Failed)
    ensures r.responseCode == Some(if t.simulation.shouldSucceed then "00" else "05")
    ensures r.message == Some(if t.simulation.shouldSucceed then "Payment successful"
                              else if t.simulation.failureReason.Some? then t.simulation.failureReason.value
                              else "Payment failed")
    ensures r == t.(status := r.status, responseCode := r.responseCode, message := r.message)
  {
    if t.simulation.shouldSucceed then t.(status := Success, responseCode := Some("00"), message := Some("Payment successful"))
    else t.(status := Failed, responseCode := Some("05"),
            message := Some(if t.simulation.failureReason.Some? then t.simulation.failureReason.value else "Payment failed"))
  }

  /** The callback ProcessPaymentAsync answers for a known transaction. */
  function ProcessCallback(t: Transaction): (c: Callback)
    ensures c.status == Processed(t).status && c.responseCode == Processed(t).responseCode.value
    ensures c.message == Processed(t).message.value
    ensures c.bankTransactionRef == Some(if t.simulation.transactionRef.Some? then t.simulation.transactionRef.value
                                         else "MOCK_" + t.transactionId)
  {
    var p := Processed(t);
    Callback(t.orderId, t.transactionId, t.amount, t.paymentMethod, p.status, p.responseCode.value, p.message.value,
             t.simulation.bankCode,
             Some(if t.simulation.transactionRef.Some? then t.simulation.transactionRef.value else "MOCK_" + t.transactionId))
  }

  /** The transaction after a successful CancelPaymentAsync. */
  function CancelledTx(t: Transaction): (r: Transaction)
    ensures r.status == Cancelled && r.message == Some("Payment cancelled")
    ensures r == t.(status := Cancelled, message := Some("Payment cancelled"))
  {
    t.(status := Cancelled, message := Some("Payment cancelled"))
  }

  /** Processing ends in Success or Failed, and doing it twice is the same as
      doing it once: the simulation settings do not change. */
  lemma ProcessingSettles(t: Transaction)
    ensures Processed(t).status == Success || Processed(t).status == Failed
    ensures Processed(t).status == Success <==> Processed(t).responseCode == Some("00")
    ensures Processed(Processed(t)) == Processed(t)
    ensures Processed(t).simulation == t.simulation && Processed(t).orderId == t.orderId
  {
  }

  /** Processing has no status guard: a cancelled transaction whose
      simulation succeeds becomes Success when processed again, and from then
      on it can no longer be cancelled. */
  lemma ProcessingAfterCancel(t: Transaction)
    requires t.simulation.shouldSucceed
    ensures Processed(CancelledTx(t)).status == Success
    ensures Processed(CancelledTx(t)).message == Some("Payment successful")
  {
  }

  /** The transaction table. */
  class MockPaymentService {
    var payments: map<string, Transaction>

    /** Every transaction is stored under its own id. */
    ghost predicate Valid()
      reads this
    {
      forall id :: id in payments ==> payments[id].transactionId == id
    }

    constructor ()
      ensures Valid() && payments == map[]
    {
      payments := map[];
    }

    /** CreatePaymentAsync; transactionId is the id GenerateTransactionId drew. */
    method CreatePayment(request: PaymentRequest, transactionId: string) returns (r: CreateResponse)
      requires Valid()
      modifies this
      ensures Valid()
      ensures payments == old(payments)[transactionId := NewTransaction(request, transactionId)]
      ensures r == CreateResponse(true, PaymentUrl(transactionId), "Payment initiated successfully",
                                  request.orderId, transactionId, request.paymentMethod, Pending)
    {
      payments := payments[transactionId := NewTransaction(request, transactionId)];
      r := CreateResponse(true, PaymentUrl(transactionId), "Payment initiated successfully",
                          request.orderId, transactionId, request.paymentMethod, Pending);
    }

    /** ProcessPaymentAsync: an unknown id is answered Failed/"01" and nothing changes. */
    method ProcessPayment(transactionId: string) returns (c: Callback)
      requires Valid()
      modifies this
      ensures Valid()
      ensures transactionId !in old(payments) ==>
        payments == old(payments) &&
        c == Callback("", transactionId, 0, "", Failed, "01", "Transaction not found", None, None)
      ensures transactionId in old(payments) ==>
        payments == old(payments)[transactionId := Processed(old(payments)[transactionId])] &&
        c == ProcessCallback(old(payments)[transactionId])
    {
      if transactionId !in payments {
        return Callback("", transactionId, 0, "", Failed, "01", "Transaction not found", None, None);
      }
      var t := payments[transactionId];
      t := t.(status := Processing);
      var finalStatus, responseCode, message;
      if t.simulation.shouldSucceed {
        finalStatus, responseCode, message := Success, "00", "Payment successful";
      } else {
        finalStatus, responseCode := Failed, "05";
        message := if t.simulation.failureReason.Some? then t.simulation.failureReason.value else "Payment failed";
      }
      t := t.(status := finalStatus, responseCode := Some(responseCode), message := Some(message));
      payments := payments[transactionId := t];
      c := Callback(t.orderId, transactionId, t.amount, t.paymentMethod, finalStatus, responseCode, message,
                    t.simulation.bankCode,
                    Some(if t.simulation.transactionRef.Some? then t.simulation.transactionRef.value else "MOCK_" + transactionId));
    }

    /** GetPaymentStatusAsync: some transaction of the order (the dictionary's
        enumeration order picks which one), or "Payment not found". */
    method GetPaymentStatus(orderId: string) returns (r: StatusReport)
      ensures (forall id :: id in payments ==> payments[id].orderId != orderId) ==>
        r == StatusReport(orderId, "", Failed, "Payment not found")
      ensures (exists id :: id in payments && payments[id].orderId == orderId) ==>
        exists id :: id in payments && payments[id].orderId == orderId &&
          r == StatusReport(orderId, payments[id].transactionId, payments[id].status, ShownMessage(payments[id]))
    {
      if id :| id in payments && payments[id].orderId == orderId {
        var t := payments[id];
        r := StatusReport(t.orderId, t.transactionId, t.status, ShownMessage(t));
      } else {
        r := StatusReport(orderId, "", Failed, "Payment not found");
      }
    }

    /** VerifyPaymentAsync: valid exactly when the transaction is known. */
    function VerifyPayment(transactionId: string): (v: Verification)
      reads this
      ensures v.isValid <==> transactionId in payments
      ensures v.isValid ==> v.status == payments[transactionId].status && v.message == ShownMessage(payments[transactionId])
      ensures !v.isValid ==> v.status == Failed && v.message == "Transaction not found"
    {
      if transactionId !in payments then Verification("", transactionId, false, Failed, "Transaction not found")
      else
        var t := payments[transactionId];
        Verification(t.orderId, transactionId, true, t.status, ShownMessage(t))
    }

    /** CancelPaymentAsync: false, with nothing changed, for an unknown or a
        succeeded transaction; otherwise the transaction is cancelled. */
    method CancelPayment(transactionId: string) returns (ok: bool)
      requires Valid()
      modifies this
      ensures Valid()
      ensures ok <==> transactionId in old(payments) && old(payments)[transactionId].status != Success
      ensures !ok ==> payments == old(payments)
      ensures ok ==> payments == old(payments)[transactionId := CancelledTx(old(payments)[transactionId])]
    {
      if transactionId !in payments {
        return false;
      }
      var t := payments[transactionId];
      if t.status == Success {
        return false;
      }
      payments := payments[transactionId := t.(status := Cancelled, message := Some("Payment cancelled"))];
      ok := true;
    }

    /** GetAllPaymentsAsync, keyed by transaction id (the list's order is the
        dictionary's and is not modelled). */
    function AllPayments(): (r: map<string, StatusReport>)
      reads this
      ensures r.Keys == payments.Keys
      ensures forall id :: id in r ==>
        (r[id].transactionId == payments[id].transactionId &&
         r[id].status == payments[id].status && r[id].message == ShownMessage(payments[id]))
    {
      map id | id in payments :: StatusReport(payments[id].orderId, payments[id].transactionId, payments[id].status,
                                              ShownMessage(payments[id]))
    }
  }
}
