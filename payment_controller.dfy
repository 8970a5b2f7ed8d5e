/** The VNPay endpoints (EcommerceBe/Controllers/PaymentController.cs): the
    checks in front of create-payment, and the answers chosen by the
    browser callback and by the gateway's instant payment notification (IPN). */
module PaymentController {
  import opened Common
  import opened VnPayLibrary
  import opened VNPayService

  /** The answers create-payment chooses between. */
  datatype CreateReply =
    | Accepted(body: PaymentResponse)            // 200 with the service's response
    | Rejected(body: PaymentResponse)            // 400 with the service's response
    | Invalid(message: string)                   // 400 with a message

  /** The body of an IPN answer. */
  datatype IpnReply = IpnReply(rspCode: string, message: string)

  const FrontendCallback: string := "https://your-frontend-domain.com/payment-callback"

  /** A decimal amount is above zero exactly when its units are. */
  predicate Positive(amount: Decimal)
  {
    amount.units > 0
  }

  /** bool.ToString(). */
  function BoolText(b: bool): string
  {
    if b then "True" else "False"
  }

  /** CreatePayment (create-payment): a missing request, an amount that is not
      above zero and an empty order id are refused in that order, before the
      service is called; otherwise the service's answer is passed on. */
  method CreatePayment(config: Config, request: Option<PaymentRequest>, createDate: string,
                       hmac: (string, string) -> string, enc: string -> string) returns (r: CreateReply)
    ensures request.None? ==> r == Invalid("Request data is required")
    ensures request.Some? && !Positive(request.value.amount) ==> r == Invalid("Amount must be greater than 0")
    ensures request.Some? && Positive(request.value.amount) && request.value.orderId == "" ==>
      r == Invalid("OrderId is required")
    ensures r.Accepted? <==> request.Some? && Positive(request.value.amount) && request.value.orderId != ""
    ensures r.Accepted? ==>
      (r.body.orderId == request.value.orderId &&
       r.body.paymentUrl == config.baseUrl + "?" + RequestQuery(config, request.value, createDate, enc)
                            + "&vnp_SecureHash=" + hmac(config.hashSecret, RequestQuery(config, request.value, createDate, enc)))
  {
    if request.None? {
      return Invalid("Request data is required");
    }
    r := CreatePaymentDirect(config, request.value, createDate, hmac, enc);
  }

  /** CreatePaymentDirect (create-payment-direct): the same checks without
      the missing-request one. */
  method CreatePaymentDirect(config: Config, request: PaymentRequest, createDate: string,
                             hmac: (string, string) -> string, enc: string -> string) returns (r: CreateReply)
    ensures !Positive(request.amount) ==> r == Invalid("Amount must be greater than 0")
    ensures Positive(request.amount) && request.orderId == "" ==> r == Invalid("OrderId is required")
    ensures r.Accepted? <==> Positive(request.amount) && request.orderId != ""
    ensures r.Accepted? ==>
      (r.body.orderId == request.orderId &&
       r.body.paymentUrl == config.baseUrl + "?" + RequestQuery(config, request, createDate, enc)
                            + "&vnp_SecureHash=" + hmac(config.hashSecret, RequestQuery(config, request, createDate, enc)))
  {
    if !Positive(request.amount) {
      return Invalid("Amount must be greater than 0");
    }
    if request.orderId == "" {
      return Invalid("OrderId is required");
    }
    var result := VNPayService.CreatePayment(config, request, createDate, hmac, enc);
    if result.success {
      return Accepted(result);
    }
    return Rejected(result);
  }

  /** The redirect of an accepted callback. */
  function SuccessRedirect(cb: Callback): string
  {
    FrontendCallback + "?vnp_ResponseCode=" + cb.vnpResponseCode + "&vnp_TxnRef=" + cb.vnpTxnRef
      + "&vnp_TransactionStatus=" + cb.vnpTransactionStatus + "&status=success"
  }

  /** The redirect of a refused callback, with the validity flag. */
  function FailedRedirect(cb: Callback, valid: bool): string
  {
    FrontendCallback + "?vnp_ResponseCode=" + cb.vnpResponseCode + "&vnp_TxnRef=" + cb.vnpTxnRef
      + "&vnp_TransactionStatus=" + cb.vnpTransactionStatus + "&status=failed&valid=" + BoolText(valid)
  }

  /** The two redirects can never be confused: the failure one is longer. */
  lemma RedirectsDiffer(cb: Callback, valid: bool)
    ensures SuccessRedirect(cb) != FailedRedirect(cb, valid)
  {
    assert |FailedRedirect(cb, valid)| > |SuccessRedirect(cb)|;
  }

  /** PaymentCallback (callback): no query parameters gives error=no_params;
      otherwise the browser is sent to the success page exactly when the
      callback is valid, and to the failure page otherwise. */
  method PaymentCallback(config: Config, query: map<string, string>, hmac: (string, string) -> string,
                         enc: string -> string) returns (url: string)
    ensures query == map[] ==> url == FrontendCallback + "?error=no_params"
    ensures query != map[] ==>
      var cb := ProcessCallback(query);
      (CallbackValid(config, cb, hmac, enc) ==> url == SuccessRedirect(cb)) &&
      (!CallbackValid(config, cb, hmac, enc) ==> url == FailedRedirect(cb, false))
  {
    if query == map[] {
      return FrontendCallback + "?error=no_params";
    }
    var callback := ProcessCallback(query);
    var isValid := ValidateCallback(config, callback, hmac, enc);
    if isValid && callback.vnpResponseCode == "00" {
      url := SuccessRedirect(callback);
    } else {
      url := FailedRedirect(callback, isValid);
    }
  }

  /** PaymentIPN (ipn) as written: "99" without parameters, "00" when
      ValidateCallbackAsync accepts, "97" otherwise. */
  method PaymentIpnAsWritten(config: Config, query: map<string, string>, hmac: (string, string) -> string,
                             enc: string -> string) returns (r: IpnReply)
    ensures query == map[] ==> r == IpnReply("99", "No parameters")
    ensures query != map[] ==>
      (r == if CallbackValid(config, ProcessCallback(query), hmac, enc) then IpnReply("00", "success")
            else IpnReply("97", "Fail checksum"))
  {
    if query == map[] {
      return IpnReply("99", "No parameters");
    }
    var callback := ProcessCallback(query);
    var isValid := ValidateCallback(config, callback, hmac, enc);
    if isValid {
      if callback.vnpResponseCode == "00" && callback.vnpTransactionStatus == "00" {
        r := IpnReply("00", "success");
      } else {
        r := IpnReply("00", "success");
      }
    } else {
      r := IpnReply("97", "Fail checksum");
    }
  }

  /** As written, a correctly signed notification of a failed payment is
      answered "97" (checksum failure), because the validity test already
      demands response code "00": the branch for a failed payment with a
      valid signature can only be reached with response code "00". */
  lemma IpnRefusesSignedFailure(config: Config, query: map<string, string>,
                                hmac: (string, string) -> string, enc: string -> string)
    requires query != map[]
    requires SignatureMatches(config, ProcessCallback(query), hmac, enc)
    requires ProcessCallback(query).vnpResponseCode != "00"
    ensures !CallbackValid(config, ProcessCallback(query), hmac, enc)
  {
  }

  /** PaymentIPN with the signature checked on its own: "99" without
      parameters, "97" for a signature that does not match, and "00" for a
      matching signature whether the payment succeeded or failed. */
  method PaymentIpn(config: Config, query: map<string, string>, hmac: (string, string) -> string,
                    enc: string -> string) returns (r: IpnReply)
    ensures query == map[] ==> r == IpnReply("99", "No parameters")
    ensures query != map[] ==>
      (r == if SignatureMatches(config, ProcessCallback(query), hmac, enc) then IpnReply("00", "success")
            else IpnReply("97", "Fail checksum"))
  {
    if query == map[] {
      return IpnReply("99", "No parameters");
    }
    var callback := ProcessCallback(query);
    var isValidSignature := CheckCallbackSignature(config, callback, hmac, enc);
    if isValidSignature {
      r := IpnReply("00", "success");
    } else {
      r := IpnReply("97", "Fail checksum");
    }
  }

  /** Where the two differ: exactly on signed notifications of a failed payment. */
  lemma IpnDifference(config: Config, cb: Callback, hmac: (string, string) -> string, enc: string -> string)
    ensures CallbackValid(config, cb, hmac, enc) ==> SignatureMatches(config, cb, hmac, enc)
    ensures SignatureMatches(config, cb, hmac, enc) && !CallbackValid(config, cb, hmac, enc) <==>
      SignatureMatches(config, cb, hmac, enc) && cb.vnpResponseCode != "00"
  {
  }
}
