/** The VNPay gateway service (VNPayService in EcommerceBe/Services/VNPayService.cs
    and the records of EcommerceBe/Dto/VNPayDto.cs): the signed payment address
    it builds, the callback it reads back from a query string, and the
    callback check. The clock reading, HMAC-SHA512 and URL encoding are
    parameters. */
module VNPayService {
  import opened Common
  import opened VnPayLibrary

  /** VNPayConfig. */
  datatype Config = Config(tmnCode: string, hashSecret: string, baseUrl: string, returnUrl: string,
                           version: string, command: string, currCode: string, locale: string)

  /** The settings a VNPayConfig starts with. */
  const DefaultConfig: Config :=
    Config("", "", "https://sandbox.vnpayment.vn/paymentv2/vpcpay.html", "", "2.1.0", "pay", "VND", "vn")

  /** A System.Decimal: the integer units scaled down by 10^scale. */
  datatype Decimal = Decimal(units: int, scale: nat)

  /** PaymentRequestDto. */
  datatype PaymentRequest = PaymentRequest(orderId: string, amount: Decimal, orderInfo: string,
                                           customerName: string, customerEmail: string, customerPhone: string)

  /** PaymentResponseDto. */
  datatype PaymentResponse = PaymentResponse(success: bool, paymentUrl: string, message: string, orderId: string)

  /** PaymentCallbackDto: every property is a string that starts empty. */
  datatype Callback = Callback(vnpAmount: string, vnpBankCode: string, vnpBankTranNo: string, vnpCardType: string,
                               vnpOrderInfo: string, vnpPayDate: string, vnpResponseCode: string,
                               vnpTmnCode: string, vnpTransactionNo: string, vnpTransactionStatus: string,
                               vnpTxnRef: string, vnpSecureHash: string)

  /** The address GetIpAddress reports. */
  const IpAddress: string := "127.0.0.1"

  // ---------------------------------------------------------------------
  // vnp_Amount: (long)(Amount * 100), then long.ToString()

  function Pow10(n: nat): (r: nat)
    ensures r > 0
  {
    if n == 0 then 1 else 10 * Pow10(n - 1)
  }

  /** Integer division rounding toward zero, as a cast from decimal to long does. */
  function DivTowardZero(a: int, b: int): (q: int)
    requires b > 0
  {
    if a >= 0 then a / b else -((-a) / b)
  }

  /** The amount in hundredths, its fraction of a hundredth cut off toward zero. */
  function MinorUnits(amount: Decimal): int
  {
    DivTowardZero(amount.units * 100, Pow10(amount.scale))
  }

  /** The cut loses less than a hundredth, toward zero, and a whole amount is
      exactly multiplied by 100. */
  lemma MinorUnitsTruncates(amount: Decimal, scaled: int, p: int)
    requires scaled == amount.units * 100 && p == Pow10(amount.scale)
    ensures scaled >= 0 ==> 0 <= scaled - MinorUnits(amount) * p < p
    ensures scaled < 0 ==> 0 <= MinorUnits(amount) * p - scaled < p
    ensures amount.scale == 0 ==> MinorUnits(amount) == scaled
  {
    if scaled < 0 {
      assert MinorUnits(amount) * p == -(((-scaled) / p) * p);
    }
  }

  function DigitChar(d: int): char
    requires 0 <= d < 10
  {
    "0123456789"[d]
  }

  /** The decimal digits of a natural number, leading digit first. */
  function Digits(n: nat): (s: string)
    ensures |s| > 0
    ensures forall i :: 0 <= i < |s| ==> '0' <= s[i] <= '9'
  {
    if n < 10 then [DigitChar(n)] else Digits(n / 10) + [DigitChar(n % 10)]
  }

  /** long.ToString() in the invariant culture. */
  function DecimalString(n: int): string
  {
    if n < 0 then "-" + Digits(-n) else Digits(n)
  }

  /** The number a string of decimal digits spells. */
  function DigitsValue(s: string): int
  {
    if s == [] then 0 else 10 * DigitsValue(s[..|s| - 1]) + (s[|s| - 1] as int - '0' as int)
  }

  /** Reading back a number's digits gives the number again. */
  lemma {:induction false} DigitsRoundTrip(n: nat)
    ensures DigitsValue(Digits(n)) == n
  {
    if n >= 10 {
      DigitsRoundTrip(n / 10);
      var s := Digits(n);
      assert s[..|s| - 1] == Digits(n / 10);
    }
  }

  /** A negative number's text is a minus sign and the digits of its size. */
  lemma NegativeText(n: int)
    requires n < 0
    ensures DecimalString(n)[0] == '-' && DigitsValue(DecimalString(n)[1..]) == -n
  {
    var m: nat := -n;
    var t := DecimalString(n);
    assert t[1..] == Digits(m) && t[0] == '-' by {
      assert t == "-" + Digits(m);
    }
    DigitsRoundTrip(m);
  }

  /** A non-negative number's text is its digits alone. */
  lemma NonNegativeText(n: int)
    requires n >= 0
    ensures DecimalString(n)[0] != '-' && DigitsValue(DecimalString(n)) == n
  {
    DigitsRoundTrip(n);
    assert '0' <= Digits(n)[0] <= '9';
  }

  /** The amount text can be parsed back into the number it was made from. */
  lemma DecimalStringRoundTrip(n: int)
    ensures DecimalString(n)[0] == '-' <==> n < 0
    ensures n < 0 ==> DigitsValue(DecimalString(n)[1..]) == -n
    ensures n >= 0 ==> DigitsValue(DecimalString(n)) == n
  {
    if n < 0 {
      NegativeText(n);
    } else {
      NonNegativeText(n);
    }
  }

  // ---------------------------------------------------------------------
  // The request fields

  /** The twelve AddRequestData calls of CreatePaymentAsync, in call order. */
  function RequestFields(config: Config, request: PaymentRequest, createDate: string): seq<Entry>
  {
    [Entry("vnp_Version", config.version), Entry("vnp_Command", config.command),
     Entry("vnp_TmnCode", config.tmnCode), Entry("vnp_Amount", DecimalString(MinorUnits(request.amount))),
     Entry("vnp_CreateDate", createDate), Entry("vnp_CurrCode", config.currCode),
     Entry("vnp_IpAddr", IpAddress), Entry("vnp_Locale", config.locale),
     Entry("vnp_OrderInfo", request.orderInfo), Entry("vnp_OrderType", "other"),
     Entry("vnp_ReturnUrl", config.returnUrl), Entry("vnp_TxnRef", request.orderId)]
  }

  lemma RequestKeysDistinct(config: Config, request: PaymentRequest, createDate: string)
    ensures DistinctKeys(RequestFields(config, request, createDate))
  {
  }

  /** The request list of a library, as CreatePaymentAsync fills it. */
  method AddRequestFields(lib: VnPayLibrary, es: seq<Entry>)
    requires lib.Valid() && lib.requestData == [] && DistinctKeys(es)
    modifies lib
    ensures lib.Valid() && lib.responseData == old(lib.responseData)
    ensures forall e :: e in lib.requestData <==> e in es && e.value != ""
  {
    var i := 0;
    while i < |es|
      invariant 0 <= i <= |es|
      invariant lib.Valid() && lib.responseData == old(lib.responseData)
      invariant forall e :: e in lib.requestData <==> e in es[..i] && e.value != ""
    {
      forall j | 0 <= j < |lib.requestData| ensures lib.requestData[j].key != es[i].key {
        assert lib.requestData[j] in es[..i];
      }
      var r := lib.AddRequestData(es[i].key, es[i].value);
      assert es[..i + 1] == es[..i] + [es[i]];
      i := i + 1;
    }
    assert es[..i] == es;
  }

  /** The query string every payment address carries: the request fields
      after the twelve Add calls. */
  function RequestQuery(config: Config, request: PaymentRequest, createDate: string,
                        enc: string -> string): string
  {
    Join(Filled(RequestFields(config, request, createDate)), enc)
  }

  /** The signed query string lists exactly the non-empty request fields, in
      ordinal key order. */
  lemma RequestQueryOrder(config: Config, request: PaymentRequest, createDate: string)
    ensures Sorted(Filled(RequestFields(config, request, createDate)))
    ensures forall e :: e in Filled(RequestFields(config, request, createDate)) <==>
      e in RequestFields(config, request, createDate) && e.value != ""
  {
    RequestKeysDistinct(config, request, createDate);
    FilledSorted(RequestFields(config, request, createDate));
  }

  /** CreatePaymentAsync; createDate is the Vietnam-time clock reading as
      yyyyMMddHHmmss. The address is the base URL, the query string of the
      non-empty fields in ordinal key order, and the signature of exactly that
      query string under the hash secret. */
  method CreatePayment(config: Config, request: PaymentRequest, createDate: string,
                       hmac: (string, string) -> string, enc: string -> string) returns (r: PaymentResponse)
    ensures r.success && r.message == "Payment URL created successfully" && r.orderId == request.orderId
    ensures r.paymentUrl == config.baseUrl + "?" + RequestQuery(config, request, createDate, enc)
                            + "&vnp_SecureHash=" + hmac(config.hashSecret, RequestQuery(config, request, createDate, enc))
  {
    var lib := new VnPayLibrary();
    RequestQueryOrder(config, request, createDate);
    RequestKeysDistinct(config, request, createDate);
    AddRequestFields(lib, RequestFields(config, request, createDate));
    SortedUnique(lib.requestData, Filled(RequestFields(config, request, createDate)));
    var url := lib.CreateRequestUrl(config.baseUrl, config.hashSecret, hmac, enc);
    r := PaymentResponse(true, url, "Payment URL created successfully", request.orderId);
  }

  /** The request fields never carry the two hash keys, so the query string
      that CreatePayment signs is what a validation over the same fields would
      hash again. */
  lemma PaymentSignatureChecks(config: Config, request: PaymentRequest, createDate: string,
                               hmac: (string, string) -> string, enc: string -> string)
    ensures EqualsIgnoreCase(hmac(config.hashSecret, Join(SignedPart(Filled(RequestFields(config, request, createDate))), enc)),
                             hmac(config.hashSecret, RequestQuery(config, request, createDate, enc)))
  {
    RequestQueryOrder(config, request, createDate);
    SignedRequestValidates(Filled(RequestFields(config, request, createDate)), config.hashSecret,
                           hmac(config.hashSecret, RequestQuery(config, request, createDate, enc)), hmac, enc);
  }

  // ---------------------------------------------------------------------
  // Callbacks

  /** The PaymentCallbackDto property names, in declaration order. */
  const CallbackNames: seq<string> :=
    ["vnp_Amount", "vnp_BankCode", "vnp_BankTranNo", "vnp_CardType", "vnp_OrderInfo", "vnp_PayDate",
     "vnp_ResponseCode", "vnp_TmnCode", "vnp_TransactionNo", "vnp_TransactionStatus", "vnp_TxnRef",
     "vnp_SecureHash"]

  /** The properties ValidateCallbackAsync signs: all but vnp_SecureHash, in
      declaration order. */
  function SignedFields(cb: Callback): seq<Entry>
  {
    [Entry("vnp_Amount", cb.vnpAmount), Entry("vnp_BankCode", cb.vnpBankCode),
     Entry("vnp_BankTranNo", cb.vnpBankTranNo), Entry("vnp_CardType", cb.vnpCardType),
     Entry("vnp_OrderInfo", cb.vnpOrderInfo), Entry("vnp_PayDate", cb.vnpPayDate),
     Entry("vnp_ResponseCode", cb.vnpResponseCode), Entry("vnp_TmnCode", cb.vnpTmnCode),
     Entry("vnp_TransactionNo", cb.vnpTransactionNo), Entry("vnp_TransactionStatus", cb.vnpTransactionStatus),
     Entry("vnp_TxnRef", cb.vnpTxnRef)]
  }

  /** All callback properties by name, in declaration order. */
  function CallbackFields(cb: Callback): (es: seq<Entry>)
    ensures |es| == |CallbackNames| && forall i :: 0 <= i < |es| ==> es[i].key == CallbackNames[i]
  {
    SignedFields(cb) + [Entry(SecureHashKey, cb.vnpSecureHash)]
  }

  function QueryValue(query: map<string, string>, key: string): string
  {
    if key in query then query[key] else ""
  }

  /** ProcessCallbackAsync: each query parameter named like a property, with
      the exact letter case, sets it; other parameters are ignored. */
  function ProcessCallback(query: map<string, string>): (cb: Callback)
    ensures forall i :: 0 <= i < |CallbackFields(cb)| ==>
      CallbackFields(cb)[i].value == QueryValue(query, CallbackFields(cb)[i].key)
  {
    Callback(QueryValue(query, "vnp_Amount"), QueryValue(query, "vnp_BankCode"),
             QueryValue(query, "vnp_BankTranNo"), QueryValue(query, "vnp_CardType"),
             QueryValue(query, "vnp_OrderInfo"), QueryValue(query, "vnp_PayDate"),
             QueryValue(query, "vnp_ResponseCode"), QueryValue(query, "vnp_TmnCode"),
             QueryValue(query, "vnp_TransactionNo"), QueryValue(query, "vnp_TransactionStatus"),
             QueryValue(query, "vnp_TxnRef"), QueryValue(query, "vnp_SecureHash"))
  }

  /** The query string a callback arrives as. */
  function CallbackQuery(cb: Callback): map<string, string>
  {
    map["vnp_Amount" := cb.vnpAmount, "vnp_BankCode" := cb.vnpBankCode, "vnp_BankTranNo" := cb.vnpBankTranNo,
        "vnp_CardType" := cb.vnpCardType, "vnp_OrderInfo" := cb.vnpOrderInfo, "vnp_PayDate" := cb.vnpPayDate,
        "vnp_ResponseCode" := cb.vnpResponseCode, "vnp_TmnCode" := cb.vnpTmnCode,
        "vnp_TransactionNo" := cb.vnpTransactionNo, "vnp_TransactionStatus" := cb.vnpTransactionStatus,
        "vnp_TxnRef" := cb.vnpTxnRef, "vnp_SecureHash" := cb.vnpSecureHash]
  }

  /** Reading a callback's own query string gives the callback back. */
  lemma CallbackRoundTrip(cb: Callback)
    ensures ProcessCallback(CallbackQuery(cb)) == cb
  {
  }

  /** A parameter that names no property changes nothing. */
  lemma UnknownParameterIgnored(query: map<string, string>, key: string, value: string)
    requires key !in CallbackNames
    ensures ProcessCallback(query[key := value]) == ProcessCallback(query)
  {
  }

  /** The signed properties have distinct names, none of them a hash field. */
  lemma SignedKeys(cb: Callback)
    ensures DistinctKeys(SignedFields(cb))
    ensures forall i :: 0 <= i < |SignedFields(cb)| ==>
      SignedFields(cb)[i].key != SecureHashKey && SignedFields(cb)[i].key != SecureHashTypeKey
  {
  }

  /** All the properties have distinct names. */
  lemma CallbackKeys(cb: Callback)
    ensures DistinctKeys(CallbackFields(cb))
  {
    SignedKeys(cb);
    var es := CallbackFields(cb);
    forall i, j | 0 <= i < j < |es| ensures es[i].key != es[j].key {
      if j < 11 {
        assert es[i] == SignedFields(cb)[i] && es[j] == SignedFields(cb)[j];
      } else {
        assert es[i] == SignedFields(cb)[i];
      }
    }
  }

  /** The response list of a library, as ValidateCallbackAsync fills it: every
      property except the one named skip. */
  method AddResponseFields(lib: VnPayLibrary, es: seq<Entry>, skip: string)
    requires lib.Valid() && lib.responseData == [] && DistinctKeys(es)
    modifies lib
    ensures lib.Valid() && lib.requestData == old(lib.requestData)
    ensures forall e :: e in lib.responseData <==> e in es && e.key != skip && e.value != ""
  {
    var i := 0;
    while i < |es|
      invariant 0 <= i <= |es|
      invariant lib.Valid() && lib.requestData == old(lib.requestData)
      invariant forall e :: e in lib.responseData <==> e in es[..i] && e.key != skip && e.value != ""
    {
      assert es[..i + 1] == es[..i] + [es[i]];
      if es[i].key != skip {
        forall j | 0 <= j < |lib.responseData| ensures lib.responseData[j].key != es[i].key {
          assert lib.responseData[j] in es[..i];
        }
        var r := lib.AddResponseData(es[i].key, es[i].value);
      }
      i := i + 1;
    }
    assert es[..i] == es;
  }

  /** The callback's hash matches, in any letter case, the signature of its
      non-empty signed properties in ordinal key order. */
  predicate SignatureMatches(config: Config, cb: Callback, hmac: (string, string) -> string, enc: string -> string)
  {
    EqualsIgnoreCase(hmac(config.hashSecret, Join(Filled(SignedFields(cb)), enc)), cb.vnpSecureHash)
  }

  /** What ValidateCallbackAsync accepts: a matching signature and response code "00". */
  predicate CallbackValid(config: Config, cb: Callback, hmac: (string, string) -> string, enc: string -> string)
  {
    SignatureMatches(config, cb, hmac, enc) && cb.vnpResponseCode == "00"
  }

  /** The signature part of ValidateCallbackAsync: a fresh library filled
      with every property but vnp_SecureHash, then ValidateSignature. */
  method CheckCallbackSignature(config: Config, cb: Callback, hmac: (string, string) -> string,
                                enc: string -> string) returns (ok: bool)
    ensures ok <==> EqualsIgnoreCase(hmac(config.hashSecret, Join(Filled(SignedFields(cb)), enc)), cb.vnpSecureHash)
  {
    var lib := new VnPayLibrary();
    SignedKeys(cb);
    CallbackKeys(cb);
    FilledSorted(SignedFields(cb));
    AddResponseFields(lib, CallbackFields(cb), SecureHashKey);
    SortedUnique(lib.responseData, Filled(SignedFields(cb)));
    RemoveAbsentKey(lib.responseData, SecureHashTypeKey);
    RemoveAbsentKey(lib.responseData, SecureHashKey);
    ok := lib.ValidateSignature(cb.vnpSecureHash, config.hashSecret, hmac, enc);
  }

  /** ValidateCallbackAsync: false for a signature that does not match, and
      false for a response code other than "00". */
  method ValidateCallback(config: Config, cb: Callback, hmac: (string, string) -> string,
                          enc: string -> string) returns (ok: bool)
    ensures ok <==> EqualsIgnoreCase(hmac(config.hashSecret, Join(Filled(SignedFields(cb)), enc)), cb.vnpSecureHash)
                    && cb.vnpResponseCode == "00"
    ensures ok == CallbackValid(config, cb, hmac, enc)
  {
    var isValidSignature := CheckCallbackSignature(config, cb, hmac, enc);
    if !isValidSignature {
      return false;
    }
    if cb.vnpResponseCode != "00" {
      return false;
    }
    return true;
  }

  /** A successful callback that carries the gateway's signature of its own
      fields passes the check: the service hashes exactly the fields the
      gateway signed, in the same order and encoding. */
  lemma GatewaySignedCallbackValid(config: Config, cb: Callback, hmac: (string, string) -> string,
                                   enc: string -> string)
    requires cb.vnpSecureHash == hmac(config.hashSecret, Join(Filled(SignedFields(cb)), enc))
    requires cb.vnpResponseCode == "00"
    ensures CallbackValid(config, cb, hmac, enc)
  {
  }
}
