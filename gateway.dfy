/** The FAPSHI payment-gateway client: credential handling, the local
    validation each operation runs before it calls the gateway, the request
    it then sends, and how the transport's answer or failure becomes the
    value the returned promise resolves with.

    The HTTP transport is not part of this model. An operation receives it as
    a function `send` from the request to the transport's outcome, so that
    "no network call is made" reads as "the result does not depend on send". */
module Gateway {
  import opened JsValues
  import opened Patterns

  const BaseUrl: string := "https://live.fapshi.com"

  const CredentialsMissing: string := "Mention your user name and api key "
  const UnknownError: string := "Erreur inconnue"

  const AmountRequired: string := "amount required"
  const AmountNotInteger: string := "amount must be of type integer"
  const AmountTooSmall: string := "amount cannot be less than 100 XAF"
  const PhoneRequired: string := "phone number required"
  const PhoneNotString: string := "phone must be of type string"
  const PhoneInvalid: string := "invalid phone number"
  const StringExpected: string := "invalid type, string expected"
  const TransactionIdInvalid: string := "invalid transaction id"
  const UserIdInvalid: string := "invalid user id"

  /** The status every local validation failure carries. */
  const BadRequest: int := 400
  /** The status of a failure that came with no HTTP response. */
  const InternalError: int := 500

  // ---------------------------------------------------------------------------
  // The client and its credentials

  /** A constructed client. Its two credentials are set once and only read afterwards. */
  datatype Client = Client(apiUser: JsValue, apiKey: JsValue) {
    /** The header object sent with every request. */
    function Headers(): map<string, JsValue> {
      map["apiuser" := apiUser, "apikey" := apiKey]
    }
  }

  datatype Construction = Constructed(client: Client) | Thrown(message: string)

  /** `new FAPSHI(user, key)`: throws unless both credentials are truthy. */
  function NewClient(user: JsValue, key: JsValue): (r: Construction)
    ensures r.Constructed? <==> Truthy(user) && Truthy(key)
    ensures r.Thrown? ==> r.message == CredentialsMissing
    ensures r.Constructed? ==> r.client.Headers().Keys == {"apiuser", "apikey"}
    ensures r.Constructed? ==> r.client.Headers()["apiuser"] == user && r.client.Headers()["apikey"] == key
  {
    if !Truthy(user) || !Truthy(key) then Thrown(CredentialsMissing)
    else Constructed(Client(user, key))
  }

  // ---------------------------------------------------------------------------
  // Local validation. Each check returns the message of the first guard that
  // fails, or None when every guard passes.

  /** The amounts the three amount guards let through. */
  predicate AcceptableAmount(amount: JsValue) {
    amount.Num? && IsIntegral(amount.x) && amount.x >= 100.0
  }

  /** The amount guards of initiatePay, directPay and payout, in their order. */
  function CheckAmount(amount: JsValue): (r: Option<string>)
    ensures r.None? <==> AcceptableAmount(amount)
    ensures r == Some(AmountRequired) <==> !Truthy(amount)
    ensures r == Some(AmountNotInteger) <==> Truthy(amount) && !IsInteger(amount)
    ensures r == Some(AmountTooSmall) <==> amount.Num? && IsIntegral(amount.x) && amount.x != 0.0 && amount.x < 100.0
  {
    if !Truthy(amount) then Some(AmountRequired)
    else if !IsInteger(amount) then Some(AmountNotInteger)
    else if amount.x < 100.0 then Some(AmountTooSmall)
    else None
  }

  /** The phone guards of directPay and payout, in their order. */
  function CheckPhone(phone: JsValue): (r: Option<string>)
    ensures r.None? <==> phone.Str? && IsPhoneNumber(phone.s)
    ensures r == Some(PhoneRequired) <==> !Truthy(phone)
    ensures r == Some(PhoneNotString) <==> Truthy(phone) && !phone.Str?
    ensures r == Some(PhoneInvalid) <==> phone.Str? && phone.s != "" && !IsPhoneNumber(phone.s)
  {
    if !Truthy(phone) then Some(PhoneRequired)
    else if !phone.Str? then Some(PhoneNotString)
    else
      PhonePatternMeaning(phone.s);
      if !FullMatch(PhonePattern, phone.s) then Some(PhoneInvalid) else None
  }

  /** The guards of directPay and payout: the amount guards first, then the phone guards. */
  function CheckCharge(data: JsValue): (r: Option<string>)
    ensures r.None? <==> AcceptableAmount(Get(data, "amount")) && Get(data, "phone").Str? && IsPhoneNumber(Get(data, "phone").s)
    ensures !AcceptableAmount(Get(data, "amount")) ==> r == CheckAmount(Get(data, "amount"))
    ensures AcceptableAmount(Get(data, "amount")) ==> r == CheckPhone(Get(data, "phone"))
  {
    match CheckAmount(Get(data, "amount"))
    case Some(m) => Some(m)
    case None => CheckPhone(Get(data, "phone"))
  }

  /** The guards of paymentStatus and expirePay. */
  function CheckTransactionId(transId: JsValue): (r: Option<string>)
    ensures r.None? <==> transId.Str? && IsTransactionId(transId.s)
    ensures r == Some(StringExpected) <==> !transId.Str? || transId.s == ""
    ensures r == Some(TransactionIdInvalid) <==> transId.Str? && transId.s != "" && !IsTransactionId(transId.s)
  {
    if !Truthy(transId) || !transId.Str? then Some(StringExpected)
    else
      TransactionIdPatternMeaning(transId.s);
      if !FullMatch(TransactionIdPattern, transId.s) then Some(TransactionIdInvalid) else None
  }

  /** The guards of userTrans. */
  function CheckUserId(userId: JsValue): (r: Option<string>)
    ensures r.None? <==> userId.Str? && IsUserId(userId.s)
    ensures r == Some(StringExpected) <==> !userId.Str? || userId.s == ""
    ensures r == Some(UserIdInvalid) <==> userId.Str? && userId.s != "" && !IsUserId(userId.s)
  {
    if !Truthy(userId) || !userId.Str? then Some(StringExpected)
    else
      UserIdPatternMeaning(userId.s);
      if !FullMatch(UserIdPattern, userId.s) then Some(UserIdInvalid) else None
  }

  // ---------------------------------------------------------------------------
  // Requests

  datatype Method = GET | POST

  /** The configuration handed to the transport (its `method` is `verb` here): `data` becomes body, `params` the query. */
  datatype Request = Request(verb: Method, url: string, headers: map<string, JsValue>, body: Option<JsValue>, params: Option<JsValue>)

  /** The eight operations of the client with their arguments. */
  datatype Operation =
    | InitiatePay(data: JsValue)
    | DirectPay(data: JsValue)
    | PaymentStatus(transId: JsValue)
    | ExpirePay(transId: JsValue)
    | UserTrans(userId: JsValue)
    | Balance
    | Payout(data: JsValue)
    | Search(params: JsValue)

  /** What an operation does before it awaits the transport: resolve with a
      validation error, or send a request. */
  datatype Step = Reject(message: string) | Send(request: Request)

  function PlanInitiatePay(c: Client, data: JsValue): (r: Step)
    ensures r.Send? <==> AcceptableAmount(Get(data, "amount"))
    ensures r.Reject? ==> CheckAmount(Get(data, "amount")) == Some(r.message)
    ensures r.Send? ==> r.request == Request(POST, BaseUrl + "/initiate-pay", c.Headers(), Some(data), None)
  {
    match CheckAmount(Get(data, "amount"))
    case Some(m) => Reject(m)
    case None => Send(Request(POST, BaseUrl + "/initiate-pay", c.Headers(), Some(data), None))
  }

  /** directPay and payout differ only in the path they post to. */
  function PlanCharge(c: Client, data: JsValue, path: string): (r: Step)
    ensures r.Send? <==> CheckCharge(data).None?
    ensures r.Reject? ==> CheckCharge(data) == Some(r.message)
    ensures r.Send? ==> r.request == Request(POST, BaseUrl + path, c.Headers(), Some(data), None)
  {
    match CheckCharge(data)
    case Some(m) => Reject(m)
    case None => Send(Request(POST, BaseUrl + path, c.Headers(), Some(data), None))
  }

  function PlanPaymentStatus(c: Client, transId: JsValue): (r: Step)
    ensures r.Send? <==> transId.Str? && IsTransactionId(transId.s)
    ensures r.Reject? ==> CheckTransactionId(transId) == Some(r.message)
    ensures r.Send? ==> r.request == Request(GET, BaseUrl + "/payment-status/" + transId.s, c.Headers(), None, None)
  {
    match CheckTransactionId(transId)
    case Some(m) => Reject(m)
    case None => Send(Request(GET, BaseUrl + "/payment-status/" + transId.s, c.Headers(), None, None))
  }

  function PlanExpirePay(c: Client, transId: JsValue): (r: Step)
    ensures r.Send? <==> transId.Str? && IsTransactionId(transId.s)
    ensures r.Reject? ==> CheckTransactionId(transId) == Some(r.message)
    ensures r.Send? ==> r.request == Request(POST, BaseUrl + "/expire-pay", c.Headers(), Some(Object(map["transId" := transId])), None)
  {
    match CheckTransactionId(transId)
    case Some(m) => Reject(m)
    case None => Send(Request(POST, BaseUrl + "/expire-pay", c.Headers(), Some(Object(map["transId" := transId])), None))
  }

  function PlanUserTrans(c: Client, userId: JsValue): (r: Step)
    ensures r.Send? <==> userId.Str? && IsUserId(userId.s)
    ensures r.Reject? ==> CheckUserId(userId) == Some(r.message)
    ensures r.Send? ==> r.request == Request(GET, BaseUrl + "/transaction/" + userId.s, c.Headers(), None, None)
  {
    match CheckUserId(userId)
    case Some(m) => Reject(m)
    case None => Send(Request(GET, BaseUrl + "/transaction/" + userId.s, c.Headers(), None, None))
  }

  /** The query of search: the parameter default `{}` applies only when the argument is undefined. */
  function SearchParams(params: JsValue): (r: JsValue)
    ensures !r.Undefined?
    ensures params.Undefined? ==> r == Object(map[])
    ensures !params.Undefined? ==> r == params
  {
    if params.Undefined? then Object(map[]) else params
  }

  /** The step each operation takes before the transport is involved. */
  function Plan(c: Client, op: Operation): (r: Step)
    ensures r.Send? ==> r.request.headers == c.Headers()
    ensures r.Send? ==> BaseUrl <= r.request.url
    ensures op.Balance? || op.Search? ==> r.Send?
  {
    match op
    case InitiatePay(data) => PlanInitiatePay(c, data)
    case DirectPay(data) => PlanCharge(c, data, "/direct-pay")
    case PaymentStatus(transId) => PlanPaymentStatus(c, transId)
    case ExpirePay(transId) => PlanExpirePay(c, transId)
    case UserTrans(userId) => PlanUserTrans(c, userId)
    case Balance => Send(Request(GET, BaseUrl + "/balance", c.Headers(), None, None))
    case Payout(data) => PlanCharge(c, data, "/payout")
    case Search(params) => Send(Request(GET, BaseUrl + "/search", c.Headers(), None, Some(SearchParams(params))))
  }

  // ---------------------------------------------------------------------------
  // Results

  datatype HttpResponse = HttpResponse(status: int, data: JsValue)

  /** What the transport does with a request: resolve with a response, or
      reject with an error that may carry a response. */
  datatype Transport = Fulfilled(response: HttpResponse) | Failed(errorResponse: Option<HttpResponse>)

  /** What an operation's promise resolves with: the gateway's payload, or the
      `{message, statusCode}` object built by the error helper. */
  datatype Reply = Payload(data: JsValue) | Failure(message: JsValue, statusCode: int) {
    /** The plain JavaScript object the caller receives. */
    function ToJs(): JsValue {
      match this
      case Payload(data) => data
      case Failure(message, statusCode) => ErrorObject(message, statusCode)
    }
  }

  /** The `error(message, statusCode)` helper. */
  function ErrorObject(message: JsValue, statusCode: int): (r: JsValue)
    ensures r.Object? && r.fields.Keys == {"message", "statusCode"}
    ensures Get(r, "message") == message && Get(r, "statusCode") == Num(statusCode as real)
  {
    Object(map["message" := message, "statusCode" := Num(statusCode as real)])
  }

  /** The catch block: the status and the message of an error that may carry a response. */
  function Caught(errorResponse: Option<HttpResponse>): (r: Reply)
    ensures r.Failure?
    ensures errorResponse.None? ==> r == Failure(Str(UnknownError), InternalError)
    ensures errorResponse.Some? ==> r.statusCode == errorResponse.value.status
    ensures errorResponse.Some? && !Truthy(errorResponse.value.data) ==> r.message == Str(UnknownError)
    ensures errorResponse.Some? && errorResponse.value.data.Object? && "message" in errorResponse.value.data.fields
            ==> r.message == errorResponse.value.data.fields["message"]
  {
    var statusCode := if errorResponse.Some? then errorResponse.value.status else InternalError;
    var message := if errorResponse.Some? && Truthy(errorResponse.value.data)
                   then Get(errorResponse.value.data, "message")
                   else Str(UnknownError);
    Failure(message, statusCode)
  }

  /** `response.data.statusCode = response.status`. The class body is strict
      code, so the write throws a TypeError (None here) unless the payload is an object. */
  function AddStatusCode(data: JsValue, status: int): (r: Option<JsValue>)
    ensures r.Some? <==> data.Object?
    ensures r.Some? ==> r.value.Object? && r.value.fields.Keys == data.fields.Keys + {"statusCode"}
    ensures r.Some? ==> Get(r.value, "statusCode") == Num(status as real)
    ensures r.Some? ==> forall k :: k in data.fields && k != "statusCode" ==> r.value.fields[k] == data.fields[k]
  {
    if data.Object? then Some(Object(data.fields["statusCode" := Num(status as real)])) else None
  }

  /** Whether an operation attaches the HTTP status to a successful payload. */
  predicate AttachesStatus(op: Operation) {
    !op.UserTrans? && !op.Search?
  }

  /** The part of an operation after `await axios(config)`: the success path,
      and the catch block for a rejected call or a failed status write. */
  function Settle(t: Transport, attachStatus: bool): (r: Reply)
    ensures t.Failed? ==> r == Caught(t.errorResponse)
    ensures t.Fulfilled? && !attachStatus ==> r == Payload(t.response.data)
    ensures t.Fulfilled? && attachStatus && t.response.data.Object?
            ==> r == Payload(AddStatusCode(t.response.data, t.response.status).value)
    ensures t.Fulfilled? && attachStatus && t.response.data.Object?
            ==> Get(r.data, "statusCode") == Num(t.response.status as real)
    ensures t.Fulfilled? && attachStatus && !t.response.data.Object? ==> r == Failure(Str(UnknownError), InternalError)
  {
    match t
    case Failed(errorResponse) => Caught(errorResponse)
    case Fulfilled(response) =>
      if !attachStatus then Payload(response.data)
      else match AddStatusCode(response.data, response.status)
        case Some(data) => Payload(data)
        case None => Caught(None)
  }

  /** An operation from the call to the value its promise resolves with:
      a validation error with status 400, or the settled transport outcome
      of the one planned request. */
  function Call(c: Client, op: Operation, send: Request -> Transport): (r: Reply)
    ensures Plan(c, op).Reject? ==> r == Failure(Str(Plan(c, op).message), BadRequest)
    ensures Plan(c, op).Send? && send(Plan(c, op).request).Failed?
            ==> r == Caught(send(Plan(c, op).request).errorResponse)
    ensures Plan(c, op).Send? && send(Plan(c, op).request).Fulfilled? && !AttachesStatus(op)
            ==> r == Payload(send(Plan(c, op).request).response.data)
    ensures r.Payload? ==> Plan(c, op).Send? && send(Plan(c, op).request).Fulfilled?
  {
    match Plan(c, op)
    case Reject(message) => Failure(Str(message), BadRequest)
    case Send(request) => Settle(send(request), AttachesStatus(op))
  }
}
