/** Properties of the client that relate several operations, several
    transports, or an operation and the transport it uses. */
module GatewayProperties {
  import opened JsValues
  import opened Patterns
  import opened Gateway

  /** A validation failure resolves with status 400 and never reaches the
      transport: the result is the same whatever the transport would have done. */
  lemma LocalFailuresSkipTransport(c: Client, op: Operation, send1: Request -> Transport, send2: Request -> Transport)
    requires Plan(c, op).Reject?
    ensures Call(c, op, send1) == Call(c, op, send2)
    ensures Call(c, op, send1) == Failure(Str(Plan(c, op).message), BadRequest)
  {
  }

  /** Whatever an operation sends, a rejected call is normalised by the catch
      block alone: the result is Caught of the error's response. */
  lemma TransportFailureNormalised(c: Client, op: Operation, send: Request -> Transport, e: Option<HttpResponse>)
    requires Plan(c, op).Send? && send(Plan(c, op).request) == Failed(e)
    ensures Call(c, op, send) == Caught(e)
    ensures e.None? ==> Call(c, op, send).ToJs() == ErrorObject(Str(UnknownError), InternalError)
    ensures e.Some? ==> Call(c, op, send).statusCode == e.value.status
  {
  }

  /** What a rejected operation's promise resolves with is the error helper's
      object: the validation message and status 400. */
  lemma RejectionIsErrorObject(c: Client, op: Operation, send: Request -> Transport)
    requires Plan(c, op).Reject?
    ensures Call(c, op, send).ToJs() == ErrorObject(Str(Plan(c, op).message), BadRequest)
    ensures Get(Call(c, op, send).ToJs(), "statusCode") == Num(400.0)
  {
  }

  /** A validated operation sends exactly the planned request: two transports
      that answer it alike give the same result. */
  lemma ResultDependsOnlyOnPlannedRequest(c: Client, op: Operation, send1: Request -> Transport, send2: Request -> Transport)
    requires Plan(c, op).Send?
    requires send1(Plan(c, op).request) == send2(Plan(c, op).request)
    ensures Call(c, op, send1) == Call(c, op, send2)
  {
  }

  /** Where a result comes from: a payload only from a fulfilled call; a
      failure from validation (status 400), from a rejected call, or from a
      payload the status cannot be written to. */
  lemma ResultOrigins(c: Client, op: Operation, send: Request -> Transport)
    ensures Call(c, op, send).Payload? ==> Plan(c, op).Send? && send(Plan(c, op).request).Fulfilled?
    ensures Call(c, op, send).Failure? ==>
      || (Plan(c, op).Reject? && Call(c, op, send).statusCode == BadRequest)
      || (Plan(c, op).Send? && send(Plan(c, op).request).Failed?)
      || (Plan(c, op).Send? && AttachesStatus(op) && !send(Plan(c, op).request).response.data.Object?
          && Call(c, op, send) == Failure(Str(UnknownError), InternalError))
  {
  }

  /** directPay and payout validate alike and send the same request to different paths. */
  lemma DirectPayAndPayoutAgree(c: Client, data: JsValue)
    ensures Plan(c, DirectPay(data)).Reject? <==> Plan(c, Payout(data)).Reject?
    ensures Plan(c, DirectPay(data)).Reject? ==> Plan(c, DirectPay(data)).message == Plan(c, Payout(data)).message
    ensures Plan(c, DirectPay(data)).Send? ==>
      Plan(c, DirectPay(data)).request.url == BaseUrl + "/direct-pay" &&
      Plan(c, Payout(data)).request == Plan(c, DirectPay(data)).request.(url := BaseUrl + "/payout")
  {
  }

  /** The amount is judged before the phone: a bad amount is what directPay
      and payout report, whatever the phone is. */
  lemma AmountReportedBeforePhone(c: Client, data: JsValue, send: Request -> Transport)
    requires !AcceptableAmount(Get(data, "amount"))
    ensures CheckAmount(Get(data, "amount")).Some?
    ensures Call(c, DirectPay(data), send) == Failure(Str(CheckAmount(Get(data, "amount")).value), BadRequest)
    ensures Call(c, Payout(data), send) == Failure(Str(CheckAmount(Get(data, "amount")).value), BadRequest)
  {
  }

  /** An amount guard can only fail on amounts short of an integer of at least
      100: zero is "required", negatives are "less than 100". */
  lemma AmountGuardsOnNumbers(n: int, x: real)
    requires x.Floor as real != x
    ensures n == 0 ==> CheckAmount(Num(n as real)) == Some(AmountRequired)
    ensures n != 0 && n < 100 ==> CheckAmount(Num(n as real)) == Some(AmountTooSmall)
    ensures n >= 100 ==> CheckAmount(Num(n as real)) == None
    ensures CheckAmount(Num(x)) == Some(AmountNotInteger)
  {
  }

  /** A validated transaction id or user id is carried verbatim as the last
      path segment: it is read back from the URL and cannot add a segment,
      a query or a fragment. */
  lemma ValidatedIdStaysInPath(c: Client, op: Operation, prefix: string, id: string)
    requires op == PaymentStatus(Str(id)) || op == UserTrans(Str(id))
    requires prefix == BaseUrl + (if op.PaymentStatus? then "/payment-status/" else "/transaction/")
    requires Plan(c, op).Send?
    ensures Plan(c, op).request.verb == GET
    ensures prefix <= Plan(c, op).request.url
    ensures Plan(c, op).request.url[|prefix|..] == id
    ensures forall i :: |prefix| <= i < |Plan(c, op).request.url| ==> Plan(c, op).request.url[i] !in "/?#%"
  {
  }

  /** expirePay posts the validated id as the only field of its body. */
  lemma ExpirePayBody(c: Client, transId: JsValue)
    requires Plan(c, ExpirePay(transId)).Send?
    ensures transId.Str? && 8 <= |transId.s| <= 10
    ensures Plan(c, ExpirePay(transId)).request.verb == POST
    ensures Plan(c, ExpirePay(transId)).request.url == BaseUrl + "/expire-pay"
    ensures Plan(c, ExpirePay(transId)).request.body == Some(Object(map["transId" := transId]))
  {
  }

  /** Every operation but userTrans and search attaches the HTTP status to an
      object payload and leaves its other fields alone; userTrans and search
      hand the payload back unchanged. */
  lemma StatusCodeAttached(c: Client, op: Operation, send: Request -> Transport, status: int, fields: map<string, JsValue>)
    requires Plan(c, op).Send?
    requires send(Plan(c, op).request) == Fulfilled(HttpResponse(status, Object(fields)))
    ensures AttachesStatus(op) ==> Call(c, op, send) == Payload(Object(fields["statusCode" := Num(status as real)]))
    ensures !AttachesStatus(op) ==> Call(c, op, send) == Payload(Object(fields))
  {
  }

  /** With the status write, a payload that is not an object (a string body,
      null) makes the operation resolve with the catch block's 500 error;
      userTrans and search pass the same payload through. */
  lemma NonObjectPayload(c: Client, op: Operation, send: Request -> Transport, status: int, data: JsValue)
    requires Plan(c, op).Send?
    requires send(Plan(c, op).request) == Fulfilled(HttpResponse(status, data))
    requires !data.Object?
    ensures AttachesStatus(op) ==> Call(c, op, send) == Failure(Str(UnknownError), InternalError)
    ensures !AttachesStatus(op) ==> Call(c, op, send) == Payload(data)
  {
  }

  /** A rejected call with a truthy body that has no `message` field resolves
      with an undefined message, not with the fallback text. */
  lemma BodyWithoutMessage(status: int, data: JsValue)
    requires Truthy(data) && Get(data, "message") == Undefined
    ensures Caught(Some(HttpResponse(status, data))) == Failure(Undefined, status)
  {
  }

  /** directPay with amount 100 and phone "612345678" posts that data to
      /direct-pay with the credential headers. */
  lemma DirectPayExample(c: Client)
    ensures var data := Object(map["amount" := Num(100.0), "phone" := Str("612345678")]);
      Plan(c, DirectPay(data)) == Send(Request(POST, BaseUrl + "/direct-pay", c.Headers(), Some(data), None))
  {
  }

  /** paymentStatus("AbC12345") issues GET /payment-status/AbC12345. */
  lemma PaymentStatusExample(c: Client)
    ensures Plan(c, PaymentStatus(Str("AbC12345"))) ==
      Send(Request(GET, BaseUrl + "/payment-status/" + "AbC12345", c.Headers(), None, None))
  {
  }

  /** A seven-character id is an invalid transaction id; an empty one is not a string at all. */
  lemma TransactionIdRejections(c: Client)
    ensures Plan(c, PaymentStatus(Str("AbC1234"))) == Reject(TransactionIdInvalid)
    ensures Plan(c, ExpirePay(Str(""))) == Reject(StringExpected)
    ensures Plan(c, ExpirePay(Num(12345678.0))) == Reject(StringExpected)
  {
  }

  /** Hyphens and underscores are user-id characters; a dot is not. */
  lemma UserIdExamples(c: Client)
    ensures Plan(c, UserTrans(Str("user_42-a"))).Send?
    ensures Plan(c, UserTrans(Str("user.42"))) == Reject(UserIdInvalid)
    ensures Plan(c, UserTrans(Null)) == Reject(StringExpected)
  {
    assert IsUserId("user_42-a");
    assert !IsUserIdChar("user.42"[4]);
  }

  /** A 404 with body {message: "not found"} and a call with no response. */
  lemma TransportFailureExamples(c: Client, op: Operation)
    requires Plan(c, op).Send?
    ensures Call(c, op, _ => Failed(Some(HttpResponse(404, Object(map["message" := Str("not found")])))))
            == Failure(Str("not found"), 404)
    ensures Call(c, op, _ => Failed(None)) == Failure(Str(UnknownError), InternalError)
  {
  }
}
