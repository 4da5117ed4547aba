# FAPSHI payment-gateway client, modelled in Dafny

The FAPSHI client (`index.js`) wraps the gateway's REST endpoints (initiate a
payment, charge a phone directly, payment status, expire a payment, a user's
transactions, balance, payout, search). Every operation except balance and
search first validates its argument locally and resolves with `{message, statusCode: 400}` on the first
guard that fails. Otherwise it sends one request with the two credential
headers. It then resolves with the gateway's payload (most operations add
`statusCode` to it), or with `{message, statusCode}` derived from the
transport error.

This project models that layer as pure functions:

- `js_values.dfy` (module `JsValues`): the dynamic values the client sees: undefined, null, booleans, finite numbers, NaN, the infinities, strings and objects. It also defines JavaScript truthiness, `Number.isInteger` and property reads.
- `patterns.dfy` (module `Patterns`): the three regular expressions, written in a small anchored-regex language with a matching predicate. Lemmas prove what each pattern accepts in plain terms: a phone number, a transaction id, a user id.
- `gateway.dfy` (module `Gateway`): the constructor guard, the ordered guards of each operation, the request each operation builds, the catch block, the `statusCode` write, and `Call`, which runs an operation end to end.
- `gateway_properties.dfy` (module `GatewayProperties`): lemmas that relate operations to each other and to the transport.

The HTTP transport is a parameter `send: Request -> Transport`. Its outcome is either a fulfilled response (status and payload) or a failure that may carry a response. The statement "a validation error never reaches the network" becomes "the result is the same for every `send`".

## Model

| member | source | states |
|---|---|---|
| Patterns.PhonePatternMeaning | index.js:93 | `^6[\d]{8}$` matches exactly the 9-character strings made of '6' followed by eight decimal digits |
| Patterns.TransactionIdPatternMeaning | index.js:123 | `^[a-zA-Z0-9]{8,10}$` matches exactly the strings of 8 to 10 ASCII letters or digits |
| Patterns.UserIdPatternMeaning | index.js:182 | `^[a-zA-Z0-9-_]{1,100}$` matches exactly the strings of 1 to 100 ASCII letters, digits, '-' or '_' |
| Patterns.UserIdCharClass | index.js:182 | the bracket class `[a-zA-Z0-9-_]` holds a character iff it is a letter, a digit, '-' or '_' (the `-` after `0-9` is literal) |
| Gateway.NewClient | index.js:10-19 | construction succeeds iff both credentials are truthy, otherwise it throws the fixed message; the headers are exactly `apiuser` and `apikey` holding the two credentials |
| Gateway.CheckAmount | index.js:40-44 | an amount passes iff it is an integer of at least 100; "amount required" iff it is falsy (0, NaN, "", missing); "must be of type integer" iff it is truthy but not an integer; "less than 100" iff it is a non-zero integer below 100, negatives included |
| Gateway.CheckPhone | index.js:90-94 | a phone passes iff it is a string of '6' and eight digits; "phone number required" iff falsy, "phone must be of type string" iff truthy and not a string, "invalid phone number" iff a non-empty string of another form |
| Gateway.CheckCharge | index.js:85-94 | directPay/payout validation passes iff the amount and the phone both pass; an unacceptable amount is reported whatever the phone, and the phone is judged only after the amount passes |
| Gateway.CheckTransactionId | index.js:121-124 | an id passes iff it is a string of 8 to 10 letters or digits; "invalid type, string expected" iff it is not a string or is empty; "invalid transaction id" for every other string |
| Gateway.CheckUserId | index.js:180-183 | a user id passes iff it is a string of 1 to 100 letters, digits, '-' or '_'; "invalid type, string expected" iff not a string or empty; "invalid user id" otherwise |
| Gateway.PlanInitiatePay | index.js:40-51 | initiatePay sends a request iff the amount is acceptable, and rejects with the amount guard's message otherwise; the request POSTs the caller's data to /initiate-pay with the credential headers |
| Gateway.PlanCharge | index.js:85-101 | directPay (and payout) sends iff the charge validation passes, and rejects with its message otherwise; the request POSTs the caller's data to the operation's path |
| Gateway.PlanPaymentStatus | index.js:121-130 | paymentStatus sends iff the id is a valid transaction id; the request is a GET of base URL + "/payment-status/" + id, with no body |
| Gateway.PlanExpirePay | index.js:150-159 | expirePay sends iff the id is a valid transaction id; the request POSTs `{transId}` to /expire-pay |
| Gateway.PlanUserTrans | index.js:180-189 | userTrans sends iff the id is a valid user id; the request is a GET of base URL + "/transaction/" + id |
| Gateway.SearchParams | index.js:293-301 | the search query is never undefined: an undefined argument becomes `{}`, and any other argument is passed on unchanged, null included |
| Gateway.Plan | index.js:36-312 | every request any operation sends carries the client's credential headers and a URL under the base URL; balance and search never reject locally |
| Gateway.ErrorObject | index.js:315-317 | the error helper builds an object with exactly the fields `message` and `statusCode`, holding its two arguments |
| Gateway.Caught | index.js:55-59 | a transport error resolves as a failure; with no response it is "Erreur inconnue" with status 500; with a response the status is the response's; a falsy body gives "Erreur inconnue"; a body with a `message` field gives that message |
| Gateway.AddStatusCode | index.js:52-53 | writing `statusCode` succeeds iff the payload is an object; the result has the payload's fields plus `statusCode` set to the HTTP status, and every other field is unchanged |
| Gateway.Settle | index.js:52-59 | a failed call resolves as the catch block's result for its error response; without the status write the payload comes back unchanged; with it an object payload becomes the payload with `statusCode` written (other fields kept), and a non-object payload ends in the catch block as "Erreur inconnue"/500 |
| Gateway.Call | index.js:36-312 | an operation resolves with `{message, 400}` when its validation rejects; otherwise a rejected call resolves as the catch block's result for its error response, userTrans and search pass a fulfilled payload through unchanged, and a payload result only comes from a fulfilled call of the planned request |
| GatewayProperties.LocalFailuresSkipTransport | index.js:121-124 | when validation rejects, the result is `{message, 400}` and is the same for every transport, so no request is made |
| GatewayProperties.TransportFailureNormalised | index.js:55-59 | for every operation that sends, a rejected call resolves as the catch block's result for its error response; with no response, the caller receives the error helper's object for "Erreur inconnue"/500 |
| GatewayProperties.RejectionIsErrorObject | index.js:315-317 | a rejected operation's promise resolves with the error helper's object holding the validation message and statusCode 400 |
| GatewayProperties.ResultDependsOnlyOnPlannedRequest | index.js:96-104 | after validation passes, the result depends on nothing but the transport's answer to the one planned request |
| GatewayProperties.ResultOrigins | index.js:52-59 | a payload comes only from a fulfilled call; a failure comes from validation (status 400), from a rejected call, or from a non-object payload that cannot take `statusCode` |
| GatewayProperties.DirectPayAndPayoutAgree | index.js:248-264 | directPay and payout reject the same inputs with the same messages, and send the same request except for the path /direct-pay versus /payout |
| GatewayProperties.AmountReportedBeforePhone | index.js:85-94 | with an unacceptable amount, directPay and payout resolve with the amount guard's message and status 400, whatever the phone |
| GatewayProperties.AmountGuardsOnNumbers | index.js:40-44 | on numbers: 0 is "amount required", a non-zero integer below 100 (negatives too) is "less than 100", an integer of at least 100 passes, every number with a fractional part is "must be of type integer" |
| GatewayProperties.ValidatedIdStaysInPath | index.js:123-128 | a validated transaction id or user id is the whole URL suffix after its path prefix, so it can be read back, and contains none of '/', '?', '#', '%' |
| GatewayProperties.ExpirePayBody | index.js:150-159 | when expirePay sends, the id is a string of 8 to 10 characters, and the request POSTs to /expire-pay with body exactly `{transId}` |
| GatewayProperties.StatusCodeAttached | index.js:185-191 | for an object payload, every operation but userTrans and search resolves with the payload plus `statusCode` equal to the HTTP status; userTrans and search resolve with the payload unchanged |
| GatewayProperties.NonObjectPayload | index.js:213-215 | a fulfilled call whose payload is not an object resolves as "Erreur inconnue"/500 in the operations that write `statusCode`; userTrans and search pass it through |
| GatewayProperties.BodyWithoutMessage | index.js:58 | an error response with a truthy body that has no `message` gives an undefined message (not the fallback text), with the response's status |
| GatewayProperties.DirectPayExample | index.js:85-101 | amount 100 with phone "612345678" passes, and directPay POSTs that data to /direct-pay with the credential headers |
| GatewayProperties.PaymentStatusExample | index.js:121-130 | paymentStatus("AbC12345") issues GET base URL + "/payment-status/AbC12345" |
| GatewayProperties.TransactionIdRejections | index.js:150-153 | a 7-character id is an "invalid transaction id"; an empty string or a number is rejected with "invalid type, string expected" |
| GatewayProperties.UserIdExamples | index.js:180-183 | "user_42-a" is a valid user id, "user.42" is an "invalid user id", null is "invalid type, string expected" |
| GatewayProperties.TransportFailureExamples | index.js:305-309 | a failure with a 404 response whose body is `{message: "not found"}` resolves as `{"not found", 404}`; a failure without a response resolves as `{"Erreur inconnue", 500}` |

## Left out

- The `axios` call, the Promise/async machinery and `console.log`. The transport is the parameter `send`. Timeouts, retries and concurrency between calls are not modelled.
- IEEE double arithmetic. A finite number is a `real`, so `Number.isInteger` and `< 100` are exact. Precision loss on very large or very long decimals is not modelled.
- BigInt and Symbol values. Also left out: property reads through prototypes or getters, such as a string's `length`. Only an object's own fields are read.
- JavaScript strings are UTF-16 code units, while Dafny `char` is a Unicode scalar value. Both differ only outside ASCII, where every pattern rejects anyway.
- The header object is shared by reference between requests. It is never mutated, so it is modelled as a value.
- The search parameters' documented shape (status, medium, dates, amount, limit, sort). The client does not check it.
- Gateway.Caught: this contract does not give the message for a truthy body that is not an object or has no `message` field. That case, an undefined message, is stated by GatewayProperties.BodyWithoutMessage.
- The generic text is used only when there is no response or the error body is falsy. The code reads `e.response.data.message` whenever the body is truthy. A truthy body without that field therefore resolves with an undefined message, and the model follows the code.
