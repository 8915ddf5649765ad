/** The shape of a reply from the `request` library, as every modelled call site reads it. */
module Http {
  import opened Wrappers
  import Strings

  /** Statuses at or above this floor are failures. */
  const BAD_REQUEST_STATUS_CODE_FLOOR: nat := 300

  /** What `request(opts, function (err, res, body) {...})` receives: a transport error,
      or a response with its status code and parsed JSON body. */
  datatype Reply<+B> = TransportError(message: string) | Response(statusCode: nat, body: B)

  /** `if (err || res.statusCode >= 300) return cb(err || 'Bad statusCode: ' + res.statusCode)`,
      otherwise the body goes on. */
  function Classify<B>(reply: Reply<B>): (r: Result<B>)
    ensures r.Success? <==> reply.Response? && reply.statusCode < BAD_REQUEST_STATUS_CODE_FLOOR
    ensures r.Success? ==> r.value == reply.body
    ensures reply.TransportError? ==> r == Failure(reply.message)
    ensures reply.Response? && reply.statusCode >= BAD_REQUEST_STATUS_CODE_FLOOR ==>
              r == Failure("Bad statusCode: " + Strings.NatToString(reply.statusCode))
  {
    match reply
    case TransportError(message) => Failure(message)
    case Response(statusCode, body) =>
      if statusCode >= BAD_REQUEST_STATUS_CODE_FLOOR
      then Failure("Bad statusCode: " + Strings.NatToString(statusCode))
      else Success(body)
  }

  /** How an asynchronous operation ends: its callback is called with a result, a
      synchronous exception escapes (a TypeError in the code), or, within the replies
      given, the callback is never called. */
  datatype Completion<+T> = Called(result: Result<T>) | Threw | Pending
}
