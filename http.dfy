/**
 * The Express side of a middleware call: the request it reads, the
 * response it may write and the `next` continuation it may call.
 */
module Http {
  import opened Common
  import Joi

  /** An error response body: `{ error }`, or `{ error, details }` after a failed validation. */
  datatype ErrorBody = ErrorBody(error: string, details: Option<seq<Joi.Detail>>)

  /** What a middleware decides: call `next()`, or answer with a status and a body. */
  datatype Outcome = Continue | Respond(status: nat, body: ErrorBody)

  /** One response written with `res.status(status).json(body)`. */
  datatype Response = Response(status: nat, body: ErrorBody)

  /** The decoded token payload a middleware stores as `req.user`. */
  datatype Identity = Identity(userId: Option<string>, email: string, role: string)

  /**
   * One request on its way through the middleware chain. The header and the
   * body are never assigned by the middlewares; `req.user`, the responses
   * written and the calls to `next` are.
   */
  class Exchange {
    const authorization: Option<string>  // req.header("Authorization")
    const body: Json                      // req.body
    var user: Option<Identity>            // req.user
    var sent: seq<Response>               // responses written, in order
    var nextCalls: nat                    // how often next() was called

    constructor (authorization: Option<string>, body: Json)
      ensures this.authorization == authorization && this.body == body
      ensures user == None && sent == [] && nextCalls == 0
    {
      this.authorization := authorization;
      this.body := body;
      user := None;
      sent := [];
      nextCalls := 0;
    }

    /**
     * Since the old state, the exchange did exactly what `o` says: one call to
     * `next` and no response, or one response and no call to `next`.
     */
    twostate predicate Completed(o: Outcome)
      reads this
    {
      match o
      case Continue => nextCalls == old(nextCalls) + 1 && sent == old(sent)
      case Respond(status, body) => nextCalls == old(nextCalls) && sent == old(sent) + [Response(status, body)]
    }

    /** Carries out a decision: `next()`, or `res.status(status).json(body)`. */
    method Finish(o: Outcome)
      modifies this`sent, this`nextCalls
      ensures Completed(o)
    {
      match o
      case Continue =>
        nextCalls := nextCalls + 1;
      case Respond(status, body) =>
        sent := sent + [Response(status, body)];
    }
  }
}
