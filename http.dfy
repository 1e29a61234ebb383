/** What a request handler hands to Express: a response it sends, or an error it passes to `next`. */
module Http {
  import opened Users

  /**
   * An error object passed to `next`: its status code, where 0 stands for an
   * error without a (truthy) code, and its message, where "" stands for an
   * error without one.
   */
  datatype Fault = Fault(code: int, message: string)

  /** The JSON bodies the service sends. */
  datatype Body =
    | MessageBody(message: string)
    | UserBody(message: string, user: Record)
    | TokenBody(token: string, userId: Id)

  datatype Response = Response(status: int, body: Body)

  /** A handler either responds itself or forwards a failure to the error responder. */
  datatype Outcome = Sent(response: Response) | Next(fault: Fault)
}
