/** The HTTP replies the handlers send: a status, a JSON (or text) body, and
    the one header any handler sets explicitly (`Cache-Control`). */
module Http {
  import opened Wrappers

  datatype Body =
    | ErrorBody(error: string)                                        // { error }
    | UrlBody(url: string)                                            // { url }
    | PaidBody(paid: bool)                                            // { paid }
    | ReceivedBody                                                    // { received: true }
    | UserBody(success: bool, uid: string, email: Option<string>, role: string)
    | TextBody(text: string)                                          // res.send(text)

  datatype Response = Response(status: int, body: Body, cacheControl: Option<string>)

  /** `res.status(status).json({ error })`. */
  function ErrorReply(status: int, error: string): Response {
    Response(status, ErrorBody(error), None)
  }

  /** `res.json(body)`: status 200, no extra header. */
  function Ok(body: Body): Response {
    Response(200, body, None)
  }
}
