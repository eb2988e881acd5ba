/** Values shared by the modules of the slack-link model. */
module Types {

  datatype Option<+T> = None | Some(value: T)

  /**
   * The outcome of one outbound call made with the `request` library, as its
   * callback sees it: either a transport error (`error` is set and there is no
   * response), or a response with its status code and body text.
   */
  datatype HttpResult = TransportError | Response(status: int, body: string)

  /** The callback condition `!error && resp.statusCode == 200`. */
  predicate Succeeded(result: HttpResult)
  {
    result.Response? && result.status == 200
  }
}
