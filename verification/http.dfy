/** What the server reads from an upstream HTTP response. */
module Http {
  import opened JsValue

  /**
   * `{ ok, status, json }`: whether the status is 2xx, the status, and the
   * body as parsed JSON (`null` for an empty body).
   */
  datatype Response = Response(ok: bool, status: int, json: Value)
}
