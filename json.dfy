/** The JSON bodies exchanged between the extraction service and the client. */
module Json {

  /** Every body the service sends is a flat JSON object whose values are strings. */
  type Object = map<string, string>

  /** The single-entry body `{'error': message}` used for every error the service reports. */
  function ErrorBody(message: string): (o: Object)
    ensures o.Keys == {"error"} && o["error"] == message
  {
    map["error" := message]
  }

  /** JavaScript's `o.error` is truthy: the key is present and its string is not empty. */
  predicate HasError(o: Object) {
    "error" in o && o["error"] != ""
  }
}
