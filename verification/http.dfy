/** The JSON responses of the API routes: a status code and the body's shape. */
module Http {

  datatype Body =
    | OkBody                                              // { ok: true }
    | ErrorBody(error: string)                            // { error }
    | TranslatedBody(translated: string)                  // { translated }

  datatype Response = Response(status: int, body: Body)

  /** A request body as `request.json()` reads it: not JSON at all (the call throws), the JSON
      value `null`, or a parsed value of the expected shape. */
  datatype Payload<+T> = Malformed | Null | Parsed(value: T)
}
