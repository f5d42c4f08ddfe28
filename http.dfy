/** The HTTP vocabulary the gateway's handlers share: bytes, header maps
    with net/http's Get/Set behaviour, and the JSON replies written with
    gin's `c.JSON(status, body)`. */
module Http {

  newtype byte = b: int | 0 <= b < 256

  datatype Option<+T> = None | Some(value: T)

  datatype Result<+T, +E> = Success(value: T) | Failure(error: E)

  const STATUS_OK := 200
  const STATUS_BAD_REQUEST := 400
  const STATUS_UNAUTHORIZED := 401
  const STATUS_INTERNAL_SERVER_ERROR := 500

  /** A header map whose keys are already in canonical MIME form; each key
      holds the list of values sent under it. */
  type Headers = map<string, seq<string>>

  const CONTENT_TYPE := "Content-Type"
  const AUTHORIZATION := "Authorization"

  /** `Header.Get`: the first value stored under the key, or "" when the key
      is absent or holds no value. */
  function HeaderGet(h: Headers, key: string): string
  {
    if key in h && |h[key]| > 0 then h[key][0] else ""
  }

  /** `Header.Set`: the key afterwards holds exactly the one given value and
      every other key is left as it was. */
  function HeaderSet(h: Headers, key: string, value: string): (r: Headers)
    ensures key in r && r[key] == [value]
    ensures HeaderGet(r, key) == value
    ensures r.Keys == h.Keys + {key}
    ensures forall k :: k in h && k != key ==> r[k] == h[k]
  {
    h[key := [value]]
  }

  /** The JSON objects the gateway writes as response bodies. */
  datatype JsonBody =
    | ErrorBody(error: string)                              // {"error": ...}
    | ErrorDetails(error: string, details: string)          // {"error": ..., "details": ...}
    | TokenBody(token: string, expiresAtUnix: int)           // {"token": ..., "expires_at_unix": ...}

  /** A response written by a handler: status code and JSON body. */
  datatype Reply = Reply(status: int, body: JsonBody)
}
