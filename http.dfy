/** An HTTP response as the server's handlers build it: a status code and a
    body that the framework serialises as JSON. */
module Http {
  datatype Response<B> = Response(status: nat, body: B)

  const OK: nat := 200
  const BAD_REQUEST: nat := 400
  const UNAUTHORIZED: nat := 401
  const NOT_FOUND: nat := 404
  const INTERNAL_SERVER_ERROR: nat := 500
}
