/** What an endpoint hands back: its value, or the status and detail of the
    HTTPException it raised. */
module Http {

  datatype Reply<T> = Ok(value: T) | Error(status: nat, detail: string)

  const BadRequest: nat := 400
  const Unauthorized: nat := 401
  const NotFound: nat := 404
  const InternalServerError: nat := 500
}
