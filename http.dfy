/** The pieces of the HTTP layer the route handlers share: the admin session and status codes. */
module Http {
  import opened Wrappers

  /**
   * What `getServerSession` yields for the admin routes: no session, or a session whose
   * `user` may be missing. Credential checking itself is not part of this model.
   */
  datatype ServerSession = NoSession | Session(user: Option<string>)

  const OK := 200
  const CREATED := 201
  const BAD_REQUEST := 400
  const UNAUTHORIZED := 401

  /** A route's JSON reply: a body with a success status, or `{ error }` with an error status. */
  datatype Reply<T> = Success(status: nat, body: T) | Failure(status: nat, error: string)
}
