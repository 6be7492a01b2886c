/** Vocabulary shared by every store of the reporting server: record ids,
    the four roles, the authenticated requester and the outcome of a request. */
module Common {

  /** A document id. The server's ids are generated by the document store;
      here they are natural numbers handed out by each store in increasing order. */
  type Id = nat

  /** A point in time, in milliseconds (the value `Date.now()` returns). */
  type Timestamp = int

  datatype Option<+T> = None | Some(value: T)

  datatype Role = Student | Lecturer | PrincipalLecturer | ProgramLeader

  /** The failures a request handler reports, one per HTTP status it sends:
      404, 403, 400 (with its message) and 500. */
  datatype Error = NotFound | Forbidden | BadRequest(message: string) | ServerError

  datatype Result<+T> = Ok(value: T) | Err(error: Error)

  /** The requester as the authentication middleware resolves it (`req.user`). */
  datatype Principal = Principal(id: Id, role: Role, firstName: string, lastName: string)

  /** `${firstName} ${lastName}` */
  function FullName(firstName: string, lastName: string): (r: string)
    ensures |r| == |firstName| + 1 + |lastName|
    ensures r[..|firstName|] == firstName && r[|firstName|] == ' ' && r[|firstName| + 1..] == lastName
  {
    firstName + " " + lastName
  }

  /** A query-string filter the handler takes into account (`if (x) query.f = x`): present and
      non-empty, since the empty string is falsy. */
  predicate Given(q: Option<string>) {
    q.Some? && q.value != ""
  }

  /** An optional value that a handler overrides with another when one is supplied. */
  function OrElse<T>(preferred: Option<T>, fallback: T): (r: T)
    ensures preferred.Some? ==> r == preferred.value
    ensures preferred.None? ==> r == fallback
  {
    if preferred.Some? then preferred.value else fallback
  }
}
