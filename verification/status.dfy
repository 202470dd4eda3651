/** The `if/elif` chain of `Player.__init__` that turns the HTTP status of the
    players request into a stored body, a raised error, or nothing at all. */
module Status {
  import opened Errors
  import opened JsonBody

  const StatusOk: int := 200

  /** The statuses the chain raises on, with the error each one raises. */
  const ErrorStatuses: map<int, ApiErrorKind> :=
    map[403 := InvalidAPIToken, 429 := RateLimitExceeded, 500 := APIError,
        503 := APIError, 400 := InvalidParameter]

  /** What the chain does with a response. Unhandled is the fall-through of a
      chain without `else`: nothing is raised and `json_response` is never set. */
  datatype Outcome =
    | Loaded(body: Json)
    | Raised(kind: ApiErrorKind)
    | Unhandled

  /** The chain, branch by branch in the order the source tests them. */
  function Classify(status: int, body: Json): (o: Outcome)
    ensures o.Loaded? <==> status == StatusOk
    ensures o.Loaded? ==> o.body == body
    ensures o.Raised? <==> status in ErrorStatuses
    ensures o.Raised? ==> o.kind == ErrorStatuses[status]
    ensures o.Unhandled? <==> status != StatusOk && status !in ErrorStatuses
  {
    if status == 200 then Loaded(body)
    else if status == 403 then Raised(InvalidAPIToken)
    else if status == 429 then Raised(RateLimitExceeded)
    else if status == 500 then Raised(APIError)
    else if status == 503 then Raised(APIError)
    else if status == 400 then Raised(InvalidParameter)
    else Unhandled
  }

  /** Each error kind is raised for exactly the statuses listed against it,
      and for no other status. */
  lemma RaisedExactly(status: int, body: Json)
    ensures Classify(status, body) == Raised(InvalidAPIToken) <==> status == 403
    ensures Classify(status, body) == Raised(RateLimitExceeded) <==> status == 429
    ensures Classify(status, body) == Raised(APIError) <==> status == 500 || status == 503
    ensures Classify(status, body) == Raised(InvalidParameter) <==> status == 400
  {
  }

  /** The outcome of an error status does not depend on the body. */
  lemma ErrorIgnoresBody(status: int, a: Json, b: Json)
    requires status != StatusOk
    ensures Classify(status, a) == Classify(status, b)
  {
  }
}
