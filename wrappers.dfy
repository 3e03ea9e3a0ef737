/** Failure-compatible result types. In the application every call to a hosted
    service either returns a value or throws; a thrown error is modelled as a
    failure carrying the error's message or code. */
module Wrappers {

  datatype Option<+T> = None | Some(value: T) {
    function GetOr(default: T): T {
      match this
      case Some(v) => v
      case None => default
    }
  }

  /** The result of an operation that produces a value or throws. */
  datatype Result<+T> = Success(value: T) | Failure(error: string)

  /** The result of an operation that produces nothing or throws. */
  datatype Outcome = Pass | Fail(error: string)

  /** What a page handler did: returned early, completed, or caught an error
      (which the page reports with a destructive notification). */
  datatype HandlerResult = Skipped | Done | Failed
}

/** The hosted services (document store, blob store, identity provider) seen
    from the client: each call returns or fails, and the model does not decide
    which. Values the services generate (document ids, download URLs, user
    ids, error codes) are likewise left open. */
module Remote {

  /** Whether one remote call returns normally. */
  method Call() returns (ok: bool)
  {
    ok := *;
  }

  /** An error code chosen by the service, such as "auth/wrong-password". */
  method ErrorCode() returns (code: string)
  {
    code := *;
  }

  /** A length that exceeds the length of every string in `keys`. */
  ghost function LongerThanAll(keys: set<string>): (n: nat)
    ensures forall k :: k in keys ==> |k| < n
    decreases |keys|
  {
    if keys == {} then 0
    else
      var k :| k in keys;
      var rest := LongerThanAll(keys - {k});
      if |k| < rest then rest else |k| + 1
  }

  /** A string of `n` copies of 'x'. */
  function Padding(n: nat): (s: string)
    ensures |s| == n
  {
    if n == 0 then "" else "x" + Padding(n - 1)
  }

  /** A finite set of strings always leaves some string unused. */
  lemma FreshStringExists(keys: set<string>)
    ensures exists s :: s !in keys
  {
    var s := Padding(LongerThanAll(keys));
    assert s !in keys;
  }

  /** An identifier the service generates, distinct from every one in use. */
  method FreshName(used: set<string>) returns (s: string)
    ensures s !in used
  {
    FreshStringExists(used);
    s :| s !in used;
  }
}
