/**
 * middleware.go: the bearer-token gate, and its installation in main.go.
 * The gate reads the Authorization header and either aborts the request with
 * a status and no body, or forwards it to the rest of the chain.
 */
module Middleware {
  import opened GoStrings

  const StatusUnauthorized: int := 401
  const StatusNotAcceptable: int := 406

  datatype Decision = Forward | Reject(status: int)

  /**
   * The header splits on " " into exactly the two pieces "Bearer" and a
   * token: "Bearer " followed by text without a space.
   */
  predicate BearerShaped(auth: string)
  {
    |auth| >= 7 && auth[..7] == "Bearer " && ' ' !in auth[7..]
  }

  /** The shape test of the source, over `strings.Split`, is `BearerShaped`. */
  lemma ShapeIff(auth: string)
    ensures (|Split(auth, ' ')| == 2 && Split(auth, ' ')[0] == "Bearer") <==> BearerShaped(auth)
    ensures BearerShaped(auth) ==> Split(auth, ' ')[1] == auth[7..]
  {
    if BearerShaped(auth) {
      assert auth == "Bearer" + [' '] + auth[7..];
      SplitConcat("Bearer", auth[7..], ' ');
      SplitWithout("Bearer", ' ');
      SplitWithout(auth[7..], ' ');
    }
    var parts := Split(auth, ' ');
    if |parts| == 2 && parts[0] == "Bearer" {
      JoinSplit(auth, ' ');
      SplitPieces(auth, ' ');
      assert parts[1..] == [parts[1]];
      assert auth == "Bearer" + [' '] + parts[1];
      assert auth[7..] == parts[1];
    }
  }

  /**
   * The closure returned by `AuthMiddleware(secret)`: 401 for a missing
   * header, 406 for a header that is not "Bearer <token>", 401 for a token
   * other than the secret, and otherwise forward.
   */
  function Authorize(auth: string, secret: string): (d: Decision)
    ensures d == Forward <==> auth == "Bearer " + secret && ' ' !in secret
    ensures d == Reject(StatusNotAcceptable) <==> auth != "" && !BearerShaped(auth)
    ensures d == Reject(StatusUnauthorized) <==>
              auth == "" || (BearerShaped(auth) && auth[7..] != secret)
  {
    ShapeIff(auth);
    assert ("Bearer " + secret)[..7] == "Bearer " && ("Bearer " + secret)[7..] == secret;
    if auth == "" then Reject(StatusUnauthorized)
    else
      var parts := Split(auth, ' ');
      if |parts| != 2 || parts[0] != "Bearer" then Reject(StatusNotAcceptable)
      else if parts[1] != secret then Reject(StatusUnauthorized)
      else Forward
  }

  /** A secret that contains a space can never be matched. */
  lemma SecretWithSpaceRejectsAll(auth: string, secret: string)
    requires ' ' in secret
    ensures Authorize(auth, secret).Reject?
  {
  }

  /** With the secret "abc123": no header, or a bearer token that is not the secret, gets 401. */
  lemma UnauthorizedExamples()
    ensures Authorize("", "abc123") == Reject(401)
    ensures Authorize("Bearer wrong", "abc123") == Reject(401)
  {
    var auth := "Bearer wrong";
    assert auth == "Bearer " + "wrong";
    assert auth[..7] == "Bearer " && auth[7..] == "wrong";
    assert ' ' !in "wrong";
  }

  /** An empty token after "Bearer " is a wrong token (401), not a malformed header. */
  lemma EmptyTokenExample()
    ensures Authorize("Bearer ", "abc123") == Reject(401)
  {
    var auth := "Bearer ";
    assert auth[..7] == "Bearer " && auth[7..] == "";
  }

  /** With the secret "abc123": headers of the wrong shape get 406. */
  lemma NotAcceptableExamples()
    ensures Authorize("Basic abc123", "abc123") == Reject(406)
    ensures Authorize("Bearer", "abc123") == Reject(406)
    ensures Authorize("Bearer  x", "abc123") == Reject(406)
    ensures Authorize("a b c", "abc123") == Reject(406)
  {
    assert "Basic abc123"[..7] != "Bearer " by { assert "Basic abc123"[1] == 'a'; }
    assert "Bearer  x"[7..][0] == ' ';
  }

  /** With the secret "abc123": the one header that is forwarded. */
  lemma ForwardExample()
    ensures Authorize("Bearer abc123", "abc123") == Forward
  {
    assert "Bearer abc123" == "Bearer " + "abc123";
    assert ' ' !in "abc123";
  }

  /** The gate's effect on a request: aborted with a status, or passed on. */
  datatype Gate<T> = Aborted(status: int) | Passed(result: T)

  /**
   * The chain in front of every route (main.go installs the gate only when
   * BUSY_SECRET is non-empty). `next` is what the rest of the chain produces
   * for the request. A forwarded request is passed on unchanged, and an
   * aborted one carries nothing of `next`: its handler never ran.
   */
  function Guard<T>(secret: string, auth: string, next: T): (g: Gate<T>)
    ensures secret == "" ==> g == Passed(next)
    ensures g.Passed? ==> g.result == next
    ensures g.Aborted? <==> secret != "" && Authorize(auth, secret).Reject?
    ensures g.Aborted? ==> g.status == StatusUnauthorized || g.status == StatusNotAcceptable
  {
    if secret == "" then Passed(next)
    else
      match Authorize(auth, secret)
      case Forward => Passed(next)
      case Reject(status) => Aborted(status)
  }
}
