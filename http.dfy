/**
 * The part of gin's request context that the handlers touch: the request
 * they read and the response writer they write to.
 *
 * gin's writer starts at status 200 with nothing written. Setting a status
 * takes effect only while nothing has been written and only for a positive
 * code. Rendering a body commits the status, and every later status is
 * ignored while later bodies are appended. A status in 100-199, 204 or 304
 * is sent without the body.
 */
module Http {
  import opened Wrappers

  /** The names of the methods gin knows. */
  const StandardNames: set<string> := {"GET", "POST", "PUT", "PATCH", "HEAD", "OPTIONS", "DELETE", "CONNECT", "TRACE"}

  /** Any other request method: a name that is not one of the standard ones. */
  type ExtensionName = s: string | s !in StandardNames witness "PROPFIND"

  datatype Method = GET | POST | PUT | PATCH | HEAD | OPTIONS | DELETE | CONNECT | TRACE
                  | Other(name: ExtensionName)

  /** The methods a route registered with gin's `Any` answers. */
  const AnyMethods: set<Method> := {GET, POST, PUT, PATCH, HEAD, OPTIONS, DELETE, CONNECT, TRACE}

  function MethodName(m: Method): string
  {
    match m
    case GET => "GET"
    case POST => "POST"
    case PUT => "PUT"
    case PATCH => "PATCH"
    case HEAD => "HEAD"
    case OPTIONS => "OPTIONS"
    case DELETE => "DELETE"
    case CONNECT => "CONNECT"
    case TRACE => "TRACE"
    case Other(name) => name
  }

  /** Distinct methods have distinct names, so a request's method is determined by its name. */
  lemma MethodNameInjective(a: Method, b: Method)
    ensures MethodName(a) == MethodName(b) ==> a == b
  {
  }

  /** An inbound request; `clientIP` is the address gin resolves from it. */
  datatype Request = Request(verb: Method, path: string, headers: map<string, seq<string>>,
                             remoteAddr: string, clientIP: string)

  /** `c.GetHeader(name)`: the first value of the header, or "". */
  function Header(req: Request, name: string): string
  {
    if name in req.headers && |req.headers[name]| > 0 then req.headers[name][0] else ""
  }

  /** JSON values as the handlers build them with `gin.H`. */
  datatype Json = Null
                | Str(s: string)
                | Obj(members: seq<(string, Json)>)
                | HeaderMap(h: map<string, seq<string>>)
                | GoError(text: string)

  /** What one render call writes: `c.String`, `c.JSON` or `c.Data`. */
  datatype Chunk = Text(text: string) | JsonBody(value: Json) | Data(contentType: string, content: seq<bv8>)

  /** The status and body a request is answered with. */
  datatype Reply = Reply(status: int, body: seq<Chunk>)

  /**
   * What a handler leads to: a reply, or the end of the process with an exit
   * code, together with the reply it had started writing, if any (whose
   * delivery is not guaranteed).
   */
  datatype Outcome = Respond(reply: Reply) | Terminate(code: int, started: Option<Reply>)

  /** gin's `bodyAllowedForStatus`: 1xx, 204 No Content and 304 Not Modified carry no body. */
  function BodyAllowed(code: int): (allowed: bool)
    ensures 100 <= code <= 199 || code == 204 || code == 304 ==> !allowed
    ensures 200 <= code <= 299 && code != 204 ==> allowed
    ensures 400 <= code <= 599 ==> allowed
  {
    !(100 <= code <= 199) && code != 204 && code != 304
  }

  /** gin's response writer for one request. */
  class Recorder {
    var status: int
    var written: bool
    var body: seq<Chunk>

    /** A fresh writer, as gin hands one to every request. */
    constructor ()
      ensures status == 200 && !written && body == []
    {
      status := 200;
      written := false;
      body := [];
    }

    /** `c.Status(code)`. */
    method WriteHeader(code: int)
      modifies this
      ensures status == (if code > 0 && !written then code else old(status))
      ensures written == old(written) && body == old(body)
    {
      if code > 0 && !written {
        status := code;
      }
    }

    /** `c.String`, `c.JSON`, `c.Data`: set the status, then write the body. */
    method Render(code: int, chunk: Chunk)
      modifies this
      ensures written
      ensures status == (if code > 0 && !old(written) then code else old(status))
      ensures body == old(body) + (if BodyAllowed(code) then [chunk] else [])
    {
      WriteHeader(code);
      written := true;
      if BodyAllowed(code) {
        body := body + [chunk];
      }
    }

    function Snapshot(): Reply
      reads this
    {
      Reply(status, body)
    }

    /** The reply the handler had started, for a process that ends now. */
    function Started(): Option<Reply>
      reads this
    {
      if written then Some(Reply(status, body)) else None
    }
  }
}
