/**
 * handlers.go: what each diagnostic handler answers, over abstract inputs
 * (the path or query parameter, the readiness flag, the outcome of parsing
 * the body, of reading or of saving a file). Each handler is a method that
 * writes to a fresh `Recorder`, the writer gin hands every request, exactly
 * as the source writes to its context, and is proved to give the reply (or
 * process exit) its contract or its specification function states.
 */
module Handlers {
  import opened Wrappers
  import opened Strconv
  import opened Helper
  import opened Http
  import opened GoTime

  const StatusOK: int := 200
  const StatusBadRequest: int := 400
  const StatusNotFound: int := 404
  const StatusInternalServerError: int := 500

  /** `ping`: 200 with an empty body. */
  method Ping() returns (out: Outcome)
    ensures out == Respond(Reply(StatusOK, []))
  {
    var w := new Recorder();
    w.WriteHeader(StatusOK);
    out := Respond(w.Snapshot());
  }

  /** `isReady`: 200 "ok" exactly when the ready flag is set, else 400 "not ready". */
  method IsReady(ready: bool) returns (out: Outcome)
    ensures out.Respond?
    ensures out.reply.status == StatusOK <==> ready
    ensures !ready ==> out.reply.status == StatusBadRequest
    ensures out.reply.body == [Text(if ready then "ok" else "not ready")]
  {
    var w := new Recorder();
    if ready {
      w.Render(StatusOK, Text("ok"));
    } else {
      w.Render(StatusBadRequest, Text("not ready"));
    }
    out := Respond(w.Snapshot());
  }

  /** `crash`: the process exits with status 1 and nothing is written. */
  method Crash() returns (out: Outcome)
    ensures out == Terminate(1, None)
  {
    var w := new Recorder();
    out := Terminate(1, w.Started());
  }

  /** `exit`: 200 "crashed" is written, then the process exits with status 0. */
  method Exit() returns (out: Outcome)
    ensures out == Terminate(0, Some(Reply(StatusOK, [Text("crashed")])))
  {
    var w := new Recorder();
    w.Render(StatusOK, Text("crashed"));
    assert w.body == [Text("crashed")];
    out := Terminate(0, w.Started());
  }

  // ---------------------------------------------------------------- echo

  /**
   * The outcome of `c.ShouldBindJSON`: the decoded value, or the text of
   * the error (an absent body gives the text "EOF").
   */
  datatype Bind = Decoded(value: Json) | BindFailed(text: string)

  /** The object `echo` answers with. */
  function EchoReport(req: Request, body: Json): Json
  {
    Obj([("headers", HeaderMap(req.headers)), ("method", Str(MethodName(req.verb))),
         ("ip", Str(req.remoteAddr)), ("detectedIP", Str(req.clientIP)),
         ("body", body), ("path", Str(req.path))])
  }

  /**
   * `echo`: an absent body is echoed as null, a decoded body as itself; any
   * other bind error answers 400 with its text and nothing is echoed.
   */
  method Echo(req: Request, bind: Bind) returns (out: Outcome)
    ensures bind.Decoded? ==> out == Respond(Reply(StatusOK, [JsonBody(EchoReport(req, bind.value))]))
    ensures bind == BindFailed("EOF") ==> out == Respond(Reply(StatusOK, [JsonBody(EchoReport(req, Null))]))
    ensures bind.BindFailed? && bind.text != "EOF" ==>
              out == Respond(Reply(StatusBadRequest, [JsonBody(Obj([("error", Str(bind.text))]))]))
  {
    var w := new Recorder();
    var body := Null;
    if bind.BindFailed? {
      if bind.text == "EOF" {
        body := Null;
      } else {
        w.Render(StatusBadRequest, JsonBody(Obj([("error", Str(bind.text))])));
        out := Respond(w.Snapshot());
        return;
      }
    } else {
      body := bind.value;
    }
    w.Render(StatusOK, JsonBody(EchoReport(req, body)));
    out := Respond(w.Snapshot());
  }

  // ---------------------------------------------------------------- wait

  function WaitInvalid(ms: string): string
  {
    ms + " is not a valid ms parameter. Expected a number"
  }

  /**
   * What `wait` answers. A non-numeric parameter is answered 400, and, as
   * the source has no `return` after that write, execution goes on: the
   * later 200 is ignored, but "ok" is appended to the body.
   */
  function WaitReply(ms: string): Reply
  {
    if ms == "" then Reply(StatusBadRequest, [Text("did not send 'ms' parameter")])
    else if Atoi(ms).Converted? then Reply(StatusOK, [Text("ok")])
    else Reply(StatusBadRequest, [Text(WaitInvalid(ms)), Text("ok")])
  }

  /**
   * How long `wait` sleeps, in nanoseconds (`None`: it returns before the
   * sleep). The parameter goes through `time.Duration(intTime) *
   * time.Millisecond`, so it wraps as an int64 and a duration that is not
   * positive does not sleep; after a failed parse the count is the int Atoi
   * returned beside the error.
   */
  function WaitSleep(ms: string): Option<nat>
  {
    if ms == "" then None else Some(SleepNanos(Atoi(ms).value))
  }

  /** `wait`, as written. */
  method Wait(ms: string) returns (sleep: Option<nat>, out: Outcome)
    ensures sleep == WaitSleep(ms)
    ensures out == Respond(WaitReply(ms))
  {
    var w := new Recorder();
    if ms == "" {
      w.Render(StatusBadRequest, Text("did not send 'ms' parameter"));
      return None, Respond(w.Snapshot());
    }
    var conversion := Atoi(ms);
    if conversion.Failed? {
      w.Render(StatusBadRequest, Text(WaitInvalid(ms)));
    }
    sleep := Some(SleepNanos(conversion.value));
    w.Render(StatusOK, Text("ok"));
    out := Respond(w.Snapshot());
  }

  /** An empty parameter answers 400 and returns without sleeping. */
  lemma WaitMissing()
    ensures WaitReply("") == Reply(StatusBadRequest, [Text("did not send 'ms' parameter")])
    ensures WaitSleep("") == None
  {
  }

  /**
   * Any int64 n answers 200 "ok". The sleep is n milliseconds while n
   * milliseconds fit in an int64 of nanoseconds; a negative n does not
   * sleep, and neither does the first count past the int64 range, which
   * wraps to a negative duration.
   */
  lemma WaitNumber(n: int)
    requires MinInt <= n <= MaxInt
    ensures WaitReply(Itoa(n)) == Reply(StatusOK, [Text("ok")])
    ensures WaitSleep(Itoa(n)) == Some(SleepNanos(n))
    ensures 0 <= n <= MaxInt / Millisecond ==> WaitSleep(Itoa(n)) == Some(n * Millisecond)
    ensures -(MaxInt / Millisecond) <= n < 0 ==> WaitSleep(Itoa(n)) == Some(0)
    ensures n == MaxInt / Millisecond + 1 ==> WaitSleep(Itoa(n)) == Some(0)
  {
    AtoiItoa(n);
    SleepWraps();
  }

  /**
   * Any non-empty parameter Atoi rejects: the reply is 400 but carries the
   * error text followed by "ok". The handler still reaches the sleep, with
   * Atoi's fallback (0 on a syntax error, the clamped bound on a range
   * error), and each of those wraps or rounds to no sleep at all.
   */
  lemma WaitFallsThrough(ms: string)
    requires ms != "" && Atoi(ms).Failed?
    ensures WaitReply(ms) == Reply(StatusBadRequest, [Text(WaitInvalid(ms)), Text("ok")])
    ensures WaitSleep(ms) == Some(0)
  {
    BoundsDoNotSleep();
  }

  /** The two int64 bounds, taken as milliseconds, wrap to a duration that does not sleep. */
  lemma BoundsDoNotSleep()
    ensures SleepNanos(MaxInt) == 0 && SleepNanos(MinInt) == 0
  {
    assert MaxInt * Millisecond == 500_000 * 0x1_0000_0000_0000_0000 - Millisecond;
    assert Int64(MaxInt * Millisecond) == -Millisecond;
    assert MinInt * Millisecond == -500_000 * 0x1_0000_0000_0000_0000;
    assert Int64(MinInt * Millisecond) == 0;
  }

  /**
   * `wait` with the `return` after the 400 that the source evidently meant:
   * a rejected parameter answers the error alone and never sleeps.
   */
  method WaitIntended(ms: string) returns (sleep: Option<nat>, out: Outcome)
    ensures out.Respond?
    ensures sleep.Some? <==> out.reply.status == StatusOK
    ensures out.reply.status == StatusOK <==> ms != "" && Atoi(ms).Converted?
    ensures out.reply.status == StatusOK ==> sleep == Some(SleepNanos(Atoi(ms).value)) && out.reply.body == [Text("ok")]
    ensures out.reply.status != StatusOK ==> out.reply.status == StatusBadRequest && |out.reply.body| == 1
    ensures ms != "" && Atoi(ms).Failed? ==> out.reply.body == [Text(WaitInvalid(ms))]
  {
    var w := new Recorder();
    if ms == "" {
      w.Render(StatusBadRequest, Text("did not send 'ms' parameter"));
      return None, Respond(w.Snapshot());
    }
    var conversion := Atoi(ms);
    if conversion.Failed? {
      w.Render(StatusBadRequest, Text(WaitInvalid(ms)));
      return None, Respond(w.Snapshot());
    }
    sleep := Some(SleepNanos(conversion.value));
    w.Render(StatusOK, Text("ok"));
    out := Respond(w.Snapshot());
  }

  // ---------------------------------------------------------------- statusCode

  function CodeInvalid(code: string): string
  {
    code + " is not a valid code parameter. Expected a number"
  }

  function StatusText(n: int): string
  {
    "status " + Itoa(n)
  }

  /**
   * What `statusCode` answers. After a failed parse, execution goes on with
   * the int Atoi returned: the 400 already written stands, and "status <n>"
   * is appended.
   */
  function StatusCodeReply(code: string): Reply
  {
    if code == "" then Reply(StatusBadRequest, [Text("did not send 'code' parameter")])
    else
      var n := Atoi(code).value;
      var tail := if BodyAllowed(n) then [Text(StatusText(n))] else [];
      if Atoi(code).Failed? then Reply(StatusBadRequest, [Text(CodeInvalid(code))] + tail)
      else Reply(if n > 0 then n else StatusOK, tail)
  }

  /** `statusCode`, as written. */
  method StatusCode(code: string) returns (out: Outcome)
    ensures out == Respond(StatusCodeReply(code))
  {
    var w := new Recorder();
    if code == "" {
      w.Render(StatusBadRequest, Text("did not send 'code' parameter"));
      return Respond(w.Snapshot());
    }
    var conversion := Atoi(code);
    var n := conversion.value;
    if conversion.Failed? {
      w.Render(StatusBadRequest, Text(CodeInvalid(code)));
      assert w.status == StatusBadRequest && w.body == [Text(CodeInvalid(code))];
    }
    w.Render(n, Text(StatusText(n)));
    assert w.body == (if conversion.Failed? then [Text(CodeInvalid(code))] else [])
                     + (if BodyAllowed(n) then [Text(StatusText(n))] else []);
    out := Respond(w.Snapshot());
  }

  /** An empty code answers 400 and nothing else. */
  lemma StatusCodeMissing()
    ensures StatusCodeReply("") == Reply(StatusBadRequest, [Text("did not send 'code' parameter")])
  {
  }

  /** A code c that may carry a body is answered with status c and body "status c". */
  lemma StatusCodeExact(c: int)
    requires 200 <= c <= 999 && c != 204 && c != 304
    ensures StatusCodeReply(Itoa(c)) == Reply(c, [Text("status " + Itoa(c))])
  {
    AtoiItoa(c);
  }

  /** A code that forbids a body (1xx, 204, 304) is answered with status c and no body. */
  lemma StatusCodeWithoutBody(c: int)
    requires 100 <= c <= 199 || c == 204 || c == 304
    ensures StatusCodeReply(Itoa(c)) == Reply(c, [])
  {
    AtoiItoa(c);
  }

  /** A code of 0 or below is ignored by the writer: 200 with body "status c". */
  lemma StatusCodeNotPositive(c: int)
    requires MinInt <= c <= 0
    ensures StatusCodeReply(Itoa(c)) == Reply(StatusOK, [Text("status " + Itoa(c))])
  {
    AtoiItoa(c);
  }

  /**
   * A code Atoi rejects with a syntax error: 400 with the error text, then
   * "status 0" from the fall-through.
   */
  lemma StatusCodeFallsThrough(code: string)
    requires code != "" && Atoi(code).Failed? && Atoi(code).err == ErrSyntax
    ensures StatusCodeReply(code) == Reply(StatusBadRequest, [Text(CodeInvalid(code)), Text("status 0")])
  {
    assert NatDigits(0) == ['0'];
    assert StatusText(0) == "status 0";
  }

  /**
   * A code Atoi rejects with a range error (an out-of-range decimal, or a
   * digit run past 2^64 - 1 before a bad character): 400 with the error
   * text, then "status" and the clamped bound from the fall-through.
   */
  lemma StatusCodeRangeError(code: string)
    requires code != "" && Atoi(code).Failed? && Atoi(code).err == ErrRange
    ensures StatusCodeReply(code) ==
              Reply(StatusBadRequest, [Text(CodeInvalid(code)), Text(StatusText(if code[0] == '-' then MinInt else MaxInt))])
  {
  }

  /** `statusCode` with the evidently intended `return` after the 400. */
  method StatusCodeIntended(code: string) returns (out: Outcome)
    ensures out.Respond?
    ensures code == "" || Atoi(code).Failed? ==>
              out.reply.status == StatusBadRequest && |out.reply.body| == 1
    ensures code != "" && Atoi(code).Failed? ==> out.reply.body == [Text(CodeInvalid(code))]
    ensures code != "" && Atoi(code).Converted? ==> out == Respond(StatusCodeReply(code))
  {
    var w := new Recorder();
    if code == "" {
      w.Render(StatusBadRequest, Text("did not send 'code' parameter"));
      return Respond(w.Snapshot());
    }
    var conversion := Atoi(code);
    if conversion.Failed? {
      w.Render(StatusBadRequest, Text(CodeInvalid(code)));
      return Respond(w.Snapshot());
    }
    w.Render(conversion.value, Text(StatusText(conversion.value)));
    out := Respond(w.Snapshot());
  }

  // ---------------------------------------------------------------- files

  /** The outcome of `os.ReadFile`: the bytes, or the error value. */
  datatype ReadResult = Read(content: seq<bv8>) | ReadFailed(err: string)

  /**
   * What `readFile` answers: 404 with the error and the attempted path, or
   * 200 with the bytes and the MIME type `mimeOf` (`mime.TypeByExtension`)
   * gives for `SplitAtLast(filename, ".")`.
   */
  function ReadFileReply(filename: string, read: ReadResult, mimeOf: string -> string): Reply
  {
    match read
    case ReadFailed(err) =>
      Reply(StatusNotFound, [JsonBody(Obj([("error", GoError(err)), ("path", Str(filename))]))])
    case Read(content) =>
      Reply(StatusOK, [Data(mimeOf(SplitAtLast(filename, ".")), content)])
  }

  method ReadFile(filename: string, read: ReadResult, mimeOf: string -> string) returns (out: Outcome)
    ensures out == Respond(ReadFileReply(filename, read, mimeOf))
  {
    var w := new Recorder();
    var mimeType := mimeOf(SplitAtLast(filename, "."));
    if read.ReadFailed? {
      w.Render(StatusNotFound, JsonBody(Obj([("error", GoError(read.err)), ("path", Str(filename))])));
      return Respond(w.Snapshot());
    }
    w.Render(StatusOK, Data(mimeType, read.content));
    out := Respond(w.Snapshot());
  }

  /** The multipart field "file": its original name and its content. */
  datatype FormFile = FormFile(filename: string, content: seq<bv8>)

  /** A write of `content` to the file at `path`. */
  datatype FileWrite = FileWrite(path: string, content: seq<bv8>)

  function UploadMessage(filename: string): string
  {
    "File " + filename + " uploaded successfully"
  }

  /** The save `uploadFile` attempts: only with a file and a non-empty location. */
  function UploadSave(file: Option<FormFile>, location: string): Option<FileWrite>
  {
    if file.Some? && location != "" then Some(FileWrite(location, file.value.content)) else None
  }

  /** What `uploadFile` answers; `saveError` is the outcome of the save, if attempted. */
  function UploadReply(file: Option<FormFile>, location: string, saveError: Option<string>): Reply
  {
    if file.None? then Reply(StatusBadRequest, [JsonBody(Obj([("error", Str("No file provided"))]))])
    else if location == "" then Reply(StatusBadRequest, [JsonBody(Obj([("error", Str("No location provided"))]))])
    else if saveError.Some? then Reply(StatusInternalServerError, [JsonBody(Obj([("error", Str(saveError.value))]))])
    else Reply(StatusOK, [JsonBody(Obj([("message", Str(UploadMessage(file.value.filename)))]))])
  }

  method UploadFile(file: Option<FormFile>, location: string, saveError: Option<string>)
    returns (save: Option<FileWrite>, out: Outcome)
    ensures save == UploadSave(file, location)
    ensures out == Respond(UploadReply(file, location, saveError))
  {
    var w := new Recorder();
    save := None;
    if file.None? {
      w.Render(StatusBadRequest, JsonBody(Obj([("error", Str("No file provided"))])));
      return save, Respond(w.Snapshot());
    }
    if location == "" {
      w.Render(StatusBadRequest, JsonBody(Obj([("error", Str("No location provided"))])));
      return save, Respond(w.Snapshot());
    }
    save := Some(FileWrite(location, file.value.content));
    if saveError.Some? {
      w.Render(StatusInternalServerError, JsonBody(Obj([("error", Str(saveError.value))])));
      return save, Respond(w.Snapshot());
    }
    w.Render(StatusOK, JsonBody(Obj([("message", Str(UploadMessage(file.value.filename)))])));
    out := Respond(w.Snapshot());
  }

  /**
   * The checks run in order: a missing file is reported even when the
   * location is missing too, then the location, then the save; only a save
   * that succeeds answers 200.
   */
  lemma UploadOrder(file: Option<FormFile>, location: string, saveError: Option<string>)
    ensures file.None? ==> UploadReply(file, location, saveError).status == StatusBadRequest
                           && UploadSave(file, location).None?
    ensures UploadSave(file, location).None? <==> file.None? || location == ""
    ensures UploadReply(file, location, saveError).status == StatusOK <==>
              UploadSave(file, location).Some? && saveError.None?
    ensures UploadReply(file, location, saveError).status == StatusInternalServerError <==>
              UploadSave(file, location).Some? && saveError.Some?
  {
  }

  /** Files as the host filesystem holds them. */
  type FileSystem = map<string, seq<bv8>>

  /** The filesystem after a save that succeeded. */
  function Saved(fs: FileSystem, save: Option<FileWrite>, saveError: Option<string>): FileSystem
  {
    if save.Some? && saveError.None? then fs[save.value.path := save.value.content] else fs
  }

  /** `os.ReadFile` on the filesystem: the content of an existing file. */
  function ReadFrom(fs: FileSystem, path: string): ReadResult
  {
    if path in fs then Read(fs[path]) else ReadFailed("open " + path + ": no such file or directory")
  }

  /**
   * Uploading bytes to a location and then reading that location returns
   * exactly those bytes, with the MIME type of the location's extension.
   */
  lemma UploadThenRead(fs: FileSystem, file: FormFile, location: string, mimeOf: string -> string)
    requires location != ""
    ensures UploadReply(Some(file), location, None).status == StatusOK
    ensures var after := Saved(fs, UploadSave(Some(file), location), None);
            ReadFileReply(location, ReadFrom(after, location), mimeOf)
              == Reply(StatusOK, [Data(mimeOf(SplitAtLast(location, ".")), file.content)])
  {
  }
}
