/**
 * `processAndUploadFile`: the transcoding engine's `end` and `error` handlers.
 *
 * Every collaborator is reduced to the outcome it reports: which event the
 * engine emits, whether reading the local file succeeds, what `PutObject`
 * answers, whether each webhook `fetch` throws and whether `unlinkSync` throws.
 * Given those outcomes a job is deterministic: it performs a sequence of
 * effects on the outside world, settles its promise (or never does), and may
 * let an exception escape from the event handler.
 */
module Pipeline {
  import opened Base

  /** What the engine finally emits. */
  datatype EngineEvent = EndEvent | ErrorEvent(message: string)

  /** The values a job can throw or reject with. */
  datatype Error =
    | EngineError(message: string) // the engine's `error` event
    | ReadError                    // reading the local output file threw
    | PutError                     // `PutObject` threw
    | UploadFailed                 // `new Error("Upload to S3 failed")`
    | FetchError                   // a webhook `fetch` threw
    | UnlinkError                  // `unlinkSync` threw

  /** The answer of `s3Client.send(new PutObjectCommand(...))`. */
  datatype PutResponse = PutThrows | PutReturned(httpStatusCode: Option<int>)

  /** The outcome of each collaborator call a job may make. */
  datatype Outcomes = Outcomes(
    readOk: bool,            // `Bun.file(...).arrayBuffer()` resolves
    put: PutResponse,        // what the upload answers
    succeededFetchOk: bool,  // the "succeeded" webhook `fetch` resolves
    failedFetchOk: bool,     // the "failed" webhook `fetch` resolves
    unlinkOk: bool)          // `unlinkSync(outputFilePath)` returns

  /** The `status` of a webhook payload; a failure carries its error. */
  datatype Status = Succeeded | Failed(error: Error)

  /** An effect on the outside world, in the order a job performs them. */
  datatype Effect =
    | Upload(key: string)                 // `PutObject` under `key`
    | Webhook(url: string, status: Status) // `fetch(url, { method: "POST", ... })`
    | Unlink(path: string)                // `unlinkSync(path)`

  /** The state of the job's promise. `Pending` after the handler has finished
      means the promise is never settled. */
  datatype Settlement = Pending | Resolved | Rejected(error: Error)

  /** Everything a job does: its effects, its promise, and the exception (if
      any) that escapes the event handler unhandled. */
  datatype Run = Run(trace: seq<Effect>, settlement: Settlement, escaped: Option<Error>)

  /** JavaScript truthiness of the optional `webhookUrl`. */
  predicate Truthy(url: Option<string>)
  {
    url.Some? && url.value != ""
  }

  /** JavaScript truthiness of `response.$metadata.httpStatusCode`. */
  predicate StatusCodeTruthy(code: Option<int>)
  {
    code.Some? && code.value != 0
  }

  /** A promise settles once: later calls to `resolve`/`reject` are ignored. */
  function Settle(current: Settlement, next: Settlement): Settlement
  {
    if current.Pending? then next else current
  }

  // ----- The specification of a job -----

  /** The error with which reading and uploading the output file fails, if any. */
  function UploadError(o: Outcomes): Option<Error>
  {
    if !o.readOk then Some(ReadError)
    else match o.put
      case PutThrows => Some(PutError)
      case PutReturned(code) => if StatusCodeTruthy(code) then None else Some(UploadFailed)
  }

  /** The error the job fails with, if any: the engine's, the upload's, or the
      "succeeded" webhook's. */
  function JobError(url: Option<string>, ev: EngineEvent, o: Outcomes): Option<Error>
  {
    match ev
    case ErrorEvent(message) => Some(EngineError(message))
    case EndEvent =>
      if UploadError(o).Some? then UploadError(o)
      else if Truthy(url) && !o.succeededFetchOk then Some(FetchError)
      else None
  }

  /** The webhook calls of a job: "succeeded" after a successful upload, then
      "failed" with the job's error if it failed. */
  function Notifications(url: Option<string>, ev: EngineEvent, o: Outcomes): seq<Effect>
  {
    SucceededNotice(url, ev, o) + FailedNotice(url, ev, o)
  }

  /** The "succeeded" webhook call, sent after a successful upload. */
  function SucceededNotice(url: Option<string>, ev: EngineEvent, o: Outcomes): seq<Effect>
  {
    if Truthy(url) && ev.EndEvent? && UploadError(o).None? then [Webhook(url.value, Succeeded)] else []
  }

  /** The "failed" webhook call, sent with the job's error. */
  function FailedNotice(url: Option<string>, ev: EngineEvent, o: Outcomes): seq<Effect>
  {
    if Truthy(url) && JobError(url, ev, o).Some? then [Webhook(url.value, Failed(JobError(url, ev, o).value))] else []
  }

  /** The "failed" webhook was attempted and its `fetch` threw. */
  predicate FailedFetchThrew(url: Option<string>, ev: EngineEvent, o: Outcomes)
  {
    Truthy(url) && JobError(url, ev, o).Some? && !o.failedFetchOk
  }

  /** What a job writing to `path` and notifying `url` does for given outcomes. */
  function Process(path: string, url: Option<string>, ev: EngineEvent, o: Outcomes): (r: Run)
    ensures Unlink(path) in r.trace
    ensures Upload(path) in r.trace <==> ev.EndEvent? && o.readOk
    ensures r.settlement == Resolved ==> ev.EndEvent? && UploadError(o).None?
    ensures r.settlement.Pending? ==> r.escaped.Some?
  {
    var err := JobError(url, ev, o);
    var settlement :=
      if err.None? then Resolved
      else if FailedFetchThrew(url, ev, o) then Pending
      else Rejected(err.value);
    var thrown := if FailedFetchThrew(url, ev, o) then Some(FetchError) else None;
    match ev
    case EndEvent =>
      Run((if o.readOk then [Upload(path)] else []) + Notifications(url, ev, o) + [Unlink(path)],
          settlement,
          if !o.unlinkOk then Some(UnlinkError) else thrown)
    case ErrorEvent(_) =>
      Run([Unlink(path)] + Notifications(url, ev, o), settlement, thrown)
  }

  // ----- The handlers, step by step -----

  /** One job: its output path, its optional webhook, the effects performed so
      far and the state of its promise. */
  class Job {
    const path: string
    const webhookUrl: Option<string>
    var trace: seq<Effect>
    var settlement: Settlement

    constructor (path: string, webhookUrl: Option<string>)
      ensures this.path == path && this.webhookUrl == webhookUrl
      ensures trace == [] && settlement == Pending
    {
      this.path := path;
      this.webhookUrl := webhookUrl;
      trace := [];
      settlement := Pending;
    }

    /** `resolve()`. */
    method Resolve()
      modifies this`settlement
      ensures settlement == Settle(old(settlement), Resolved)
    {
      settlement := Settle(settlement, Resolved);
    }

    /** `reject(error)`. */
    method Reject(error: Error)
      modifies this`settlement
      ensures settlement == Settle(old(settlement), Rejected(error))
    {
      settlement := Settle(settlement, Rejected(error));
    }

    /** `await fetch(webhookUrl, ...)` with the given payload status; `thrown`
        is the exception the call raises. */
    method Notify(status: Status, fetchOk: bool) returns (thrown: Option<Error>)
      requires Truthy(webhookUrl)
      modifies this`trace
      ensures trace == old(trace) + [Webhook(webhookUrl.value, status)]
      ensures thrown == if fetchOk then None else Some(FetchError)
    {
      trace := trace + [Webhook(webhookUrl.value, status)];
      thrown := if fetchOk then None else Some(FetchError);
    }

    /** `unlinkSync(path)`; `thrown` is the exception it raises. */
    method RemoveOutput(unlinkOk: bool) returns (thrown: Option<Error>)
      modifies this`trace
      ensures trace == old(trace) + [Unlink(path)]
      ensures thrown == if unlinkOk then None else Some(UnlinkError)
    {
      trace := trace + [Unlink(path)];
      thrown := if unlinkOk then None else Some(UnlinkError);
    }

    /** The `try` block of the `end` handler: read the file, upload it, check
        the status code, send "succeeded" and resolve; `thrown` is what it throws. */
    method TryUpload(o: Outcomes) returns (thrown: Option<Error>)
      modifies this
      ensures trace == old(trace) + (if o.readOk then [Upload(path)] else []) +
                       SucceededNotice(webhookUrl, EndEvent, o)
      ensures thrown == JobError(webhookUrl, EndEvent, o)
      ensures settlement == if thrown.None? then Settle(old(settlement), Resolved) else old(settlement)
    {
      thrown := None;
      if !o.readOk {
        thrown := Some(ReadError);
        return;
      }
      trace := trace + [Upload(path)];
      match o.put
      case PutThrows =>
        thrown := Some(PutError);
      case PutReturned(code) =>
        if !StatusCodeTruthy(code) {
          thrown := Some(UploadFailed);
        } else {
          if Truthy(webhookUrl) {
            thrown := Notify(Succeeded, o.succeededFetchOk);
          }
          if thrown.None? {
            Resolve();
          }
        }
    }

    /** The `catch` block: send "failed" with the caught error, then reject;
        `pending` is what the webhook call throws, which skips `reject`. */
    method CatchFailure(error: Error, o: Outcomes) returns (pending: Option<Error>)
      modifies this
      ensures trace == old(trace) + (if Truthy(webhookUrl) then [Webhook(webhookUrl.value, Failed(error))] else [])
      ensures pending == if Truthy(webhookUrl) && !o.failedFetchOk then Some(FetchError) else None
      ensures settlement == if pending.None? then Settle(old(settlement), Rejected(error)) else old(settlement)
    {
      pending := None;
      if Truthy(webhookUrl) {
        pending := Notify(Failed(error), o.failedFetchOk);
      }
      if pending.None? {
        Reject(error);
      }
    }

    /** The `end` handler: read and upload in a `try`, notify "failed" and
        reject in its `catch`, unlink in its `finally`. */
    method OnEnd(o: Outcomes) returns (escaped: Option<Error>)
      modifies this
      ensures trace == old(trace) + Process(path, webhookUrl, EndEvent, o).trace
      ensures settlement == Settle(old(settlement), Process(path, webhookUrl, EndEvent, o).settlement)
      ensures escaped == Process(path, webhookUrl, EndEvent, o).escaped
    {
      ghost var run := Process(path, webhookUrl, EndEvent, o);
      ghost var before := trace;
      ghost var uploaded := if o.readOk then [Upload(path)] else [];
      ghost var succeeded := SucceededNotice(webhookUrl, EndEvent, o);
      ghost var failed := FailedNotice(webhookUrl, EndEvent, o);
      var thrown := TryUpload(o);
      var pending: Option<Error> := None;
      if thrown.Some? {
        pending := CatchFailure(thrown.value, o);
      }
      assert trace == before + uploaded + succeeded + failed;
      assert pending == if FailedFetchThrew(webhookUrl, EndEvent, o) then Some(FetchError) else None;
      assert settlement == Settle(old(settlement), run.settlement);
      // finally: an exception thrown here replaces the pending one
      var unlinkThrown := RemoveOutput(o.unlinkOk);
      escaped := if unlinkThrown.Some? then unlinkThrown else pending;
      assert run.trace == uploaded + (succeeded + failed) + [Unlink(path)];
    }

    /** The `error` handler: unlink (swallowing its failure), notify "failed",
        then reject. */
    method OnError(message: string, o: Outcomes) returns (escaped: Option<Error>)
      modifies this
      ensures trace == old(trace) + Process(path, webhookUrl, ErrorEvent(message), o).trace
      ensures settlement == Settle(old(settlement), Process(path, webhookUrl, ErrorEvent(message), o).settlement)
      ensures escaped == Process(path, webhookUrl, ErrorEvent(message), o).escaped
    {
      var error := EngineError(message);
      var ignored := RemoveOutput(o.unlinkOk);
      escaped := None;
      if Truthy(webhookUrl) {
        escaped := Notify(Failed(error), o.failedFetchOk);
      }
      if escaped.None? {
        Reject(error);
      }
    }
  }

  /** `processAndUploadFile(signedUrl, outputFilePath, webhookUrl)` once the
      engine has emitted `ev`. */
  method ProcessAndUploadFile(path: string, url: Option<string>, ev: EngineEvent, o: Outcomes)
    returns (run: Run)
    ensures run == Process(path, url, ev, o)
  {
    var job := new Job(path, url);
    var escaped;
    if ev.EndEvent? {
      escaped := job.OnEnd(o);
    } else {
      escaped := job.OnError(ev.message, o);
    }
    run := Run(job.trace, job.settlement, escaped);
  }
}
