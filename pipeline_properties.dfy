/** What a job does, stated over the specification `Pipeline.Process`. */
module PipelineProperties {
  import opened Base
  import opened Pipeline

  /** The payload statuses of the webhook calls in a trace, in order. */
  function Webhooks(t: seq<Effect>): seq<Status>
  {
    if t == [] then []
    else (if t[0].Webhook? then [t[0].status] else []) + Webhooks(t[1..])
  }

  /** How many times a trace unlinks the local output file. */
  function Unlinks(t: seq<Effect>): nat
  {
    if t == [] then 0
    else (if t[0].Unlink? then 1 else 0) + Unlinks(t[1..])
  }

  lemma {:induction false} WebhooksAppend(a: seq<Effect>, b: seq<Effect>)
    ensures Webhooks(a + b) == Webhooks(a) + Webhooks(b)
  {
    if a != [] {
      assert (a + b)[1..] == a[1..] + b;
      WebhooksAppend(a[1..], b);
    } else {
      assert a + b == b;
    }
  }

  lemma {:induction false} UnlinksAppend(a: seq<Effect>, b: seq<Effect>)
    ensures Unlinks(a + b) == Unlinks(a) + Unlinks(b)
  {
    if a != [] {
      assert (a + b)[1..] == a[1..] + b;
      UnlinksAppend(a[1..], b);
    } else {
      assert a + b == b;
    }
  }

  /** The webhook statuses and unlink count of a job's trace. */
  lemma TraceParts(path: string, url: Option<string>, ev: EngineEvent, o: Outcomes)
    ensures Webhooks(Process(path, url, ev, o).trace) == Webhooks(Notifications(url, ev, o))
    ensures Unlinks(Process(path, url, ev, o).trace) == 1
  {
    var n := Notifications(url, ev, o);
    assert Unlinks(n) == 0 by {
      UnlinksAppend(SucceededNotice(url, ev, o), FailedNotice(url, ev, o));
    }
    var u := [Unlink(path)];
    assert Webhooks(u) == [] && Unlinks(u) == 1;
    var t := Process(path, url, ev, o).trace;
    if ev.EndEvent? {
      var up := if o.readOk then [Upload(path)] else [];
      assert t == up + n + u;
      assert Webhooks(up) == [] && Unlinks(up) == 0;
      WebhooksAppend(up, n);
      WebhooksAppend(up + n, u);
      UnlinksAppend(up, n);
      UnlinksAppend(up + n, u);
    } else {
      assert t == u + n;
      WebhooksAppend(u, n);
      UnlinksAppend(u, n);
    }
  }

  /** The statuses a job reports to its webhook. */
  lemma NotifiedStatuses(url: Option<string>, ev: EngineEvent, o: Outcomes)
    ensures Webhooks(Notifications(url, ev, o)) ==
      if !Truthy(url) then []
      else (if ev.EndEvent? && UploadError(o).None? then [Succeeded] else []) +
           (if JobError(url, ev, o).Some? then [Failed(JobError(url, ev, o).value)] else [])
  {
    WebhooksAppend(SucceededNotice(url, ev, o), FailedNotice(url, ev, o));
  }

  /** The local output file is unlinked exactly once per job: last of all after
      the engine's `end` (after any webhook, whether the job resolves or
      rejects), first of all after its `error` (before the webhook). */
  lemma UnlinkPlacement(path: string, url: Option<string>, ev: EngineEvent, o: Outcomes)
    ensures Unlinks(Process(path, url, ev, o).trace) == 1
    ensures ev.EndEvent? ==> Process(path, url, ev, o).trace[|Process(path, url, ev, o).trace| - 1] == Unlink(path)
    ensures ev.ErrorEvent? ==> Process(path, url, ev, o).trace[0] == Unlink(path)
  {
    TraceParts(path, url, ev, o);
  }

  /** After the engine's `error` a failing `unlinkSync` is swallowed: it changes
      neither the effects, nor the settlement, nor what escapes. */
  lemma ErrorPathUnlinkSwallowed(path: string, url: Option<string>, message: string, o: Outcomes)
    ensures Process(path, url, ErrorEvent(message), o.(unlinkOk := false)) ==
            Process(path, url, ErrorEvent(message), o.(unlinkOk := true))
  {
  }

  /** Upload is attempted only after the engine's `end`, only once the file was
      read, and only under the job's own key; after `error` the job never resolves. */
  lemma UploadOnlyOnEnd(path: string, url: Option<string>, ev: EngineEvent, o: Outcomes)
    ensures forall e <- Process(path, url, ev, o).trace :: e.Upload? ==> ev.EndEvent? && o.readOk && e.key == path
    ensures ev.EndEvent? && o.readOk ==> Process(path, url, ev, o).trace[0] == Upload(path)
    ensures ev.ErrorEvent? ==> Process(path, url, ev, o).settlement != Resolved
  {
  }

  /** The job resolves exactly when the engine ended, the file was read, the
      upload answered with a status code, and the "succeeded" webhook (if any)
      did not throw. */
  lemma ResolvedIff(path: string, url: Option<string>, ev: EngineEvent, o: Outcomes)
    ensures Process(path, url, ev, o).settlement == Resolved <==>
      ev.EndEvent? && o.readOk && o.put.PutReturned? && StatusCodeTruthy(o.put.httpStatusCode) &&
      (Truthy(url) ==> o.succeededFetchOk)
  {
  }

  /** An upload answer without `httpStatusCode` fails the job with "Upload to
      S3 failed" although `PutObject` did not throw: a "failed" webhook follows
      and the job rejects, unless that webhook's `fetch` throws. */
  lemma MissingStatusCodeFails(path: string, url: Option<string>, o: Outcomes)
    requires o.readOk && o.put.PutReturned? && !StatusCodeTruthy(o.put.httpStatusCode)
    ensures Upload(path) in Process(path, url, EndEvent, o).trace
    ensures Webhooks(Process(path, url, EndEvent, o).trace) ==
      if Truthy(url) then [Failed(UploadFailed)] else []
    ensures Process(path, url, EndEvent, o).settlement ==
      if Truthy(url) && !o.failedFetchOk then Pending else Rejected(UploadFailed)
  {
    TraceParts(path, url, EndEvent, o);
    NotifiedStatuses(url, EndEvent, o);
    assert Process(path, url, EndEvent, o).trace[0] == Upload(path);
  }

  /** Webhooks are called only with a truthy `webhookUrl`; then once or twice.
      Twice exactly when the "succeeded" `fetch` throws, in which case a
      "failed" one follows and the job rejects with that error (or never
      settles, if the second `fetch` throws as well). */
  lemma WebhookCount(path: string, url: Option<string>, ev: EngineEvent, o: Outcomes)
    ensures !Truthy(url) ==> Webhooks(Process(path, url, ev, o).trace) == []
    ensures Truthy(url) ==> 1 <= |Webhooks(Process(path, url, ev, o).trace)| <= 2
    ensures |Webhooks(Process(path, url, ev, o).trace)| == 2 <==>
      Truthy(url) && ev.EndEvent? && UploadError(o).None? && !o.succeededFetchOk
    ensures |Webhooks(Process(path, url, ev, o).trace)| == 2 ==>
      Webhooks(Process(path, url, ev, o).trace) == [Succeeded, Failed(FetchError)] &&
      Process(path, url, ev, o).settlement == if o.failedFetchOk then Rejected(FetchError) else Pending
  {
    TraceParts(path, url, ev, o);
    NotifiedStatuses(url, ev, o);
  }

  /** Every webhook call goes to the job's own `webhookUrl`, and only when it
      is truthy; with a truthy URL at least one call is made. */
  lemma WebhookTarget(path: string, url: Option<string>, ev: EngineEvent, o: Outcomes)
    ensures forall e <- Process(path, url, ev, o).trace :: e.Webhook? ==> Truthy(url) && e.url == url.value
    ensures Truthy(url) ==> exists e <- Process(path, url, ev, o).trace :: e.Webhook? && e.url == url.value
  {
    var t := Process(path, url, ev, o).trace;
    var s := SucceededNotice(url, ev, o);
    var f := FailedNotice(url, ev, o);
    var u := [Unlink(path)];
    if ev.EndEvent? {
      var up := if o.readOk then [Upload(path)] else [];
      assert t == up + (s + f) + u;
    } else {
      assert t == u + (s + f);
    }
    if Truthy(url) {
      if ev.EndEvent? && UploadError(o).None? {
        assert s[0] in t;
      } else {
        assert JobError(url, ev, o).Some?;
        assert f[0] in t;
      }
    }
  }

  /** "succeeded" is sent only after a successful upload, as the first webhook;
      every other webhook call says "failed". */
  lemma WebhookStatuses(path: string, url: Option<string>, ev: EngineEvent, o: Outcomes)
    ensures Succeeded in Webhooks(Process(path, url, ev, o).trace) <==>
      Truthy(url) && ev.EndEvent? && UploadError(o).None?
    ensures forall i :: 0 < i < |Webhooks(Process(path, url, ev, o).trace)| ==>
      Webhooks(Process(path, url, ev, o).trace)[i].Failed?
    ensures Succeeded in Webhooks(Process(path, url, ev, o).trace) ==>
      Process(path, url, ev, o).trace[0] == Upload(path)
  {
    TraceParts(path, url, ev, o);
    NotifiedStatuses(url, ev, o);
  }

  /** The job never settles exactly when its "failed" webhook `fetch` throws:
      `reject` is skipped and that exception escapes the handler. */
  lemma NeverSettlesIff(path: string, url: Option<string>, ev: EngineEvent, o: Outcomes)
    ensures Process(path, url, ev, o).settlement == Pending <==>
      Truthy(url) && !o.failedFetchOk &&
      (ev.ErrorEvent? || !o.readOk || o.put.PutThrows? || !StatusCodeTruthy(o.put.httpStatusCode) ||
       !o.succeededFetchOk)
    ensures Process(path, url, ev, o).settlement == Pending ==> Process(path, url, ev, o).escaped.Some?
  {
  }

  /** The last webhook a job sends agrees with how its promise settles. */
  lemma LastWebhookMatchesSettlement(path: string, url: Option<string>, ev: EngineEvent, o: Outcomes)
    requires Truthy(url)
    ensures var w := Webhooks(Process(path, url, ev, o).trace);
      |w| > 0 &&
      (Process(path, url, ev, o).settlement == Resolved ==> w[|w| - 1] == Succeeded) &&
      (Process(path, url, ev, o).settlement.Rejected? ==>
        w[|w| - 1] == Failed(Process(path, url, ev, o).settlement.error))
  {
    TraceParts(path, url, ev, o);
    NotifiedStatuses(url, ev, o);
  }
}
