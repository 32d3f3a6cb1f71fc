# recording-convert-service, modelled in Dafny

The service takes an object key, has an external transcoding engine convert
the stored object to MP3 through a signed URL, uploads the result to an output
bucket under a derived key, optionally calls a webhook, and removes the local
file. `POST /` waits for the job; `POST /async` answers "Job started" and lets
the job run.

This project models the two pieces of `src/index.ts` that carry logic:

- `output_key.dfy` (module `OutputKeys`): the output key
  `fileKey.replace(/\.[^/.]+$/, ".mp3")`, written as the regex engine's
  leftmost search (`FirstMatch`, `OutputKey`) and proved equal to an
  independent "extension after the last dot" definition (`LastDotSpec`).
- `pipeline.dfy` (module `Pipeline`): `processAndUploadFile`. Each collaborator
  call is reduced to the outcome it reports. The engine's final event is an
  `EngineEvent`; the other outcomes form an `Outcomes` record: the file read,
  the `PutObject` answer, each webhook `fetch`, and `unlinkSync`.
  For given outcomes a job performs a trace of effects (`Upload`, `Webhook`,
  `Unlink`), settles its promise (`Resolved`, `Rejected`, or never: `Pending`),
  and may let an exception escape the event handler. `Process` is the
  declarative specification. The class `Job` holds the trace and the promise
  state and runs the `end` and `error` handlers step by step, with
  `try`/`catch`/`finally` as control flow and first-settle-wins promise
  semantics. `ProcessAndUploadFile` is proved equal to `Process`.
- `pipeline_properties.dfy` (module `PipelineProperties`): the properties of
  `Process`: effect ordering, webhook count and statuses, and when the job
  resolves, rejects or never settles.
- `routes.dfy` (module `Routes`): how the two routes turn a job into a response.
  This includes the decimal rendering of the elapsed time.
- `base.dfy` (module `Base`): `Option`.

Behaviour of the code worth knowing, which the model keeps as written:

- The comment at `src/index.ts:33` says that every key not already mp3 is
  converted to mp3. The regular expression, however, rewrites only an extension
  in the final path segment. A key without one (`"noext"`, `"dir.d/file"`, `"file."`)
  is returned unchanged, and nothing is appended.
- After the engine's `error`, the file is unlinked before the webhook is
  called. After `end`, it is unlinked last. Only one unlink happens on either
  path.
- A throwing "succeeded" webhook turns the job into a failure. A second,
  "failed" webhook is then sent, so a job can call its webhook twice.
- A throwing "failed" webhook skips `reject`, so the promise never settles.

## Model

| member | source | states |
|---|---|---|
| OutputKeys.OutputKey | src/index.ts:34 | the derived key is either the input key unchanged or a prefix of it followed by ".mp3"; which of the two and which prefix is fixed by OutputKeyIsLastDotSpec |
| OutputKeys.FirstMatch | src/index.ts:34 | the leftmost position where `\.[^/.]+$` matches: it matches there and nowhere before; `None` only when it matches nowhere |
| OutputKeys.MatchesAtIffExtension | src/index.ts:34 | the regex matches at `p` exactly when `p` is the last dot, at least one character follows it, and none of those characters is `/` |
| OutputKeys.OutputKeyIsLastDotSpec | src/index.ts:34 | on every key, the regex replacement equals "replace the extension after the last dot by .mp3, else leave the key alone" |
| OutputKeys.ExtensionReplaced | src/index.ts:34 | with an extension at the last dot `i`, the output key is `s[..i] + ".mp3"`: everything before that dot is kept |
| OutputKeys.NoExtensionUnchanged | src/index.ts:58 | without an extension in the final segment the output key equals the input; `.mp3` is not appended |
| OutputKeys.ReplacedEndsInMp3 | src/index.ts:33-34 | whenever a replacement happens the output key ends in ".mp3" |
| OutputKeys.OutputKeyIdempotent | src/index.ts:33-34 | deriving the output key of an output key changes nothing |
| OutputKeys.MatchReplaced | src/index.ts:34 | wherever the regex matches, `replace` rewrites the key to the text before the match followed by ".mp3" |
| OutputKeys.NoMatchUnchanged | src/index.ts:58 | where the regex matches at no position, `replace` returns the key unchanged |
| OutputKeys.ExampleTwoDots | src/index.ts:34 | "a.b.wav" gives "a.b.mp3": only the extension after the last dot is replaced |
| OutputKeys.ExampleTrack | src/index.ts:34 | "track.wav" gives "track.mp3" |
| OutputKeys.ExampleNested | src/index.ts:34 | "nested/path/file.flac" gives "nested/path/file.mp3" |
| OutputKeys.ExampleNoExtension | src/index.ts:34 | "noext" comes back unchanged |
| OutputKeys.ExampleDotInDirectory | src/index.ts:34 | "dir.d/file" comes back unchanged |
| OutputKeys.ExampleTrailingDot | src/index.ts:34 | "file." comes back unchanged |
| OutputKeys.ExampleAlreadyMp3 | src/index.ts:34 | "song.mp3" is rewritten to itself |
| Pipeline.Process | src/index.ts:69-142 | the specification of a job: the file is always unlinked, an upload happens iff the engine ended and the read succeeded, resolution requires `end` and a successful upload, and a never-settled promise always comes with an escaping exception; the rest is fixed by the lemmas of PipelineProperties |
| Pipeline.Job.constructor | src/index.ts:74 | a new job has performed no effect and its promise is pending |
| Pipeline.Job.Resolve | src/index.ts:108 | `resolve()` settles a pending promise as resolved and leaves a settled one alone |
| Pipeline.Job.Reject | src/index.ts:117 | `reject(error)` settles a pending promise as rejected with `error` and leaves a settled one alone |
| Pipeline.Job.Notify | src/index.ts:101-107 | a webhook call appends one `Webhook(url, status)` effect and throws exactly when its `fetch` fails |
| Pipeline.Job.RemoveOutput | src/index.ts:118-120 | `unlinkSync` appends one `Unlink(path)` effect and throws exactly when it fails |
| Pipeline.Job.TryUpload | src/index.ts:84-108 | the `try` block uploads only after a successful read, sends "succeeded" only after a truthy status code, throws exactly the job's error, and resolves exactly when it throws nothing |
| Pipeline.Job.CatchFailure | src/index.ts:109-117 | the `catch` block sends one "failed" webhook carrying the caught error when there is a URL, and rejects with that error unless the webhook's `fetch` throws |
| Pipeline.Job.OnEnd | src/index.ts:83-121 | the `end` handler appends the specified trace, settles the promise as specified if still pending, and lets escape what the specification says (the `finally` exception replacing a pending one) |
| Pipeline.Job.OnError | src/index.ts:122-139 | the `error` handler appends the specified trace (unlink, then webhook), rejects unless the webhook threw, and swallows the unlink failure |
| Pipeline.ProcessAndUploadFile | src/index.ts:69-142 | a fresh job driven by the engine's event produces exactly the effects, settlement and escaping exception of the specification `Process` |
| PipelineProperties.UnlinkPlacement | src/index.ts:118-130 | the output file is unlinked exactly once: as the last effect after `end` (after any webhook, on resolve and on reject), as the first effect after `error` (before the webhook) |
| PipelineProperties.ErrorPathUnlinkSwallowed | src/index.ts:126-130 | after `error`, a throwing `unlinkSync` changes neither the effects, nor the settlement, nor what escapes |
| PipelineProperties.UploadOnlyOnEnd | src/index.ts:83-98 | an upload is attempted only after `end` and a successful read, under the job's own key and as the first effect; after `error` the job never resolves |
| PipelineProperties.ResolvedIff | src/index.ts:83-108 | the job resolves iff the engine ended, the read succeeded, the upload returned a truthy status code, and the "succeeded" webhook (if any) did not throw |
| PipelineProperties.MissingStatusCodeFails | src/index.ts:93-117 | an upload answer without `httpStatusCode` is the failure "Upload to S3 failed": one "failed" webhook (if any) and rejection, unless that webhook throws |
| PipelineProperties.WebhookTarget | src/index.ts:101-140 | every webhook call goes to the job's own `webhookUrl` and only when it is truthy; with a truthy URL at least one call is made |
| PipelineProperties.WebhookCount | src/index.ts:101-117 | no webhook without a truthy URL; otherwise one or two; two exactly when the "succeeded" fetch throws, then "succeeded" and "failed" are sent and the job rejects with the fetch error or never settles |
| PipelineProperties.WebhookStatuses | src/index.ts:101-137 | "succeeded" is sent iff there is a URL and the upload succeeded after `end`, always after the upload; every later webhook says "failed" |
| PipelineProperties.NeverSettlesIff | src/index.ts:109-138 | the promise never settles iff a "failed" webhook is attempted and its fetch throws; then an exception escapes the handler |
| PipelineProperties.LastWebhookMatchesSettlement | src/index.ts:101-138 | with a webhook URL, the last payload says "succeeded" when the job resolves and "failed" with the rejection error when it rejects |
| Routes.NatText | src/index.ts:41 | the rendered elapsed time is a numeral: one or more decimal digits, with no leading zero unless it is "0" |
| Routes.NatTextRoundTrip | src/index.ts:41 | reading the rendered digits back gives the number |
| Routes.NatTextOfNumeral | src/index.ts:41 | every numeral is the rendering of its value, so the rendering of a number is the only numeral for it |
| Routes.NatValueOfText | src/index.ts:41 | reading the rendering of `n` as a numeral gives `n` |
| Routes.IntText | src/index.ts:41 | a clock difference renders as a minus sign exactly when it is negative, followed by a numeral |
| Routes.NegativeText | src/index.ts:41 | a negative difference renders as "-" followed by the numeral of its magnitude |
| Routes.IntTextRoundTrip | src/index.ts:41 | reading the rendered, possibly negative, elapsed time back gives it |
| Routes.IntValueDeterminesText | src/index.ts:41 | any text that reads back as `i` is exactly the rendering of `i`: there is no other spelling (no leading zeros, no "-0", no other characters) |
| Routes.FinishedMessage | src/index.ts:41 | the success message is "Job finished in ", then a text that reads back as the elapsed time, then "ms"; with IntValueDeterminesText that text is the rendering itself |
| Routes.ErrorMessage | src/index.ts:44 | the failure message is "Job error after ", then a text that reads back as the elapsed time, then "ms"; with IntValueDeterminesText that text is the rendering itself |
| Routes.SyncRoute | src/index.ts:38-45 | `POST /` always answers; the answer carries no error iff the engine ended and the upload succeeded, and its message is the finished or the error message accordingly |
| Routes.SyncRouteAnswers | src/index.ts:38-45 | `POST /` answers "Job finished in …ms" iff the job resolves, else "Job error after …ms" with the job's error |
| Routes.SyncRouteCleansUp | src/index.ts:38-39 | the job behind `POST /` unlinks the output file in every case, and after `end` nothing but the upload precedes the unlink |
| Routes.AsyncRoute | src/index.ts:49-61 | `POST /async` answers "Job started" with no error; the job it starts is `Process` for the derived key and the caller's `webhookUrl`, so every webhook call goes to that URL (at least one when it is truthy); it unlinks the file at the derived key and uploads under that key iff the engine ended and the read succeeded |
| Routes.AsyncRouteAcknowledges | src/index.ts:58-61 | the acknowledgement of `POST /async` is the same whatever the job later does |

## Left out

- The Elysia server, routing, `app.listen`, and the parsing of the request body. A `fileKey` that is not a string is not modelled.
- The S3 client, its environment configuration, and `getSignedUrl` with its 600-second expiry. The signed URL is opaque and not a parameter of the model. A failure of `getSignedUrl` before the job starts is not modelled.
- `fluent-ffmpeg` itself: bitrate 128, `noVideo`, `format("mp3")`, `save`, and the `start` log event. Only its final `end` or `error` event enters the model. An engine emitting both events, or one twice, is not modelled.
- The bytes read from the local file and sent to the output bucket. Only whether the read succeeds is modelled.
- The JSON serialisation of the errors in webhook payloads and in the `error` field of the `POST /` response, which depends on the fields each error object carries (a plain `Error` serialises as `{}`). A webhook effect records only the URL and the payload status, and a response carries the model's `Error` value.
- `Date.now()`: the two clock readings are parameters of `SyncRoute`.
- The unawaited promise in `/async`, interleaving of concurrent jobs, and the race on the local file between jobs for the same key. These are concurrency concerns.
- What the runtime does with an exception escaping an event handler (an unhandled rejection). The model records only which exception escapes.
- Console logging.
