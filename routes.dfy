/**
 * The two routes: `POST /` runs a job without a webhook and waits for it;
 * `POST /async` starts a job with the caller's webhook and answers at once.
 * The signed input URL is opaque and does not enter the model; the clock is
 * given as the two readings of `Date.now()` around the job.
 */
module Routes {
  import opened Base
  import opened OutputKeys
  import opened Pipeline
  import PipelineProperties

  /** A JSON response body: `message` and, on failure, `error`. */
  datatype Response = Response(message: string, error: Option<Error>)

  const StartedMessage: string := "Job started"

  /** The character of a decimal digit. */
  function Digit(d: nat): (c: char)
    requires d < 10
    ensures '0' <= c <= '9' && c as int - '0' as int == d
  {
    "0123456789"[d]
  }

  /** A numeral as JavaScript prints a non-negative integer: one or more
      decimal digits, with no leading zero unless the numeral is "0". */
  predicate IsNumeral(s: string)
  {
    |s| > 0 && (forall k :: 0 <= k < |s| ==> '0' <= s[k] <= '9') && (s[0] == '0' ==> s == "0")
  }

  /** The decimal text of `n`, as a template literal renders a number. */
  function NatText(n: nat): (r: string)
    ensures IsNumeral(r)
    ensures n > 0 ==> r[0] != '0'
  {
    if n < 10 then [Digit(n)] else NatText(n / 10) + [Digit(n % 10)]
  }

  /** The value of a string of decimal digits. */
  function DigitsValue(s: string): nat
    requires forall i :: 0 <= i < |s| ==> '0' <= s[i] <= '9'
  {
    if s == [] then 0
    else 10 * DigitsValue(s[..|s| - 1]) + (s[|s| - 1] as int - '0' as int)
  }

  /** Reading back the rendered number gives the number. */
  lemma {:induction false} NatTextRoundTrip(n: nat)
    ensures DigitsValue(NatText(n)) == n
  {
    if n >= 10 {
      var r := NatText(n);
      assert r[..|r| - 1] == NatText(n / 10);
      NatTextRoundTrip(n / 10);
    }
  }

  /** Digits worth zero are all '0'. */
  lemma {:induction false} ZeroDigits(s: string)
    requires forall i :: 0 <= i < |s| ==> '0' <= s[i] <= '9'
    requires DigitsValue(s) == 0
    ensures forall i :: 0 <= i < |s| ==> s[i] == '0'
  {
    if s != [] {
      ZeroDigits(s[..|s| - 1]);
      assert forall i :: 0 <= i < |s| - 1 ==> s[i] == s[..|s| - 1][i];
    }
  }

  /** A numeral is the rendering of its value: rendering is one-to-one. */
  lemma {:induction false} NatTextOfNumeral(s: string)
    requires IsNumeral(s)
    ensures NatText(DigitsValue(s)) == s
  {
    if |s| > 1 {
      var init := s[..|s| - 1];
      assert init[0] == s[0] && IsNumeral(init);
      if DigitsValue(init) == 0 {
        ZeroDigits(init);
        assert false;
      }
      NatTextOfNumeral(init);
      var n := DigitsValue(s);
      assert n / 10 == DigitsValue(init) && n % 10 == s[|s| - 1] as int - '0' as int;
      assert s == init + [s[|s| - 1]];
    }
  }

  /** The text of an elapsed time, which may be negative if the clock steps back:
      a minus sign exactly for a negative time, then a numeral. */
  function IntText(i: int): (r: string)
    ensures |r| > 0 && (r[0] == '-' <==> i < 0)
    ensures IsNumeral(if i < 0 then r[1..] else r)
  {
    if i < 0 then "-" + NatText(-i) else NatText(i)
  }

  /** The value of a numeral; `None` for any other text. */
  function NatValue(s: string): Option<nat>
  {
    if IsNumeral(s) then Some(DigitsValue(s)) else None
  }

  /** The value of an integer as JavaScript prints it: an optional minus sign
      and a numeral, but not "-0"; `None` for any other text. */
  function IntValue(s: string): Option<int>
  {
    if |s| > 0 && s[0] == '-' then
      match NatValue(s[1..])
      case Some(v) => if v == 0 then None else Some(0 - v)
      case None => None
    else
      match NatValue(s)
      case Some(v) => Some(v)
      case None => None
  }

  /** Reading back the numeral of `n` gives `n`. */
  lemma NatValueOfText(n: nat)
    ensures NatValue(NatText(n)) == Some(n)
  {
    NatTextRoundTrip(n);
  }

  /** A negative time renders as "-" and the numeral of its magnitude. */
  lemma NegativeText(i: int)
    requires i < 0
    ensures IntText(i)[0] == '-' && IntText(i)[1..] == NatText(-i)
  {
    assert IntText(i) == "-" + NatText(-i);
  }

  /** Reading back the rendered elapsed time gives the elapsed time. */
  lemma IntTextRoundTrip(i: int)
    ensures IntValue(IntText(i)) == Some(i)
  {
    var r := IntText(i);
    if i < 0 {
      NegativeText(i);
      NatValueOfText(-i);
      assert NatValue(r[1..]) == Some(-i);
      assert |r| > 0 && r[0] == '-';
    } else {
      assert IntText(i) == NatText(i);
      NatValueOfText(i);
    }
  }

  /** Only the rendering of `i` reads back as `i`: the text is determined. */
  lemma IntValueDeterminesText(s: string, i: int)
    requires IntValue(s) == Some(i)
    ensures s == IntText(i)
  {
    if |s| > 0 && s[0] == '-' {
      var t := s[1..];
      assert NatValue(t).Some?;
      var v := NatValue(t).value;
      assert IsNumeral(t) && DigitsValue(t) == v && v != 0 && i + v == 0;
      NatTextOfNumeral(t);
      NegativeText(i);
      assert s == [s[0]] + t;
    } else {
      assert NatValue(s) == Some(i);
      NatTextOfNumeral(s);
      assert IntText(i) == NatText(i);
    }
  }

  const FinishedPrefix: string := "Job finished in "
  const ErrorPrefix: string := "Job error after "

  /** `Job finished in ${endTime - startTime}ms`: the elapsed time can be read
      back from between the prefix and "ms". */
  function FinishedMessage(ms: int): (r: string)
    ensures |r| > |FinishedPrefix| + 2 && r[..|FinishedPrefix|] == FinishedPrefix && r[|r| - 2..] == "ms"
    ensures IntValue(r[|FinishedPrefix|..|r| - 2]) == Some(ms)
  {
    var r := FinishedPrefix + IntText(ms) + "ms";
    assert r[|FinishedPrefix|..|r| - 2] == IntText(ms);
    IntTextRoundTrip(ms);
    r
  }

  /** `Job error after ${endTime - startTime}ms`: the elapsed time can be read
      back from between the prefix and "ms". */
  function ErrorMessage(ms: int): (r: string)
    ensures |r| > |ErrorPrefix| + 2 && r[..|ErrorPrefix|] == ErrorPrefix && r[|r| - 2..] == "ms"
    ensures IntValue(r[|ErrorPrefix|..|r| - 2]) == Some(ms)
  {
    var r := ErrorPrefix + IntText(ms) + "ms";
    assert r[|ErrorPrefix|..|r| - 2] == IntText(ms);
    IntTextRoundTrip(ms);
    r
  }

  /** `POST /` for `fileKey`: the job runs without a webhook; `None` would mean
      the request is never answered. */
  function SyncRoute(fileKey: string, ev: EngineEvent, o: Outcomes, startTime: int, endTime: int): (r: Option<Response>)
    ensures r.Some?
    ensures r.value.error.None? <==> ev.EndEvent? && UploadError(o).None?
    ensures r.value.message == if r.value.error.None? then FinishedMessage(endTime - startTime)
                               else ErrorMessage(endTime - startTime)
  {
    match Process(OutputKey(fileKey), None, ev, o).settlement
    case Resolved => Some(Response(FinishedMessage(endTime - startTime), None))
    case Rejected(e) => Some(Response(ErrorMessage(endTime - startTime), Some(e)))
    case Pending => None
  }

  /** `POST /async` for `fileKey` and `webhookUrl`: the acknowledgement, and the
      job it starts without awaiting it. */
  function AsyncRoute(fileKey: string, webhookUrl: Option<string>, ev: EngineEvent, o: Outcomes): (r: (Response, Run))
    ensures r.0.message == StartedMessage && r.0.error.None?
    ensures Unlink(OutputKey(fileKey)) in r.1.trace
    ensures Upload(OutputKey(fileKey)) in r.1.trace <==> ev.EndEvent? && o.readOk
    ensures forall e <- r.1.trace :: e.Webhook? ==> Truthy(webhookUrl) && e.url == webhookUrl.value
    ensures Truthy(webhookUrl) ==> exists e <- r.1.trace :: e.Webhook? && e.url == webhookUrl.value
    ensures r.1 == Process(OutputKey(fileKey), webhookUrl, ev, o)
  {
    PipelineProperties.WebhookTarget(OutputKey(fileKey), webhookUrl, ev, o);
    (Response(StartedMessage, None), Process(OutputKey(fileKey), webhookUrl, ev, o))
  }

  /** Without a webhook the job always settles, so `POST /` always answers:
      "Job finished in …ms" exactly when the job resolves, otherwise
      "Job error after …ms" carrying the job's error. */
  lemma SyncRouteAnswers(fileKey: string, ev: EngineEvent, o: Outcomes, startTime: int, endTime: int)
    ensures SyncRoute(fileKey, ev, o, startTime, endTime).Some?
    ensures var r := SyncRoute(fileKey, ev, o, startTime, endTime).value;
      if ev.EndEvent? && UploadError(o).None? then
        r == Response(FinishedMessage(endTime - startTime), None)
      else
        r == Response(ErrorMessage(endTime - startTime), JobError(None, ev, o))
  {
    var run := Process(OutputKey(fileKey), None, ev, o);
    assert run.settlement == if JobError(None, ev, o).None? then Resolved else Rejected(JobError(None, ev, o).value);
  }

  /** The job behind `POST /` is the one `SyncRoute` settles: `Process` for the
      key derived from `fileKey` and no webhook. It unlinks the output file in
      every case; after `end` nothing but the upload precedes it. */
  lemma SyncRouteCleansUp(fileKey: string, ev: EngineEvent, o: Outcomes)
    ensures ev.EndEvent? ==>
      Process(OutputKey(fileKey), None, ev, o).trace ==
      (if o.readOk then [Upload(OutputKey(fileKey))] else []) + [Unlink(OutputKey(fileKey))]
    ensures Unlink(OutputKey(fileKey)) in Process(OutputKey(fileKey), None, ev, o).trace
  {
    var key := OutputKey(fileKey);
    assert Notifications(None, ev, o) == [];
    var t := Process(key, None, ev, o).trace;
    if ev.EndEvent? {
      assert t == (if o.readOk then [Upload(key)] else []) + [] + [Unlink(key)];
    }
  }

  /** `POST /async` answers "Job started" whatever the job later does; the job
      stores its output under the key derived from `fileKey`. */
  lemma AsyncRouteAcknowledges(fileKey: string, webhookUrl: Option<string>,
                               ev1: EngineEvent, o1: Outcomes, ev2: EngineEvent, o2: Outcomes)
    ensures AsyncRoute(fileKey, webhookUrl, ev1, o1).0 == AsyncRoute(fileKey, webhookUrl, ev2, o2).0
    ensures AsyncRoute(fileKey, webhookUrl, ev1, o1).0.message == "Job started"
    ensures AsyncRoute(fileKey, webhookUrl, ev1, o1).0.error == None
    ensures Unlink(OutputKey(fileKey)) in AsyncRoute(fileKey, webhookUrl, ev1, o1).1.trace
  {
    PipelineProperties.UnlinkPlacement(OutputKey(fileKey), webhookUrl, ev1, o1);
  }
}
