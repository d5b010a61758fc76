/** The HTTP side of the service (pkg/server/http.go): routing of job
    requests, the status document, Server-Sent Events framing and the poll
    loop that emits an event whenever a job's status or progress changes.
    A JSON document is modelled by its decoded value, and an event frame
    takes the encoder's text as its data; the RFC 3339 rendering of a clock
    reading is a parameter (`formatTime`). */
module Http {
  import opened Wrappers
  import opened Text
  import opened Json
  import opened JobQueue

  const JobsPrefix: string := "/api/v1/jobs/"
  const EventsSuffix: string := "/events"

  const StatusOK: int := 200
  const StatusBadRequest: int := 400
  const StatusNotFound: int := 404
  const StatusMethodNotAllowed: int := 405

  /** What `handleJobRequest` does with a request: an error reply (status
      and body, as `http.Error` writes it with its trailing newline), or one
      of the two handlers for the job found. */
  datatype Dispatch =
    | Reject(status: int, body: string)
    | ServeStatus(job: TranslationJob)
    | ServeEvents(job: TranslationJob)

  /** The job id and whether the event stream is asked for, from the path
      after "/api/v1/jobs/".  The suffix test is on characters: "/events" is
      ASCII, so it ends the UTF-8 bytes exactly when it ends the characters,
      and one more character means at least one more byte. */
  function ParseJobPath(rest: string): (r: (bool, string))
    ensures r.0 <==> |rest| > |EventsSuffix| && HasSuffix(rest, EventsSuffix)
    ensures r.1 + (if r.0 then EventsSuffix else "") == rest
    ensures r.0 ==> r.1 != ""
  {
    if |rest| > |EventsSuffix| && rest[|rest| - |EventsSuffix|..] == EventsSuffix then
      (true, rest[..|rest| - |EventsSuffix|])
    else (false, rest)
  }

  /** A non-empty id followed by "/events" is the event stream of that id,
      while "/events" alone is an ordinary id. */
  lemma ParseJobPathExamples(id: string)
    requires id != ""
    ensures ParseJobPath(id + EventsSuffix) == (true, id)
    ensures ParseJobPath(EventsSuffix) == (false, EventsSuffix)
  {
    var p := id + EventsSuffix;
    assert p[|p| - |EventsSuffix|..] == EventsSuffix;
    assert p[..|p| - |EventsSuffix|] == id;
  }

  /** The error reply `http.Error` writes. */
  function ErrorReply(status: int, message: string): Dispatch {
    Reject(status, message + "\n")
  }

  /** `handleJobRequest` for a path the mux routed here (it starts with
      "/api/v1/jobs/"). */
  method HandleJobRequest(queue: Queue, httpMethod: string, urlPath: string) returns (d: Dispatch)
    requires HasPrefix(urlPath, JobsPrefix)
    ensures httpMethod != "GET" ==> d == ErrorReply(StatusMethodNotAllowed, "Method not allowed")
    ensures httpMethod == "GET" && urlPath == JobsPrefix ==> d == ErrorReply(StatusBadRequest, "Job ID is required")
    ensures httpMethod == "GET" && urlPath != JobsPrefix ==>
      var jobId := ParseJobPath(urlPath[|JobsPrefix|..]).1;
      && (jobId !in queue.jobs ==> d == ErrorReply(StatusNotFound, "Job not found: job not found: " + jobId))
      && (jobId in queue.jobs && ParseJobPath(urlPath[|JobsPrefix|..]).0 ==> d == ServeEvents(queue.jobs[jobId]))
      && (jobId in queue.jobs && !ParseJobPath(urlPath[|JobsPrefix|..]).0 ==> d == ServeStatus(queue.jobs[jobId]))
  {
    if httpMethod != "GET" {
      return ErrorReply(StatusMethodNotAllowed, "Method not allowed");
    }
    var path := urlPath[|JobsPrefix|..];
    if path == "" {
      assert urlPath == urlPath[..|JobsPrefix|] + path;
      return ErrorReply(StatusBadRequest, "Job ID is required");
    }
    assert urlPath != JobsPrefix;
    d := DispatchJob(queue, path);
  }

  /** The lookup half of `handleJobRequest`, for the non-empty path after
      "/api/v1/jobs/". */
  method DispatchJob(queue: Queue, path: string) returns (d: Dispatch)
    requires path != ""
    ensures var jobId := ParseJobPath(path).1;
      && (jobId !in queue.jobs ==> d == ErrorReply(StatusNotFound, "Job not found: job not found: " + jobId))
      && (jobId in queue.jobs && ParseJobPath(path).0 ==> d == ServeEvents(queue.jobs[jobId]))
      && (jobId in queue.jobs && !ParseJobPath(path).0 ==> d == ServeStatus(queue.jobs[jobId]))
  {
    var parsed := ParseJobPath(path);
    var isSSE, jobId := parsed.0, parsed.1;
    var r := queue.GetJob(jobId);
    if r.Err? {
      assert "Job not found: " + "job not found: " == "Job not found: job not found: ";
      return ErrorReply(StatusNotFound, "Job not found: " + r.error);
    }
    if isSSE {
      d := ServeEvents(r.value);
    } else {
      d := ServeStatus(r.value);
    }
  }

  /** The keys every status document and every event carries. */
  const CommonKeys: set<string> := {"job_id", "request_id", "status", "progress_percent", "progress_message"}
  const ResultKeys: set<string> := {"translated_title", "translated_markdown", "tokens_used", "inference_time"}

  /** The optional fields of both documents: the error when one is set, the
      results when the job completed. */
  function WithOutcome(doc: map<string, Json>, s: JobState): (d: map<string, Json>)
    ensures doc.Keys <= d.Keys
  {
    var withError := if s.error != "" then doc["error" := JString(s.error)] else doc;
    if s.status == Completed then
      withError["translated_title" := JString(s.translatedTitle)]
               ["translated_markdown" := JString(s.translatedMarkdown)]
               ["tokens_used" := JNumber(s.tokensUsed)]
               ["inference_time" := JNumber(s.inferenceTime)]
    else withError
  }

  /** The document `handleJobStatusJSON` encodes for a job. */
  function StatusDocument(id: string, requestId: string, createdAt: int, s: JobState,
                          formatTime: int -> string): (doc: map<string, Json>)
    ensures CommonKeys + {"created_at"} <= doc.Keys
    ensures doc["status"] == JString(s.status.Name()) && doc["progress_percent"] == JNumber(s.progressPercent)
  {
    var base := map[
      "job_id" := JString(id),
      "request_id" := JString(requestId),
      "status" := JString(s.status.Name()),
      "progress_percent" := JNumber(s.progressPercent),
      "progress_message" := JString(s.progressMessage),
      "created_at" := JString(formatTime(createdAt))];
    var withStart := if s.startedAt.Some? then base["started_at" := JString(formatTime(s.startedAt.value))] else base;
    var withEnd := if s.completedAt.Some? then withStart["completed_at" := JString(formatTime(s.completedAt.value))] else withStart;
    WithOutcome(withEnd, s)
  }

  /** The status document always has the identity, status, progress and
      creation fields; the start and end times and the error only when set;
      the results exactly when the job completed. */
  lemma StatusDocumentKeys(id: string, requestId: string, createdAt: int, s: JobState, formatTime: int -> string)
    ensures var doc := StatusDocument(id, requestId, createdAt, s, formatTime);
      && doc.Keys == CommonKeys + {"created_at"}
                     + (if s.startedAt.Some? then {"started_at"} else {})
                     + (if s.completedAt.Some? then {"completed_at"} else {})
                     + (if s.error != "" then {"error"} else {})
                     + (if s.status == Completed then ResultKeys else {})
      && doc["status"] == JString(s.status.Name())
      && doc["progress_percent"] == JNumber(s.progressPercent)
      && ("error" in doc ==> doc["error"] == JString(s.error))
      && (s.status == Completed ==> doc["translated_markdown"] == JString(s.translatedMarkdown))
  {
    var base := map[
      "job_id" := JString(id),
      "request_id" := JString(requestId),
      "status" := JString(s.status.Name()),
      "progress_percent" := JNumber(s.progressPercent),
      "progress_message" := JString(s.progressMessage),
      "created_at" := JString(formatTime(createdAt))];
    var withStart := if s.startedAt.Some? then base["started_at" := JString(formatTime(s.startedAt.value))] else base;
    var withEnd := if s.completedAt.Some? then withStart["completed_at" := JString(formatTime(s.completedAt.value))] else withStart;
    assert withEnd.Keys == CommonKeys + {"created_at"}
                     + (if s.startedAt.Some? then {"started_at"} else {})
                     + (if s.completedAt.Some? then {"completed_at"} else {});
    WithOutcomeKeys(withEnd, s);
  }

  /** The outcome fields add the error when set and the results when the
      job completed, and leave the status and percent as they were. */
  lemma WithOutcomeKeys(doc: map<string, Json>, s: JobState)
    requires "error" !in doc && doc.Keys !! ResultKeys
    ensures var d := WithOutcome(doc, s);
      && d.Keys == doc.Keys + (if s.error != "" then {"error"} else {})
                     + (if s.status == Completed then ResultKeys else {})
      && (forall k :: k in doc ==> d[k] == doc[k])
      && ("error" in d ==> d["error"] == JString(s.error))
      && (s.status == Completed ==> d["translated_markdown"] == JString(s.translatedMarkdown))
  {
  }

  /** `handleJobStatusJSON`: reads the job and builds its document. */
  method JobStatusJson(job: TranslationJob, formatTime: int -> string) returns (doc: map<string, Json>)
    ensures doc == StatusDocument(job.id, job.requestId, job.createdAt, job.State(), formatTime)
  {
    var status, message, progress := job.GetStatus();
    var base := map[
      "job_id" := JString(job.id),
      "request_id" := JString(job.requestId),
      "status" := JString(status.Name()),
      "progress_percent" := JNumber(progress),
      "progress_message" := JString(message),
      "created_at" := JString(formatTime(job.createdAt))];
    doc := base;
    if job.startedAt.Some? {
      doc := doc["started_at" := JString(formatTime(job.startedAt.value))];
    }
    if job.completedAt.Some? {
      doc := doc["completed_at" := JString(formatTime(job.completedAt.value))];
    }
    if job.error != "" {
      doc := doc["error" := JString(job.error)];
    }
    if status == Completed {
      doc := doc["translated_title" := JString(job.translatedTitle)];
      doc := doc["translated_markdown" := JString(job.translatedMarkdown)];
      doc := doc["tokens_used" := JNumber(job.tokensUsed)];
      doc := doc["inference_time" := JNumber(job.inferenceTime)];
    }
  }

  /** The document of one event: the status document without its times,
      stamped with the time it was sent. */
  function EventDocument(id: string, requestId: string, s: JobState, timestamp: string): (doc: map<string, Json>)
    ensures CommonKeys + {"timestamp"} <= doc.Keys
    ensures doc["timestamp"] == JString(timestamp)
  {
    WithOutcome(map[
      "job_id" := JString(id),
      "request_id" := JString(requestId),
      "status" := JString(s.status.Name()),
      "progress_percent" := JNumber(s.progressPercent),
      "progress_message" := JString(s.progressMessage),
      "timestamp" := JString(timestamp)], s)
  }

  lemma EventDocumentKeys(id: string, requestId: string, s: JobState, timestamp: string)
    ensures EventDocument(id, requestId, s, timestamp).Keys
         == CommonKeys + {"timestamp"}
            + (if s.error != "" then {"error"} else {})
            + (if s.status == Completed then ResultKeys else {})
  {
  }

  /** One Server-Sent Event as `sendSSEEvent` writes it. */
  function Frame(eventType: string, data: string): (frame: string)
    ensures |frame| == |eventType| + |data| + 16
    ensures frame[..7] == "event: " && frame[|frame| - 2..] == "\n\n"
  {
    "event: " + eventType + "\n" + "data: " + data + "\n\n"
  }

  /** The text before the first newline and the text after it. */
  function SplitLine(s: string): Option<(string, string)> {
    var i := IndexAny(s, {'\n'});
    if i < 0 then None else Some((s[..i], s[i + 1..]))
  }

  /** Reads one event back: its type and its data line. */
  function ParseFrame(f: string): Option<(string, string)> {
    if !HasPrefix(f, "event: ") then None
    else
      var header := SplitLine(f[|"event: "|..]);
      if header.None? || !HasPrefix(header.value.1, "data: ") then None
      else
        var data := SplitLine(header.value.1[|"data: "|..]);
        if data.None? || data.value.1 != "\n" then None
        else Some((header.value.0, data.value.0))
  }

  predicate OneLine(s: string) {
    forall k :: 0 <= k < |s| ==> s[k] != '\n'
  }

  /** A line followed by a newline: the newline is the first one. */
  lemma SplitFirstLine(line: string, rest: string)
    requires OneLine(line)
    ensures SplitLine(line + "\n" + rest) == Some((line, rest))
  {
    var s := line + "\n" + rest;
    assert s[|line|] == '\n';
    assert forall k :: 0 <= k < |line| ==> s[k] == line[k];
    assert s[..|line|] == line && s[|line| + 1..] == rest;
  }

  /** An event whose type and data hold no newline (the JSON encoder never
      writes one) reads back as that type and data. */
  lemma FrameRoundTrip(eventType: string, data: string)
    requires OneLine(eventType) && OneLine(data)
    ensures ParseFrame(Frame(eventType, data)) == Some((eventType, data))
  {
    var f := Frame(eventType, data);
    var body := data + "\n" + "\n";
    var after := "data: " + body;
    var rest := eventType + "\n" + after;
    assert HasPrefix(f, "event: ") && f[|"event: "|..] == rest by {
      assert f == "event: " + rest;
    }
    assert SplitLine(rest) == Some((eventType, after)) by {
      SplitFirstLine(eventType, after);
    }
    assert HasPrefix(after, "data: ") && after[|"data: "|..] == body;
    assert SplitLine(body) == Some((data, "\n")) by {
      SplitFirstLine(data, "\n");
    }
  }

  /** What the poll loop compares: the status name and the percent. */
  function Key(s: JobState): (string, int) {
    (s.status.Name(), s.progressPercent)
  }

  /** The pair the poll loop starts from, which no job state has. */
  const NoKey: (string, int) := ("", -1)

  /** The states the poll loop sends for the job states it sees at its
      ticks, given the last pair it sent: a state is sent when its pair
      differs from the last one sent, and the loop ends after sending a
      completed or failed state.  The client going away ends the ticks. */
  function Watch(ticks: seq<JobState>, last: (string, int)): (sent: seq<JobState>)
    ensures |sent| <= |ticks|
    decreases |ticks|
  {
    if ticks == [] then []
    else if Key(ticks[0]) != last then
      [ticks[0]] + (if ticks[0].status.IsTerminal() then [] else Watch(ticks[1..], Key(ticks[0])))
    else Watch(ticks[1..], last)
  }

  /** Each event sent differs in status or percent from the one before
      (the first from `last`), only the last one can be final, and each is
      a state the loop saw. */
  lemma {:induction false} WatchShape(ticks: seq<JobState>, last: (string, int))
    ensures var e := Watch(ticks, last);
      && (e != [] ==> Key(e[0]) != last)
      && (forall k :: 0 < k < |e| ==> Key(e[k]) != Key(e[k - 1]))
      && (forall k :: 0 <= k < |e| - 1 ==> !e[k].status.IsTerminal())
      && (forall k :: 0 <= k < |e| ==> e[k] in ticks)
    decreases |ticks|
  {
    if ticks != [] {
      WatchShape(ticks[1..], if Key(ticks[0]) != last then Key(ticks[0]) else last);
      var e := Watch(ticks, last);
      if Key(ticks[0]) != last && !ticks[0].status.IsTerminal() {
        var rest := Watch(ticks[1..], Key(ticks[0]));
        assert e == [ticks[0]] + rest;
        forall k | 0 <= k < |e|
          ensures e[k] in ticks
        {
          if k > 0 {
            assert e[k] == rest[k - 1];
            assert rest[k - 1] in ticks[1..];
          }
        }
      } else if Key(ticks[0]) == last {
        forall k | 0 <= k < |e|
          ensures e[k] in ticks
        {
          assert e[k] in ticks[1..];
        }
      }
    }
  }

  /** The first tick always sends, because the starting pair matches no
      job; a job already finished at that tick gets exactly that event. */
  lemma WatchFirstTick(ticks: seq<JobState>)
    requires ticks != []
    ensures Watch(ticks, NoKey) != [] && Watch(ticks, NoKey)[0] == ticks[0]
    ensures ticks[0].status.IsTerminal() ==> Watch(ticks, NoKey) == [ticks[0]]
  {
    assert ticks[0].status.Name() != "";
  }

  /** `Watch` from the tick at `i`: one step of the poll loop. */
  lemma WatchUnfold(ticks: seq<JobState>, i: nat, last: (string, int))
    requires i < |ticks|
    ensures Watch(ticks[i..], last)
         == if Key(ticks[i]) != last then
              [ticks[i]] + (if ticks[i].status.IsTerminal() then [] else Watch(ticks[i + 1..], Key(ticks[i])))
            else Watch(ticks[i + 1..], last)
  {
    assert ticks[i..][0] == ticks[i] && ticks[i..][1..] == ticks[i + 1..];
  }

  /** `handleJobEventsSSE`: sends the job's state at once, then the states
      `Watch` selects from the states seen at the ticks. */
  method HandleJobEvents(initial: JobState, ticks: seq<JobState>) returns (sent: seq<JobState>)
    ensures sent == [initial] + Watch(ticks, NoKey)
  {
    sent := [initial];
    var lastStatus := "";
    var lastProgress := -1;
    var i := 0;
    while i < |ticks|
      invariant 0 <= i <= |ticks|
      invariant [initial] + Watch(ticks, NoKey) == sent + Watch(ticks[i..], (lastStatus, lastProgress))
      decreases |ticks| - i
    {
      var s := ticks[i];
      WatchUnfold(ticks, i, (lastStatus, lastProgress));
      if s.status.Name() != lastStatus || s.progressPercent != lastProgress {
        sent := sent + [s];
        lastStatus := s.status.Name();
        lastProgress := s.progressPercent;
        if s.status == Completed || s.status == Failed {
          return;
        }
      }
      i := i + 1;
    }
  }
}
