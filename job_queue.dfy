/** Asynchronous translation jobs and the in-memory job table
    (pkg/service/job_queue.go).  Time is an integer clock reading passed in
    by the caller; the job id, a UUID in the service, is passed in too. */
module JobQueue {
  import opened Wrappers

  datatype JobStatus = Queued | Processing | Completed | Failed {
    /** The status string the HTTP API shows. */
    function Name(): string {
      match this
      case Queued => "queued"
      case Processing => "processing"
      case Completed => "completed"
      case Failed => "failed"
    }

    predicate IsTerminal() { this == Completed || this == Failed }
  }

  /** The request's primitive: the two the service knows, and any other enum value. */
  datatype Primitive = PrimitiveTitle | PrimitiveDocTranslate | PrimitiveOther(code: int)

  datatype Document = Document(title: string, markdown: string)

  /** The request's `source` one-of: a title, a document, or nothing set. */
  datatype RequestSource = NoSource | TitleSource(title: string) | DocSource(doc: Document)

  datatype TranslateRequest = TranslateRequest(
    jobId: string,
    primitive: Primitive,
    sourceLanguage: string,
    targetLanguage: string,
    source: RequestSource)
  {
    /** The generated `GetTitle()` accessor: "" unless the title is set. */
    function GetTitle(): string {
      if source.TitleSource? then source.title else ""
    }

    /** The generated `GetDoc()` accessor: nil unless the document is set. */
    function GetDoc(): Option<Document> {
      if source.DocSource? then Some(source.doc) else None
    }
  }

  /** The fields of a job that its setters change. */
  datatype JobState = JobState(
    status: JobStatus,
    startedAt: Option<int>,
    completedAt: Option<int>,
    error: string,
    translatedTitle: string,
    translatedMarkdown: string,
    tokensUsed: int,
    inferenceTime: int,
    progressPercent: int,
    progressMessage: string)

  const InitialState: JobState := JobState(Queued, None, None, "", "", "", 0, 0, 0, "")

  /** `UpdateStatus`: StartedAt is stamped only by the first move to
      processing, CompletedAt only by the first move to completed or failed. */
  function WithStatus(s: JobState, status: JobStatus, message: string, now: int): (r: JobState)
    ensures WellFormed(r) && r.status == status
    ensures s.startedAt.Some? ==> r.startedAt == s.startedAt
    ensures s.completedAt.Some? ==> r.completedAt == s.completedAt
  {
    s.(status := status, progressMessage := message,
       startedAt := if status == Processing && s.startedAt.None? then Some(now) else s.startedAt,
       completedAt := if status.IsTerminal() && s.completedAt.None? then Some(now) else s.completedAt)
  }

  /** `UpdateProgress`. */
  function WithProgress(s: JobState, percent: int, message: string): (r: JobState)
    ensures WellFormed(r) <==> WellFormed(s)
    ensures r.status == s.status
  {
    s.(progressPercent := percent, progressMessage := message)
  }

  /** `SetError`: CompletedAt is overwritten even if already set. */
  function WithError(s: JobState, err: string, now: int): (r: JobState)
    ensures WellFormed(r) && r.status.IsTerminal()
  {
    s.(error := err, status := Failed, completedAt := Some(now))
  }

  /** `SetResult`. */
  function WithResult(s: JobState, title: string, markdown: string, tokens: int, inferenceTime: int, now: int): (r: JobState)
    ensures WellFormed(r) && r.status.IsTerminal()
  {
    s.(translatedTitle := title, translatedMarkdown := markdown, tokensUsed := tokens,
       inferenceTime := inferenceTime, status := Completed, completedAt := Some(now), progressPercent := 100)
  }

  /** One call of a job setter. */
  datatype JobOp =
    | UpdateStatusOp(status: JobStatus, message: string, now: int)
    | UpdateProgressOp(percent: int, message: string)
    | SetErrorOp(err: string, now: int)
    | SetResultOp(title: string, markdown: string, tokens: int, inferenceTime: int, now: int)

  function Apply(s: JobState, op: JobOp): JobState {
    match op
    case UpdateStatusOp(status, message, now) => WithStatus(s, status, message, now)
    case UpdateProgressOp(percent, message) => WithProgress(s, percent, message)
    case SetErrorOp(err, now) => WithError(s, err, now)
    case SetResultOp(title, markdown, tokens, inference, now) => WithResult(s, title, markdown, tokens, inference, now)
  }

  /** The state after a sequence of setter calls, in order. */
  function Run(s: JobState, ops: seq<JobOp>): JobState
    decreases |ops|
  {
    if ops == [] then s else Run(Apply(s, ops[0]), ops[1..])
  }

  /** Running two sequences of calls is running their concatenation. */
  lemma {:induction false} RunConcat(s: JobState, a: seq<JobOp>, b: seq<JobOp>)
    ensures Run(s, a + b) == Run(Run(s, a), b)
    decreases |a|
  {
    if a != [] {
      assert (a + b)[0] == a[0] && (a + b)[1..] == a[1..] + b;
      RunConcat(Apply(s, a[0]), a[1..], b);
    } else {
      assert a + b == b;
    }
  }

  /** A processing job has a start time; a finished job has a completion time. */
  predicate WellFormed(s: JobState) {
    && (s.status == Processing ==> s.startedAt.Some?)
    && (s.status.IsTerminal() ==> s.completedAt.Some?)
  }

  /** Every sequence of setter calls keeps a job well formed. */
  lemma {:induction false} RunPreservesWellFormed(s: JobState, ops: seq<JobOp>)
    requires WellFormed(s)
    ensures WellFormed(Run(s, ops))
    decreases |ops|
  {
    if ops != [] {
      RunPreservesWellFormed(Apply(s, ops[0]), ops[1..]);
    }
  }

  /** The clock reading of the first move to processing in a sequence of calls. */
  function FirstProcessing(ops: seq<JobOp>): Option<int>
    decreases |ops|
  {
    if ops == [] then None
    else if ops[0].UpdateStatusOp? && ops[0].status == Processing then Some(ops[0].now)
    else FirstProcessing(ops[1..])
  }

  /** StartedAt is set once: it keeps a value it has, and otherwise records
      the first move to processing. */
  lemma {:induction false} StartedAtSetOnce(s: JobState, ops: seq<JobOp>)
    ensures Run(s, ops).startedAt == if s.startedAt.Some? then s.startedAt else FirstProcessing(ops)
    decreases |ops|
  {
    if ops != [] {
      StartedAtSetOnce(Apply(s, ops[0]), ops[1..]);
    }
  }

  /** The clock reading of the first move to completed or failed by `UpdateStatus`. */
  function FirstTerminalStatus(ops: seq<JobOp>): Option<int>
    decreases |ops|
  {
    if ops == [] then None
    else if ops[0].UpdateStatusOp? && ops[0].status.IsTerminal() then Some(ops[0].now)
    else FirstTerminalStatus(ops[1..])
  }

  /** Under `UpdateStatus` and `UpdateProgress` alone, CompletedAt is set
      once, by the first move to a terminal status. */
  lemma {:induction false} CompletedAtSetOnceByStatus(s: JobState, ops: seq<JobOp>)
    requires forall i :: 0 <= i < |ops| ==> ops[i].UpdateStatusOp? || ops[i].UpdateProgressOp?
    ensures Run(s, ops).completedAt == if s.completedAt.Some? then s.completedAt else FirstTerminalStatus(ops)
    decreases |ops|
  {
    if ops != [] {
      CompletedAtSetOnceByStatus(Apply(s, ops[0]), ops[1..]);
    }
  }

  /** `UpdateProgress` changes progress only: a run of progress updates leaves
      every other field as it was and ends with the last percent. */
  lemma {:induction false} ProgressUpdatesTouchOnlyProgress(s: JobState, ops: seq<JobOp>)
    requires ops != [] && forall i :: 0 <= i < |ops| ==> ops[i].UpdateProgressOp?
    ensures Run(s, ops) == s.(progressPercent := ops[|ops| - 1].percent, progressMessage := ops[|ops| - 1].message)
    decreases |ops|
  {
    if |ops| > 1 {
      ProgressUpdatesTouchOnlyProgress(Apply(s, ops[0]), ops[1..]);
    }
  }

  /** A job is removed by cleanup once it finished more than `maxAge` ago. */
  predicate Expired(s: JobState, now: int, maxAge: int) {
    s.status.IsTerminal() && s.completedAt.Some? && now - s.completedAt.value > maxAge
  }

  /** `CleanupOldJobs` on the states of the jobs. */
  function CleanupStates(m: map<string, JobState>, now: int, maxAge: int): (r: map<string, JobState>)
    ensures r.Keys == set id | id in m && !Expired(m[id], now, maxAge)
    ensures forall id :: id in r ==> r[id] == m[id]
    // queued and processing jobs are never removed
    ensures forall id :: id in m && !m[id].status.IsTerminal() ==> id in r
  {
    map id | id in m && !Expired(m[id], now, maxAge) :: m[id]
  }

  /** A second cleanup at the same time removes nothing more. */
  lemma CleanupIdempotent(m: map<string, JobState>, now: int, maxAge: int)
    ensures CleanupStates(CleanupStates(m, now, maxAge), now, maxAge) == CleanupStates(m, now, maxAge)
  {
  }

  /** The title a job is created with: the request title for TITLE, the
      document title for DOC_TRANSLATE, "" otherwise. */
  function JobTitle(req: TranslateRequest): string {
    match req.primitive
    case PrimitiveTitle => req.GetTitle()
    case PrimitiveDocTranslate => if req.GetDoc().Some? then req.GetDoc().value.title else ""
    case PrimitiveOther(_) => ""
  }

  /** The document a job is created with: only DOC_TRANSLATE keeps one. */
  function JobDocument(req: TranslateRequest): Option<Document> {
    if req.primitive == PrimitiveDocTranslate then req.GetDoc() else None
  }

  class TranslationJob {
    const id: string
    const requestId: string
    const createdAt: int
    const primitive: Primitive
    const title: string
    const document: Option<Document>
    const sourceLang: string
    const targetLang: string

    var status: JobStatus
    var startedAt: Option<int>
    var completedAt: Option<int>
    var error: string
    var translatedTitle: string
    var translatedMarkdown: string
    var tokensUsed: int
    var inferenceTime: int
    var progressPercent: int
    var progressMessage: string

    function State(): JobState
      reads this
    {
      JobState(status, startedAt, completedAt, error, translatedTitle, translatedMarkdown,
               tokensUsed, inferenceTime, progressPercent, progressMessage)
    }

    constructor (id: string, requestId: string, createdAt: int, primitive: Primitive, title: string,
                 document: Option<Document>, sourceLang: string, targetLang: string)
      ensures this.id == id && this.requestId == requestId && this.createdAt == createdAt
      ensures this.primitive == primitive && this.title == title && this.document == document
      ensures this.sourceLang == sourceLang && this.targetLang == targetLang
      ensures State() == InitialState
    {
      this.id, this.requestId, this.createdAt := id, requestId, createdAt;
      this.primitive, this.title, this.document := primitive, title, document;
      this.sourceLang, this.targetLang := sourceLang, targetLang;
      status, startedAt, completedAt, error := Queued, None, None, "";
      translatedTitle, translatedMarkdown, tokensUsed, inferenceTime := "", "", 0, 0;
      progressPercent, progressMessage := 0, "";
    }

    method UpdateStatus(newStatus: JobStatus, message: string, now: int)
      modifies this
      ensures State() == WithStatus(old(State()), newStatus, message, now)
    {
      status := newStatus;
      progressMessage := message;
      match newStatus {
        case Processing =>
          if startedAt.None? { startedAt := Some(now); }
        case Completed =>
          if completedAt.None? { completedAt := Some(now); }
        case Failed =>
          if completedAt.None? { completedAt := Some(now); }
        case Queued =>
      }
    }

    method UpdateProgress(percent: int, message: string)
      modifies this
      ensures State() == WithProgress(old(State()), percent, message)
    {
      progressPercent := percent;
      progressMessage := message;
    }

    method SetError(err: string, now: int)
      modifies this
      ensures State() == WithError(old(State()), err, now)
    {
      error := err;
      status := Failed;
      completedAt := Some(now);
    }

    method SetResult(title: string, markdown: string, tokens: int, inference: int, now: int)
      modifies this
      ensures State() == WithResult(old(State()), title, markdown, tokens, inference, now)
    {
      translatedTitle := title;
      translatedMarkdown := markdown;
      tokensUsed := tokens;
      inferenceTime := inference;
      status := Completed;
      completedAt := Some(now);
      progressPercent := 100;
    }

    /** `GetStatus`: reads the status triple and changes nothing. */
    method GetStatus() returns (s: JobStatus, message: string, percent: int)
      ensures s == status && message == progressMessage && percent == progressPercent
    {
      s, message, percent := status, progressMessage, progressPercent;
    }
  }

  class Queue {
    var jobs: map<string, TranslationJob>

    /** The states of all jobs, by id. */
    ghost function Snapshot(): map<string, JobState>
      reads this, jobs.Values
    {
      map id | id in jobs :: jobs[id].State()
    }

    constructor ()
      ensures jobs == map[]
    {
      jobs := map[];
    }

    /** `CreateJob` with `jobId` standing for the UUID and `now` for the clock:
        stores one queued job under that id and returns the id. */
    method CreateJob(req: TranslateRequest, jobId: string, now: int) returns (id: string)
      modifies this
      ensures id == jobId && id in jobs && fresh(jobs[id])
      ensures jobs == old(jobs)[id := jobs[id]]
      ensures jobs[id].id == id && jobs[id].requestId == req.jobId && jobs[id].createdAt == now
      ensures jobs[id].primitive == req.primitive
      ensures jobs[id].sourceLang == req.sourceLanguage && jobs[id].targetLang == req.targetLanguage
      ensures jobs[id].title == JobTitle(req) && jobs[id].document == JobDocument(req)
      ensures jobs[id].State() == InitialState
    {
      var title := "";
      var document := None;
      if req.primitive == PrimitiveTitle {
        title := req.GetTitle();
      } else if req.primitive == PrimitiveDocTranslate {
        document := req.GetDoc();
        if document.Some? {
          title := document.value.title;
        }
      }
      var job := new TranslationJob(jobId, req.jobId, now, req.primitive, title, document,
                                    req.sourceLanguage, req.targetLanguage);
      jobs := jobs[jobId := job];
      id := jobId;
    }

    /** `GetJob`: the job stored under the id, or "job not found". */
    method GetJob(jobId: string) returns (r: Result<TranslationJob, string>)
      ensures jobId in jobs <==> r.Ok?
      ensures r.Ok? ==> r.value == jobs[jobId]
      ensures r.Err? ==> r.error == "job not found: " + jobId
    {
      if jobId in jobs {
        r := Ok(jobs[jobId]);
      } else {
        r := Err("job not found: " + jobId);
      }
    }

    /** `CleanupOldJobs`: deletes exactly the jobs that finished more than
        `maxAge` before `now`; the jobs themselves are not changed. */
    method CleanupOldJobs(now: int, maxAge: int)
      modifies this
      ensures jobs == map id | id in old(jobs) && !Expired(old(jobs)[id].State(), now, maxAge) :: old(jobs)[id]
      ensures Snapshot() == CleanupStates(old(Snapshot()), now, maxAge)
    {
      ghost var orig := jobs;
      ghost var states := Snapshot();
      var ids := jobs.Keys;
      assert jobs == KeptJobs(orig, states, ids, now, maxAge);
      while ids != {}
        invariant ids <= orig.Keys
        invariant jobs == KeptJobs(orig, states, ids, now, maxAge)
        decreases ids
      {
        var id :| id in ids;
        KeptJobsStep(orig, states, ids, id, now, maxAge);
        assert orig[id].State() == states[id];
        DropIfExpired(id, now, maxAge);
        ids := ids - {id};
      }
      CleanupSnapshot(orig, states, jobs, now, maxAge);
    }

    /** One visit of the cleanup loop. */
    method DropIfExpired(id: string, now: int, maxAge: int)
      requires id in jobs
      modifies this
      ensures jobs == if Expired(old(jobs)[id].State(), now, maxAge) then old(jobs) - {id} else old(jobs)
    {
      var job := jobs[id];
      if job.status == Completed || job.status == Failed {
        if job.completedAt.Some? && now - job.completedAt.value > maxAge {
          jobs := jobs - {id};
        }
      }
    }
  }

  /** The jobs while the cleanup loop runs, given the states the jobs had
      when it started: the ones still to visit and the visited ones that
      have not expired. */
  function KeptJobs(orig: map<string, TranslationJob>, states: map<string, JobState>, ids: set<string>,
                    now: int, maxAge: int): (r: map<string, TranslationJob>)
    ensures ids <= orig.Keys ==> ids <= r.Keys
  {
    map id | id in orig && (id in ids || id !in states || !Expired(states[id], now, maxAge)) :: orig[id]
  }

  /** Visiting one job removes it when expired and keeps it otherwise. */
  lemma KeptJobsStep(orig: map<string, TranslationJob>, states: map<string, JobState>, ids: set<string>, id: string,
                     now: int, maxAge: int)
    requires id in ids && ids <= orig.Keys && id in states
    ensures KeptJobs(orig, states, ids - {id}, now, maxAge)
         == if Expired(states[id], now, maxAge) then KeptJobs(orig, states, ids, now, maxAge) - {id}
            else KeptJobs(orig, states, ids, now, maxAge)
  {
  }

  /** At the end of the loop the jobs left are those that had not expired,
      and their states are the cleanup of the states. */
  lemma CleanupSnapshot(orig: map<string, TranslationJob>, states: map<string, JobState>,
                        r: map<string, TranslationJob>, now: int, maxAge: int)
    requires states == map id | id in orig :: orig[id].State()
    requires r == KeptJobs(orig, states, {}, now, maxAge)
    ensures r == map id | id in orig && !Expired(orig[id].State(), now, maxAge) :: orig[id]
    ensures (map id | id in r :: r[id].State()) == CleanupStates(states, now, maxAge)
  {
  }
}
