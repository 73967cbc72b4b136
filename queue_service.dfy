/** The in-memory batch queue: a FIFO of pending jobs, at most two active
    jobs, and a registry of every job by id. A job walks its channels one by
    one, recording each channel's analysis outcome. */
module Queue {
  import opened Wrappers
  import Strings
  import Seqs
  import Telegram
  import opened Records

  const MaxConcurrent: nat := 2
  const ChannelPacingMs: nat := 500      // pause after each channel
  const JobRetentionMs: int := 3600000   // 60 * 60 * 1000
  const RateLimitedMessage := "Rate Limited: Please try again later"

  // ---------------------------------------------------------------------
  // One channel of a batch
  // ---------------------------------------------------------------------

  /** The worker's decision for one link: the outcome `processSingleChannel`
      resolves with (`Ok`) or the message of the error it throws (`Err`). */
  function ProcessSingleChannel(link: string, env: Services, now: int): (r: Result<AnalysisOutcome, string>)
    ensures r.Ok? ==> r.value.success
    ensures Telegram.ExtractChannelName(link).Err? ==> r == Err(Telegram.InvalidLinkMessage)
    ensures Analyze(link, env, now).Found? ==>
              r == Ok(AnalysisOutcome(true, StoredRow(Analyze(link, env, now).row), Some(true), None))
    ensures Analyze(link, env, now).AnalysisFailed? ==> r == Err(Analyze(link, env, now).message)
    ensures Analyze(link, env, now).FetchFailed? ==>
              r == Err(if Telegram.MentionsRateLimit(Analyze(link, env, now).message)
                       then RateLimitedMessage else Analyze(link, env, now).message)
    ensures Analyze(link, env, now).Built? && Analyze(link, env, now).saved.Err? ==>
              r.Ok? && r.value.warning == Some(NotSavedWarning) && r.value.cached.None?
              && r.value.data == UnsavedRecord(Analyze(link, env, now).record, now)
    ensures Analyze(link, env, now).Built? && Analyze(link, env, now).saved.Ok? ==>
              r == Ok(AnalysisOutcome(true, StoredRow(Analyze(link, env, now).saved.value), Some(false), None))
    ensures r.Ok? <==> Analyze(link, env, now).Found? || Analyze(link, env, now).Built?
  {
    match Analyze(link, env, now)
    case BadLink(m) => Err(m)
    case Found(row) => Ok(AnalysisOutcome(true, StoredRow(row), Some(true), None))
    case FetchFailed(m) => Err(if Telegram.MentionsRateLimit(m) then RateLimitedMessage else m)
    case AnalysisFailed(m) => Err(m)
    case Built(record, saved) =>
      match saved
      case Err(_) => Ok(AnalysisOutcome(true, UnsavedRecord(record, now), None, Some(NotSavedWarning)))
      case Ok(row) => Ok(AnalysisOutcome(true, StoredRow(row), Some(false), None))
  }

  /** A fetch that fails with a message about rate limiting is recorded as
      the fixed rate-limit message (129-131); any other fetch error is
      recorded as it is. */
  lemma FetchErrorRecorded(link: string, env: Services, now: int)
    requires Telegram.ExtractChannelName(link).Ok?
    requires env.lookup(Telegram.ExtractChannelName(link).value).None?
    requires env.fetch(Telegram.ExtractChannelName(link).value).Err?
    ensures var m := env.fetch(Telegram.ExtractChannelName(link).value).error;
            ProcessSingleChannel(link, env, now) == Err(if Telegram.MentionsRateLimit(m) then RateLimitedMessage else m)
  {
  }

  /** A failed AI call is recorded with its own message (136). */
  lemma AnalysisErrorRecorded(link: string, env: Services, now: int)
    requires Telegram.ExtractChannelName(link).Ok?
    requires env.lookup(Telegram.ExtractChannelName(link).value).None?
    requires env.fetch(Telegram.ExtractChannelName(link).value).Ok?
    requires var fetched := env.fetch(Telegram.ExtractChannelName(link).value).value;
             env.analyze(fetched.0, fetched.1).Err?
    ensures var fetched := env.fetch(Telegram.ExtractChannelName(link).value).value;
            ProcessSingleChannel(link, env, now) == Err(env.analyze(fetched.0, fetched.1).error)
  {
  }

  datatype TaskState = Pending | Processing | Completed | Failed

  /** One channel of a job; `result` and `error` are `null` until it settles. */
  datatype ChannelTask = ChannelTask(link: string, status: TaskState,
                                     result: Option<AnalysisOutcome>, error: Option<string>)

  predicate Untouched(t: ChannelTask) {
    t.status == Pending && t.result.None? && t.error.None?
  }

  /** Not yet settled: pending, or marked processing while its analysis runs. */
  predicate Waiting(t: ChannelTask) {
    (t.status == Pending || t.status == Processing) && t.result.None? && t.error.None?
  }

  /** Settled: completed with a result, or failed with an error message. */
  predicate Settled(t: ChannelTask) {
    (t.status == Completed && t.result.Some? && t.error.None?)
    || (t.status == Failed && t.error.Some? && t.result.None?)
  }

  function NewTask(link: string): ChannelTask {
    ChannelTask(Strings.Trim(link), Pending, None, None)
  }

  /** The channel list of a new job: one untouched task per link, trimmed. */
  function NewTasks(links: seq<string>): (ts: seq<ChannelTask>)
    ensures |ts| == |links|
    ensures forall i :: 0 <= i < |ts| ==> Untouched(ts[i]) && ts[i].link == Strings.Trim(links[i])
  {
    seq(|links|, i requires 0 <= i < |links| => NewTask(links[i]))
  }

  /** A task once its analysis has answered. */
  function Settle(t: ChannelTask, outcome: Result<AnalysisOutcome, string>): (s: ChannelTask)
    ensures s.link == t.link
    ensures Waiting(t) ==> Settled(s)
    ensures s.status == Completed <==> outcome.Ok?
    ensures outcome.Ok? ==> s.result == Some(outcome.value)
    ensures outcome.Err? ==> s.error == Some(outcome.error)
  {
    match outcome
    case Ok(r) => t.(status := Completed, result := Some(r))
    case Err(m) => t.(status := Failed, error := Some(m))
  }

  /** The `channelComplete` / `channelError` notification a job emits. */
  datatype ChannelEvent =
    | ChannelComplete(jobId: string, link: string, result: AnalysisOutcome)
    | ChannelError(jobId: string, link: string, error: string)

  function EventFor(jobId: string, t: ChannelTask, outcome: Result<AnalysisOutcome, string>): ChannelEvent {
    match outcome
    case Ok(r) => ChannelComplete(jobId, t.link, r)
    case Err(m) => ChannelError(jobId, t.link, m)
  }

  // ---------------------------------------------------------------------
  // Jobs
  // ---------------------------------------------------------------------

  datatype JobState = JobPending | JobProcessing | JobCompleted

  /** A batch job as the registry holds it. */
  datatype Job = Job(id: string, channels: seq<ChannelTask>, createdAt: int,
                     status: JobState, completed: nat, total: nat)

  /** The channels before `completed` have settled, the one at `completed`
      may be in progress, the rest are untouched; a pending job has not
      started and a completed one has handled every channel. */
  predicate JobValid(j: Job) {
    j.completed <= j.total == |j.channels|
    && (forall i :: 0 <= i < j.completed ==> Settled(j.channels[i]))
    && (j.completed < j.total ==> Waiting(j.channels[j.completed]))
    && (forall i :: j.completed < i < j.total ==> Untouched(j.channels[i]))
    && (j.status == JobPending ==> j.completed == 0 && forall i :: 0 <= i < j.total ==> Untouched(j.channels[i]))
    && (j.status == JobCompleted ==> j.completed == j.total)
  }

  /** A running job waiting for the analysis of its channel at `completed`. */
  predicate Awaiting(j: Job) {
    j.status == JobProcessing && j.completed < |j.channels| && j.channels[j.completed].status == Processing
  }

  /** The job `addBatch` files: pending, nothing done, one untouched task
      per link with the link trimmed. */
  function NewJob(id: string, links: seq<string>, now: int): (j: Job)
    ensures JobValid(j) && j.status == JobPending
    ensures j.id == id && j.createdAt == now && j.total == |links| && j.completed == 0
    ensures forall i :: 0 <= i < |links| ==> j.channels[i].link == Strings.Trim(links[i])
  {
    Job(id, NewTasks(links), now, JobPending, 0, |links|)
  }

  /** A pending job once `processJob` has run up to its first pause: it is
      processing with its first channel marked, or, without channels, it
      has already completed. */
  function Start(j: Job): (s: Job)
    ensures s.id == j.id && s.createdAt == j.createdAt && s.total == j.total && s.completed == j.completed
    ensures s.status == (if j.total > 0 then JobProcessing else JobCompleted)
    ensures |s.channels| == |j.channels| && forall i :: 0 <= i < |j.channels| ==> s.channels[i].link == j.channels[i].link
    ensures JobValid(j) && j.status == JobPending ==>
              JobValid(s) && (j.total > 0 ==> Awaiting(s))
              && |s.channels| == |j.channels|
              && forall i :: 0 <= i < j.total ==> s.channels[i] == j.channels[i].(status := if i == 0 then Processing else Pending)
  {
    var cs := if |j.channels| > 0 then j.channels[0 := j.channels[0].(status := Processing)] else j.channels;
    j.(status := if j.total > 0 then JobProcessing else JobCompleted, channels := cs)
  }

  /** The channel in progress settles with its outcome and is counted. */
  function Answer(j: Job, outcome: Result<AnalysisOutcome, string>): (s: Job)
    ensures s.id == j.id && s.createdAt == j.createdAt && s.total == j.total && s.status == j.status
    ensures JobValid(j) && Awaiting(j) ==>
              JobValid(s) && !Awaiting(s) && s.completed == j.completed + 1
              && |s.channels| == |j.channels|
              && s.channels[j.completed] == Settle(j.channels[j.completed], outcome)
              && forall i :: 0 <= i < |j.channels| && i != j.completed ==> s.channels[i] == j.channels[i]
  {
    if j.completed < |j.channels| then
      j.(channels := j.channels[j.completed := Settle(j.channels[j.completed], outcome)],
         completed := j.completed + 1)
    else j
  }

  /** The 500 ms pause is over: the next channel is marked processing, or,
      with every channel handled, the job completes. */
  function Resume(j: Job): (s: Job)
    ensures s.id == j.id && s.createdAt == j.createdAt && s.total == j.total && s.completed == j.completed
    ensures JobValid(j) && j.status == JobProcessing ==>
              JobValid(s) && |s.channels| == |j.channels|
              && (j.completed < j.total ==>
                    Awaiting(s) && s.channels == j.channels[j.completed := j.channels[j.completed].(status := Processing)])
              && (j.completed == j.total ==> s.status == JobCompleted && s.channels == j.channels)
  {
    if j.completed < |j.channels| then
      j.(channels := j.channels[j.completed := j.channels[j.completed].(status := Processing)])
    else j.(status := JobCompleted)
  }

  /** A started job after `processJob` has run to its end with nothing in
      between: every channel settled with its outcome, all counted. */
  function Finished(j: Job, outcomes: nat -> Result<AnalysisOutcome, string>): Job {
    j.(channels := seq(|j.channels|, i requires 0 <= i < |j.channels| => Settle(j.channels[i], outcomes(i))),
       status := JobCompleted, completed := |j.channels|)
  }

  /** A finished job is well formed, completed, and has settled every
      channel with the outcome of its position. */
  lemma FinishedIsComplete(j: Job, outcomes: nat -> Result<AnalysisOutcome, string>)
    requires JobValid(j) && j.status == JobProcessing && j.completed == 0
    ensures var f := Finished(j, outcomes);
            JobValid(f) && f.status == JobCompleted && f.completed == f.total == j.total
            && f.id == j.id && f.createdAt == j.createdAt
            && forall i :: 0 <= i < j.total ==>
                 Settled(f.channels[i]) && f.channels[i].link == j.channels[i].link
                 && (f.channels[i].status == Completed <==> outcomes(i).Ok?)
  {
    var f := Finished(j, outcomes);
    assert |f.channels| == j.total;
    forall i | 0 <= i < j.total
      ensures f.channels[i] == Settle(j.channels[i], outcomes(i))
      ensures Settled(f.channels[i])
    {
      assert Waiting(j.channels[i]) by {
        if i > 0 {
          assert Untouched(j.channels[i]);
        }
      }
    }
    assert JobValid(f);
  }

  /** `done` is `job` after `i` rounds of the `processJob` loop: the first
      `i` channels settled with their outcomes and counted, the next one in
      progress, the rest as they were; the job completes once every channel
      is handled. */
  predicate RanTo(job: Job, done: Job, i: nat, outcomes: nat -> Result<AnalysisOutcome, string>) {
    i <= job.total == |job.channels|
    && done.id == job.id && done.createdAt == job.createdAt && done.total == job.total
    && done.completed == i && |done.channels| == job.total
    && (forall k :: 0 <= k < i ==> done.channels[k] == Settle(job.channels[k], outcomes(k)))
    && (forall k :: i < k < job.total ==> done.channels[k] == job.channels[k])
    && (i < job.total ==> done.status == JobProcessing && done.channels[i] == job.channels[i].(status := Processing))
    && (i == job.total ==> done.status == JobCompleted)
  }

  /** One round, answer then resume, moves the run on by one channel. */
  lemma RoundAdvances(job: Job, done: Job, i: nat, outcomes: nat -> Result<AnalysisOutcome, string>)
    requires RanTo(job, done, i, outcomes) && i < job.total
    ensures RanTo(job, Resume(Answer(done, outcomes(i))), i + 1, outcomes)
  {
    var answered := Answer(done, outcomes(i));
    assert answered.channels == done.channels[i := Settle(done.channels[i], outcomes(i))];
    assert Settle(done.channels[i], outcomes(i)) == Settle(job.channels[i], outcomes(i));
  }

  /** A run that has handled every channel is the finished job. */
  lemma RanToEnd(job: Job, done: Job, outcomes: nat -> Result<AnalysisOutcome, string>)
    requires RanTo(job, done, job.total, outcomes)
    ensures done == Finished(job, outcomes)
  {
    assert done.channels == Finished(job, outcomes).channels;
  }

  /** The loop of `processJob` on a started job: channel `i` settles with
      `outcomes(i)` and is counted, its notification is emitted, and a
      500 ms pause follows; once every channel is handled the job completes. */
  method RunChannels(job: Job, outcomes: nat -> Result<AnalysisOutcome, string>)
    returns (done: Job, events: seq<ChannelEvent>, waited: nat)
    requires JobValid(job) && Awaiting(job) && job.completed == 0
    ensures done == Finished(job, outcomes)
    ensures |events| == job.total
    ensures forall i :: 0 <= i < |events| ==> events[i] == EventFor(job.id, job.channels[i], outcomes(i))
    ensures waited == ChannelPacingMs * |events|
  {
    done := job;
    events := [];
    waited := 0;
    var i := 0;
    while i < |done.channels|
      invariant RanTo(job, done, i, outcomes)
      invariant |events| == i && waited == ChannelPacingMs * i
      invariant forall k :: 0 <= k < i ==> events[k] == EventFor(job.id, job.channels[k], outcomes(k))
    {
      var outcome := outcomes(i);
      RoundAdvances(job, done, i, outcomes);
      events := events + [EventFor(done.id, done.channels[i], outcome)];
      done := Answer(done, outcome);
      waited := waited + ChannelPacingMs;
      done := Resume(done);
      i := i + 1;
    }
    RanToEnd(job, done, outcomes);
  }

  /** Swept by `cleanupOldJobs`: completed, and created more than an hour ago. */
  predicate Expired(job: Job, now: int) {
    job.status == JobCompleted && job.createdAt < now - JobRetentionMs
  }

  // ---------------------------------------------------------------------
  // Admission
  // ---------------------------------------------------------------------

  /** The ids, in order, of the jobs among `ids` that have channels: those
      that keep their slot in `activeJobs` once admitted. */
  function WithChannels(ids: seq<string>, registry: map<string, Job>): (r: seq<string>)
    ensures |r| <= |ids|
    ensures forall id :: id in r <==> id in ids && id in registry && registry[id].total > 0
    ensures Seqs.NoDuplicates(ids) ==> Seqs.NoDuplicates(r)
  {
    if ids == [] then []
    else
      var rest := WithChannels(ids[..|ids| - 1], registry);
      var id := ids[|ids| - 1];
      assert forall x :: x in ids <==> x in ids[..|ids| - 1] || x == id;
      if id in registry && registry[id].total > 0 then
        assert Seqs.NoDuplicates(ids) ==> id !in ids[..|ids| - 1] && Seqs.NoDuplicates(ids[..|ids| - 1]);
        rest + [id]
      else rest
  }

  /** The registry after the jobs of `ids` have been started in order. */
  function StartAll(registry: map<string, Job>, ids: seq<string>): (r: map<string, Job>)
    ensures r.Keys == registry.Keys
  {
    if ids == [] then registry
    else
      var before := StartAll(registry, ids[..|ids| - 1]);
      var id := ids[|ids| - 1];
      if id in registry then before[id := Start(registry[id])] else before
  }

  lemma WithChannelsSnoc(ids: seq<string>, id: string, registry: map<string, Job>)
    ensures WithChannels(ids + [id], registry)
            == WithChannels(ids, registry) + if id in registry && registry[id].total > 0 then [id] else []
  {
    assert (ids + [id])[..|ids|] == ids;
  }

  lemma StartAllSnoc(registry: map<string, Job>, ids: seq<string>, id: string)
    ensures StartAll(registry, ids + [id])
            == if id in registry then StartAll(registry, ids)[id := Start(registry[id])] else StartAll(registry, ids)
  {
    assert (ids + [id])[..|ids|] == ids;
  }

  /** The bookkeeping of admitting the job at `n - 1` after the ones
      before it. */
  lemma AdmittedOneMore(queue: seq<string>, activeJobs: seq<string>, jobStatus: map<string, Job>, n: nat)
    requires n < |queue| && queue[n] in jobStatus && Seqs.NoDuplicates(queue)
    ensures var id := queue[n];
            var a1 := activeJobs + WithChannels(queue[..n], jobStatus);
            var r1 := StartAll(jobStatus, queue[..n]);
            id in r1 && r1[id] == jobStatus[id]
            && StartAll(jobStatus, queue[..n + 1]) == r1[id := Start(r1[id])]
            && activeJobs + WithChannels(queue[..n + 1], jobStatus)
               == if Start(r1[id]).total > 0 then a1 + [id] else a1
  {
    var done := queue[..n];
    var id := queue[n];
    assert queue[..n + 1] == done + [id];
    StartAllEffect(jobStatus, done, id);
    WithChannelsSnoc(done, id, jobStatus);
    StartAllSnoc(jobStatus, done, id);
    if jobStatus[id].total > 0 {
      assert activeJobs + (WithChannels(done, jobStatus) + [id]) == (activeJobs + WithChannels(done, jobStatus)) + [id];
    }
  }

  /** Starting a run of distinct jobs starts each of them once and leaves
      every other job as it was. */
  lemma {:induction false} StartAllEffect(registry: map<string, Job>, ids: seq<string>, id: string)
    requires Seqs.NoDuplicates(ids)
    requires id in registry
    ensures StartAll(registry, ids)[id] == if id in ids then Start(registry[id]) else registry[id]
    decreases |ids|
  {
    if ids != [] {
      var init := ids[..|ids| - 1];
      assert Seqs.NoDuplicates(init);
      assert forall x :: x in ids <==> x in init || x == ids[|ids| - 1];
      StartAllEffect(registry, init, id);
    }
  }

  /** Starting jobs never changes what any job has to do. */
  lemma {:induction false} StartAllKeepsTotals(registry: map<string, Job>, ids: seq<string>, id: string)
    requires id in registry
    ensures StartAll(registry, ids)[id].total == registry[id].total
    ensures StartAll(registry, ids)[id].id == registry[id].id
    ensures |StartAll(registry, ids)[id].channels| == |registry[id].channels|
    ensures forall i :: 0 <= i < |registry[id].channels| ==>
              StartAll(registry, ids)[id].channels[i].link == registry[id].channels[i].link
    decreases |ids|
  {
    if ids != [] {
      StartAllKeepsTotals(registry, ids[..|ids| - 1], id);
    }
  }

  /** The ids without `id`, others kept in order. */
  function Without(ids: seq<string>, id: string): (r: seq<string>)
    ensures |r| <= |ids|
    ensures forall x :: x in r <==> x in ids && x != id
    ensures Seqs.NoDuplicates(ids) ==> Seqs.NoDuplicates(r)
  {
    if ids == [] then []
    else
      var rest := Without(ids[1..], id);
      assert forall x :: x in ids <==> x == ids[0] || x in ids[1..];
      if ids[0] != id then
        assert Seqs.NoDuplicates(ids) ==> ids[0] !in ids[1..] && Seqs.NoDuplicates(ids[1..]);
        [ids[0]] + rest
      else rest
  }

  /** Without repeats, filtering out an id that occurs removes just that
      one entry. */
  lemma {:induction false} WithoutRemovesOne(ids: seq<string>, k: nat)
    requires k < |ids| && Seqs.NoDuplicates(ids)
    ensures Without(ids, ids[k]) == ids[..k] + ids[k + 1..]
    decreases k
  {
    if k == 0 {
      WithoutAbsent(ids[1..], ids[0]);
    } else {
      WithoutRemovesOne(ids[1..], k - 1);
      assert ids[1..][k - 1] == ids[k];
      assert ids[1..][..k - 1] + ids[1..][k..] == ids[1..k] + ids[k + 1..];
      assert ids[..k] == [ids[0]] + ids[1..k];
    }
  }

  /** Filtering out an id that does not occur changes nothing. */
  lemma {:induction false} WithoutAbsent(ids: seq<string>, id: string)
    requires id !in ids
    ensures Without(ids, id) == ids
    decreases |ids|
  {
    if ids != [] {
      WithoutAbsent(ids[1..], id);
    }
  }

  /** Every registered job is filed under its own id and is well formed;
      the queue holds exactly the pending jobs and `activeJobs` exactly the
      processing ones, each once, and at most two are active. */
  ghost predicate Consistent(queue: seq<string>, activeJobs: seq<string>, jobStatus: map<string, Job>) {
    |activeJobs| <= MaxConcurrent
    && Seqs.NoDuplicates(queue) && Seqs.NoDuplicates(activeJobs)
    && (forall id :: id in queue ==> id in jobStatus)
    && (forall id :: id in activeJobs ==> id in jobStatus)
    && (forall id :: id in jobStatus ==>
          jobStatus[id].id == id && JobValid(jobStatus[id])
          && (jobStatus[id].status == JobPending <==> id in queue)
          && (jobStatus[id].status == JobProcessing <==> id in activeJobs))
  }

  /** Admitting the first `n` queued jobs leaves the service consistent
      when the slots suffice: they are started, those with channels hold
      the new active slots in admission order, and the rest still queue. */
  lemma AdmittedConsistent(queue: seq<string>, activeJobs: seq<string>, jobStatus: map<string, Job>, n: nat)
    requires Consistent(queue, activeJobs, jobStatus) && n <= |queue|
    requires |activeJobs| + |WithChannels(queue[..n], jobStatus)| <= MaxConcurrent
    ensures Consistent(queue[n..], activeJobs + WithChannels(queue[..n], jobStatus), StartAll(jobStatus, queue[..n]))
  {
    var done, rest := queue[..n], queue[n..];
    var started := WithChannels(done, jobStatus);
    var registry := StartAll(jobStatus, done);
    Seqs.NoDuplicatesSplit(queue, n);
    Seqs.SplitMembership(queue, n);
    forall id | id in started ensures id !in activeJobs {
      assert jobStatus[id].status == JobPending;
    }
    Seqs.NoDuplicatesConcat(activeJobs, started);
    forall id | id in registry
      ensures registry[id].id == id && JobValid(registry[id])
      ensures registry[id].status == JobPending <==> id in rest
      ensures registry[id].status == JobProcessing <==> id in activeJobs + started
    {
      StartAllEffect(jobStatus, done, id);
    }
  }

  /** Running an admitted job to its end keeps the service consistent:
      the finished job leaves the active set and nothing else changes. */
  lemma FinishedConsistent(queue: seq<string>, activeJobs: seq<string>, jobStatus: map<string, Job>,
                           jobId: string, outcomes: nat -> Result<AnalysisOutcome, string>)
    requires Consistent(queue, activeJobs, jobStatus)
    requires jobId in jobStatus && Awaiting(jobStatus[jobId]) && jobStatus[jobId].completed == 0
    ensures Consistent(queue, Without(activeJobs, jobId),
                       jobStatus[jobId := Finished(jobStatus[jobId], outcomes)])
  {
    FinishedIsComplete(jobStatus[jobId], outcomes);
  }

  // ---------------------------------------------------------------------
  // The queue service
  // ---------------------------------------------------------------------

  datatype QueueStatus = QueueStatus(queueLength: nat, activeJobs: seq<Job>, processing: bool)

  /** The service. `queue` and `activeJobs` hold job ids, in queue order and
      in insertion order of the `activeJobs` Map; the job records live in
      `jobStatus`, so a change to a job is seen through all three. */
  class QueueService {
    var queue: seq<string>
    var processing: bool
    var activeJobs: seq<string>
    var jobStatus: map<string, Job>

    /** Between calls the `processing` flag is always down: `processQueue`
        raises and lowers it without yielding in between. */
    ghost predicate Valid()
      reads this
    {
      Consistent(queue, activeJobs, jobStatus) && !processing
    }

    constructor ()
      ensures Valid()
      ensures queue == [] && activeJobs == [] && jobStatus == map[]
    {
      queue := [];
      processing := false;
      activeJobs := [];
      jobStatus := map[];
    }

    /** `addBatch`: a new pending job, filed under the clock's reading as its
        id, joins the tail of the queue, after which admission runs. */
    method AddBatch(channelLinks: seq<string>, now: nat) returns (jobId: string, ghost admitted: nat)
      requires Valid()
      requires Strings.NatToString(now) !in jobStatus
      modifies this
      ensures Valid()
      ensures jobId == Strings.NatToString(now)
      ensures var registry := old(jobStatus)[jobId := NewJob(jobId, channelLinks, now)];
              var pending := old(queue) + [jobId];
              admitted <= |pending| && queue == pending[admitted..]
              && activeJobs == old(activeJobs) + WithChannels(pending[..admitted], registry)
              && jobStatus == StartAll(registry, pending[..admitted])
              && (admitted == |pending| || |activeJobs| == MaxConcurrent)
    {
      jobId := Strings.NatToString(now);
      queue := queue + [jobId];
      jobStatus := jobStatus[jobId := NewJob(jobId, channelLinks, now)];
      admitted := 0;
      if !processing {
        admitted := ProcessQueue();
      }
    }

    /** `processQueue`: admits jobs from the head of the queue, in order,
        while fewer than two are active. Each admitted job runs up to its
        first pause: it becomes processing with its first channel marked,
        or, having no channels, finishes on the spot and leaves its slot. */
    method ProcessQueue() returns (ghost admitted: nat)
      requires Valid()
      modifies this
      ensures Valid()
      ensures admitted <= |old(queue)| && queue == old(queue)[admitted..]
      ensures activeJobs == old(activeJobs) + WithChannels(old(queue)[..admitted], old(jobStatus))
      ensures jobStatus == StartAll(old(jobStatus), old(queue)[..admitted])
      ensures admitted == |old(queue)| || |activeJobs| == MaxConcurrent
    {
      admitted := 0;
      if processing || |queue| == 0 {
        return;
      }
      processing := true;
      ghost var q0, a0, r0 := queue, activeJobs, jobStatus;
      while |queue| > 0 && |activeJobs| < MaxConcurrent
        invariant processing
        invariant admitted <= |q0| && queue == q0[admitted..]
        invariant activeJobs == a0 + WithChannels(q0[..admitted], r0)
        invariant jobStatus == StartAll(r0, q0[..admitted])
        invariant |activeJobs| <= MaxConcurrent
        decreases |queue|
      {
        assert q0[admitted] == queue[0] && queue[0] in r0;
        AdmittedOneMore(q0, a0, r0, admitted);
        assert queue[1..] == q0[admitted + 1..];
        AdmitHead();
        admitted := admitted + 1;
      }
      AdmittedConsistent(q0, a0, r0, admitted);
      processing := false;
    }

    /** One round of the admission loop: the head of the queue is shifted
        off and started; a job with channels takes an active slot, one
        without has already finished. */
    method AdmitHead()
      requires |queue| > 0 && queue[0] in jobStatus
      modifies this`queue, this`jobStatus, this`activeJobs
      ensures var id := old(queue[0]);
              var job := Start(old(jobStatus[id]));
              queue == old(queue[1..]) && jobStatus == old(jobStatus)[id := job]
              && activeJobs == if job.total > 0 then old(activeJobs) + [id] else old(activeJobs)
    {
      var id := queue[0];
      var job := Start(jobStatus[id]);
      queue := queue[1..];
      jobStatus := jobStatus[id := job];
      if job.total > 0 {
        activeJobs := activeJobs + [id];
      }
    }

    /** `processJob` resumes after the analysis of its current channel has
        answered: the channel settles with the outcome, the job counts it,
        and the matching notification is emitted; then the pause begins. */
    method ChannelAnswered(jobId: string, outcome: Result<AnalysisOutcome, string>) returns (event: ChannelEvent)
      requires Valid()
      requires jobId in jobStatus && Awaiting(jobStatus[jobId])
      modifies this`jobStatus
      ensures Valid()
      ensures jobStatus == old(jobStatus)[jobId := Answer(old(jobStatus[jobId]), outcome)]
      ensures event == EventFor(jobId, old(jobStatus[jobId]).channels[old(jobStatus[jobId]).completed], outcome)
    {
      var job := jobStatus[jobId];
      event := EventFor(jobId, job.channels[job.completed], outcome);
      jobStatus := jobStatus[jobId := Answer(job, outcome)];
    }

    /** `processJob` resumes after its 500 ms pause: it marks the next
        channel processing, or, every channel handled, completes the job and
        frees its slot. Freeing a slot does not admit a queued job. */
    method PauseOver(jobId: string) returns (finished: bool)
      requires Valid()
      requires jobId in jobStatus && jobStatus[jobId].status == JobProcessing && !Awaiting(jobStatus[jobId])
      modifies this`jobStatus, this`activeJobs
      ensures Valid()
      ensures finished <==> old(jobStatus[jobId].completed) == old(jobStatus[jobId].total)
      ensures jobStatus == old(jobStatus)[jobId := Resume(old(jobStatus[jobId]))]
      ensures activeJobs == if finished then Without(old(activeJobs), jobId) else old(activeJobs)
    {
      var job := jobStatus[jobId];
      finished := job.completed == job.total;
      jobStatus := jobStatus[jobId := Resume(job)];
      if finished {
        activeJobs := Without(activeJobs, jobId);
      }
    }

    /** `processJob` from its first await to its end with nothing in
        between: channel `i` settles with `outcomes(i)`, a notification
        follows each channel and a 500 ms pause follows each notification;
        the job then completes and leaves the active set, and the queue
        stays as it is. */
    method ProcessJob(jobId: string, outcomes: nat -> Result<AnalysisOutcome, string>)
      returns (events: seq<ChannelEvent>, waited: nat)
      requires Valid()
      requires jobId in jobStatus && Awaiting(jobStatus[jobId]) && jobStatus[jobId].completed == 0
      modifies this`jobStatus, this`activeJobs
      ensures Valid()
      ensures jobStatus == old(jobStatus)[jobId := Finished(old(jobStatus[jobId]), outcomes)]
      ensures activeJobs == Without(old(activeJobs), jobId)
      ensures |events| == old(jobStatus[jobId].total)
      ensures forall i :: 0 <= i < |events| ==> events[i] == EventFor(jobId, old(jobStatus[jobId].channels[i]), outcomes(i))
      ensures waited == ChannelPacingMs * |events|
    {
      var job;
      job, events, waited := RunChannels(jobStatus[jobId], outcomes);
      jobStatus := jobStatus[jobId := job];
      activeJobs := Without(activeJobs, jobId);
      FinishedConsistent(queue, old(activeJobs), old(jobStatus), jobId, outcomes);
    }

    /** `getJobStatus`: the job registered under the id, if any. */
    function GetJobStatus(jobId: string): (r: Option<Job>)
      requires Valid()
      reads this
      ensures r.Some? <==> jobId in jobStatus
      ensures r.Some? ==> r.value == jobStatus[jobId] && r.value.id == jobId && JobValid(r.value)
    {
      if jobId in jobStatus then Some(jobStatus[jobId]) else None
    }

    /** `getActiveJobs`: the processing jobs, each once, in the order they
        were admitted. */
    function GetActiveJobs(): (jobs: seq<Job>)
      requires Valid()
      reads this
      ensures |jobs| == |activeJobs| <= MaxConcurrent
      ensures forall i :: 0 <= i < |jobs| ==> activeJobs[i] in jobStatus && jobs[i] == jobStatus[activeJobs[i]]
      ensures forall j :: j in jobs <==> j in jobStatus.Values && j.status == JobProcessing
      ensures forall a, b :: 0 <= a < b < |jobs| ==> jobs[a].id != jobs[b].id
    {
      var jobs := seq(|activeJobs|, i requires 0 <= i < |activeJobs| && activeJobs[i] in jobStatus reads this => jobStatus[activeJobs[i]]);
      ActiveJobsListed(jobs);
      jobs
    }

    lemma ActiveJobsListed(jobs: seq<Job>)
      requires Valid()
      requires |jobs| == |activeJobs| && forall i :: 0 <= i < |jobs| ==> jobs[i] == jobStatus[activeJobs[i]]
      ensures forall j :: j in jobs <==> j in jobStatus.Values && j.status == JobProcessing
      ensures forall a, b :: 0 <= a < b < |jobs| ==> jobs[a].id != jobs[b].id
    {
      forall j | j in jobStatus.Values && j.status == JobProcessing ensures j in jobs {
        var id :| id in jobStatus && jobStatus[id] == j;
        var i :| 0 <= i < |activeJobs| && activeJobs[i] == id;
        assert jobs[i] == j;
      }
    }

    /** `getQueueStatus`: the queue length, the active jobs, and the
        `processing` flag, which an observer always sees down. */
    function GetQueueStatus(): (r: QueueStatus)
      requires Valid()
      reads this
      ensures r.queueLength == |queue| && !r.processing
      ensures forall j :: j in r.activeJobs <==> j in jobStatus.Values && j.status == JobProcessing
    {
      QueueStatus(|queue|, GetActiveJobs(), processing)
    }

    /** `cancelJob`: only a registered pending job can be cancelled; it then
        leaves the queue and the registry, and nothing else changes. */
    method CancelJob(jobId: string) returns (cancelled: bool)
      requires Valid()
      modifies this`queue, this`jobStatus
      ensures Valid()
      ensures cancelled <==> jobId in old(jobStatus) && old(jobStatus[jobId].status) == JobPending
      ensures cancelled ==> queue == Without(old(queue), jobId) && jobStatus == old(jobStatus) - {jobId}
      ensures !cancelled ==> queue == old(queue) && jobStatus == old(jobStatus)
    {
      if jobId in jobStatus && jobStatus[jobId].status == JobPending {
        queue := Without(queue, jobId);
        jobStatus := jobStatus - {jobId};
        cancelled := true;
      } else {
        cancelled := false;
      }
    }

    /** `cleanupOldJobs` at time `now`: exactly the expired jobs leave the
        registry; queued and active jobs are never among them. */
    method CleanupOldJobs(now: int)
      requires Valid()
      modifies this`jobStatus
      ensures Valid()
      ensures forall id :: id in jobStatus <==> id in old(jobStatus) && !Expired(old(jobStatus[id]), now)
      ensures forall id :: id in jobStatus ==> jobStatus[id] == old(jobStatus[id])
    {
      var keys := jobStatus.Keys;
      while keys != {}
        invariant keys <= old(jobStatus).Keys
        invariant forall id :: id in jobStatus <==>
                    id in old(jobStatus) && (id in keys || !Expired(old(jobStatus[id]), now))
        invariant forall id :: id in jobStatus ==> jobStatus[id] == old(jobStatus[id])
        decreases keys
      {
        var id :| id in keys;
        var job := jobStatus[id];
        if job.status == JobCompleted && job.createdAt < now - JobRetentionMs {
          jobStatus := jobStatus - {id};
        }
        keys := keys - {id};
      }
    }
  }
}
