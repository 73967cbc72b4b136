/** The batch routes: the request schema for starting a batch, the `Set`
    de-duplication of its links, and the mapping of the queue's answers to
    HTTP statuses. */
module BatchRoutes {
  import opened Wrappers
  import Strings
  import Seqs
  import Queue

  const MinLinks: nat := 1
  const MaxLinks: nat := 20
  const MinLinkLength: nat := 3
  const MaxLinkLength: nat := 200

  const TooFewMessage := "At least one channel link is required"
  const TooManyMessage := "Maximum 20 channels allowed per batch"

  // ---------------------------------------------------------------------
  // Validation
  // ---------------------------------------------------------------------

  /** The first rule of the schema a request breaks, in the order the
      validator checks them: presence, then each item's length, then the
      array bounds. */
  datatype Violation =
    | LinksMissing
    | LinkTooShort(index: nat)
    | LinkTooLong(index: nat)
    | TooFewLinks
    | TooManyLinks

  /** The `details` text for the violations whose message the schema sets;
      the others carry the validator's own wording, which is not modelled. */
  function CustomDetails(v: Violation): Option<string> {
    match v
    case TooFewLinks => Some(TooFewMessage)
    case TooManyLinks => Some(TooManyMessage)
    case _ => None
  }

  predicate LinkLengthOk(link: string) {
    MinLinkLength <= |link| <= MaxLinkLength
  }

  /** The first item, from `from` on, whose length is out of bounds. */
  function FirstBadItem(links: seq<string>, from: nat): (r: Option<Violation>)
    ensures r.None? <==> forall i :: from <= i < |links| ==> LinkLengthOk(links[i])
    ensures r.Some? ==> r.value.LinkTooShort? || r.value.LinkTooLong?
    ensures r.Some? ==> var i := r.value.index;
              from <= i < |links| && !LinkLengthOk(links[i])
              && (r.value.LinkTooShort? <==> |links[i]| < MinLinkLength)
              && forall k :: from <= k < i ==> LinkLengthOk(links[k])
    decreases |links| - from
  {
    if from >= |links| then None
    else if |links[from]| < MinLinkLength then Some(LinkTooShort(from))
    else if |links[from]| > MaxLinkLength then Some(LinkTooLong(from))
    else FirstBadItem(links, from + 1)
  }

  /** The schema check of `{ channelLinks }`: the links as given, or the
      first violation. */
  function ValidateBatch(channelLinks: Option<seq<string>>): (r: Result<seq<string>, Violation>)
    ensures r.Ok? <==> channelLinks.Some? && MinLinks <= |channelLinks.value| <= MaxLinks
                       && forall i :: 0 <= i < |channelLinks.value| ==> LinkLengthOk(channelLinks.value[i])
    ensures r.Ok? ==> r.value == channelLinks.value
    ensures r == Err(LinksMissing) <==> channelLinks.None?
    ensures r.Err? && (r.error.LinkTooShort? || r.error.LinkTooLong?) ==>
              r.error.index < |channelLinks.value| && !LinkLengthOk(channelLinks.value[r.error.index])
    ensures r == Err(TooFewLinks) <==> channelLinks == Some([])
    ensures channelLinks.Some? && FirstBadItem(channelLinks.value, 0).Some? ==>
              r == Err(FirstBadItem(channelLinks.value, 0).value)
    ensures r == Err(TooManyLinks) <==>
              channelLinks.Some? && |channelLinks.value| > MaxLinks
              && forall i :: 0 <= i < |channelLinks.value| ==> LinkLengthOk(channelLinks.value[i])
  {
    match channelLinks
    case None => Err(LinksMissing)
    case Some(links) =>
      match FirstBadItem(links, 0)
      case Some(v) => Err(v)
      case None =>
        if |links| < MinLinks then Err(TooFewLinks)
        else if |links| > MaxLinks then Err(TooManyLinks)
        else Ok(links)
  }

  /** Twenty-one well-formed links are refused for their number. */
  lemma TwentyOneLinksRefused(links: seq<string>)
    requires |links| == 21 && forall i :: 0 <= i < 21 ==> links[i] == "@abc"
    ensures ValidateBatch(Some(links)) == Err(TooManyLinks)
    ensures CustomDetails(ValidateBatch(Some(links)).error) == Some(TooManyMessage)
  {
    assert FirstBadItem(links, 0).None?;
  }

  // ---------------------------------------------------------------------
  // De-duplication: `[...new Set(channelLinks)]`
  // ---------------------------------------------------------------------

  /** `set.add(x)` on a JavaScript `Set`, which keeps insertion order. */
  function SetAdd(added: seq<string>, x: string): seq<string> {
    if x in added then added else added + [x]
  }

  /** The set built by adding `xs` one by one to `added`, spread back out:
      the last element is added to the set built from the others. */
  function AddAll(added: seq<string>, xs: seq<string>): seq<string>
    decreases |xs|
  {
    if xs == [] then added else SetAdd(AddAll(added, xs[..|xs| - 1]), xs[|xs| - 1])
  }

  function UniqueLinks(channelLinks: seq<string>): seq<string> {
    AddAll([], channelLinks)
  }

  /** Adding the links one by one to an empty set keeps each at its first
      occurrence. */
  lemma {:induction false} AddAllIsFirstOccurrences(xs: seq<string>)
    ensures AddAll([], xs) == Seqs.FirstOccurrences(xs)
  {
    if xs != [] {
      AddAllIsFirstOccurrences(xs[..|xs| - 1]);
    }
  }

  /** The links handed to the queue: each distinct input link once, at its
      first occurrence, in input order. */
  lemma UniqueLinksAreFirstOccurrences(channelLinks: seq<string>)
    ensures UniqueLinks(channelLinks) == Seqs.FirstOccurrences(channelLinks)
    ensures Seqs.NoDuplicates(UniqueLinks(channelLinks))
    ensures forall x :: x in UniqueLinks(channelLinks) <==> x in channelLinks
    ensures |UniqueLinks(channelLinks)| <= |channelLinks|
  {
    AddAllIsFirstOccurrences(channelLinks);
  }

  /** Links without repeats reach the queue unchanged. */
  lemma DistinctLinksKept(channelLinks: seq<string>)
    requires Seqs.NoDuplicates(channelLinks)
    ensures UniqueLinks(channelLinks) == channelLinks
  {
    UniqueLinksAreFirstOccurrences(channelLinks);
    Seqs.FirstOccurrencesOfDistinct(channelLinks);
  }

  // ---------------------------------------------------------------------
  // Responses
  // ---------------------------------------------------------------------

  datatype ResponseBody =
    | ValidationError(violation: Violation)
    | BatchStarted(jobId: string, message: string, totalChannels: nat)
    | JobNotFound
    | JobFound(job: Queue.Job)
    | QueueStatusBody(status: Queue.QueueStatus)
    | CannotCancel
    | JobCancelled
    | ActiveJobsBody(activeJobs: seq<Queue.Job>, count: nat)

  datatype Response = Response(status: nat, body: ResponseBody)

  function StartedMessage(count: nat): string {
    "Batch analysis started for " + Strings.NatToString(count) + " channels"
  }

  /** `POST /batch/analyze`: a request the schema refuses is answered 400
      and queues nothing; otherwise the distinct links are queued as one
      job, one trimmed channel per link, and its id and size echoed back.
      `admitted` is the number of queued jobs `addBatch` then started. */
  method AnalyzeBatch(service: Queue.QueueService, channelLinks: Option<seq<string>>, now: nat)
    returns (response: Response, ghost admitted: nat)
    requires service.Valid()
    requires Strings.NatToString(now) !in service.jobStatus
    modifies service
    ensures service.Valid()
    ensures response.status == 400 <==> ValidateBatch(channelLinks).Err?
    ensures response.status == 400 ==>
              response.body == ValidationError(ValidateBatch(channelLinks).error)
              && service.queue == old(service.queue) && service.activeJobs == old(service.activeJobs)
              && service.jobStatus == old(service.jobStatus)
    ensures response.status != 400 ==>
              var unique := Seqs.FirstOccurrences(channelLinks.value);
              var jobId := Strings.NatToString(now);
              response == Response(200, BatchStarted(jobId, StartedMessage(|unique|), |unique|))
              && jobId in service.jobStatus && service.jobStatus[jobId].total == |unique|
              && |service.jobStatus[jobId].channels| == |unique|
              && (forall i :: 0 <= i < |unique| ==> service.jobStatus[jobId].channels[i].link == Strings.Trim(unique[i]))
              && |unique| <= |channelLinks.value| <= MaxLinks
    ensures response.status != 400 ==>
              var jobId := Strings.NatToString(now);
              var registry := old(service.jobStatus)[jobId := Queue.NewJob(jobId, Seqs.FirstOccurrences(channelLinks.value), now)];
              var pending := old(service.queue) + [jobId];
              admitted <= |pending| && service.queue == pending[admitted..]
              && service.activeJobs == old(service.activeJobs) + Queue.WithChannels(pending[..admitted], registry)
              && service.jobStatus == Queue.StartAll(registry, pending[..admitted])
  {
    admitted := 0;
    match ValidateBatch(channelLinks)
    case Err(v) =>
      response := Response(400, ValidationError(v));
    case Ok(links) =>
      var unique := UniqueLinks(links);
      UniqueLinksAreFirstOccurrences(links);
      var jobId;
      jobId, admitted := service.AddBatch(unique, now);
      Queue.StartAllKeepsTotals(old(service.jobStatus)[jobId := Queue.NewJob(jobId, unique, now)],
                                (old(service.queue) + [jobId])[..admitted], jobId);
      response := Response(200, BatchStarted(jobId, StartedMessage(|unique|), |unique|));
  }

  /** `GET /batch/status/:jobId`: 404 exactly when no job is registered
      under the id. */
  function JobStatusResponse(service: Queue.QueueService, jobId: string): (r: Response)
    requires service.Valid()
    reads service
    ensures r.status == 404 <==> jobId !in service.jobStatus
    ensures r.status != 404 ==> r.status == 200 && r.body.JobFound? && r.body.job == service.jobStatus[jobId]
                                && r.body.job.id == jobId && Queue.JobValid(r.body.job)
  {
    match service.GetJobStatus(jobId)
    case None => Response(404, JobNotFound)
    case Some(job) => Response(200, JobFound(job))
  }

  /** `GET /batch/queue-status`: the queue length, the processing jobs in
      admission order, and the flag. */
  function QueueStatusResponse(service: Queue.QueueService): (r: Response)
    requires service.Valid()
    reads service
    ensures r.status == 200 && r.body.QueueStatusBody?
    ensures r.body.status.queueLength == |service.queue| && !r.body.status.processing
    ensures |r.body.status.activeJobs| <= Queue.MaxConcurrent
    ensures forall j :: j in r.body.status.activeJobs <==> j in service.jobStatus.Values && j.status == Queue.JobProcessing
    ensures |r.body.status.activeJobs| == |service.activeJobs|
    ensures forall i :: 0 <= i < |r.body.status.activeJobs| ==>
              service.activeJobs[i] in service.jobStatus && r.body.status.activeJobs[i] == service.jobStatus[service.activeJobs[i]]
  {
    Response(200, QueueStatusBody(service.GetQueueStatus()))
  }

  /** `POST /batch/cancel/:jobId`: 400 when the queue refuses, 200 when the
      job was cancelled. */
  method CancelBatch(service: Queue.QueueService, jobId: string) returns (response: Response)
    requires service.Valid()
    modifies service`queue, service`jobStatus
    ensures service.Valid()
    ensures response.status == 200 <==>
              jobId in old(service.jobStatus) && old(service.jobStatus[jobId].status) == Queue.JobPending
    ensures response.status == 200 ==>
              response.body == JobCancelled && jobId !in service.jobStatus
              && service.queue == Queue.Without(old(service.queue), jobId)
              && service.jobStatus == old(service.jobStatus) - {jobId}
    ensures response.status != 200 ==>
              response == Response(400, CannotCancel)
              && service.queue == old(service.queue) && service.jobStatus == old(service.jobStatus)
  {
    var cancelled := service.CancelJob(jobId);
    if !cancelled {
      response := Response(400, CannotCancel);
    } else {
      response := Response(200, JobCancelled);
    }
  }

  /** `GET /batch/active`: the processing jobs in admission order and their
      number, at most two. */
  function ActiveJobsResponse(service: Queue.QueueService): (r: Response)
    requires service.Valid()
    reads service
    ensures r.status == 200 && r.body.ActiveJobsBody?
    ensures r.body.count == |r.body.activeJobs| <= Queue.MaxConcurrent
    ensures forall j :: j in r.body.activeJobs <==> j in service.jobStatus.Values && j.status == Queue.JobProcessing
    ensures |r.body.activeJobs| == |service.activeJobs|
    ensures forall i :: 0 <= i < |r.body.activeJobs| ==>
              service.activeJobs[i] in service.jobStatus && r.body.activeJobs[i] == service.jobStatus[service.activeJobs[i]]
  {
    var jobs := service.GetActiveJobs();
    Response(200, ActiveJobsBody(jobs, |jobs|))
  }
}
