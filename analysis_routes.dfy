/** The single-channel analysis routes: the answer `POST /analysis/analyze`
    gives for each way an analysis can end, the lookup of one stored
    analysis, and the page arithmetic of the listing. */
module AnalysisRoutes {
  import opened Wrappers
  import Strings
  import JsMath
  import Telegram
  import opened Records
  import Queue

  const MinLinkLength: nat := 3
  const MaxLinkLength: nat := 200
  const RetryAfterSeconds: nat := 60
  const DefaultPage: int := 1
  const DefaultLimit: int := 10

  /** The phrase the route looks for to tell a refused link from other failures. */
  const InvalidLinkPhrase := "Invalid Telegram channel link"

  /** The range of rows asked of the store, both ends included. */
  datatype RowRange = RowRange(from: int, to: int)

  /** `pages` is `null` in the JSON when the quotient is not finite. */
  datatype Pagination = Pagination(page: int, limit: int, total: nat, pages: Option<int>)

  datatype ResponseBody =
    | InvalidRequest                        // the schema's own message, not modelled
    | Analysis(outcome: AnalysisOutcome)    // { success, data, cached | warning }
    | RateLimited(retryAfter: nat)
    | ServiceUnavailable
    | InvalidChannelLink
    | AnalysisError(message: string)
    | AnalysisNotFound
    | StoredAnalysis(row: Row)
    | AnalysisPage(rows: seq<Row>, pagination: Pagination)
    | ListError(message: string)

  datatype Response = Response(status: nat, body: ResponseBody)

  // ---------------------------------------------------------------------
  // POST /analyze
  // ---------------------------------------------------------------------

  /** The schema of `{ channelLink }`: a string of 3 to 200 characters. */
  predicate ValidRequest(channelLink: Option<string>) {
    channelLink.Some? && MinLinkLength <= |channelLink.value| <= MaxLinkLength
  }

  /** The answer to one analysis request. Every step up to the insert is the
      one the batch worker takes; what differs is how each end is reported. */
  function AnalyzeResponse(channelLink: Option<string>, env: Services, now: int): (r: Response)
    ensures !ValidRequest(channelLink) ==> r == Response(400, InvalidRequest)
    ensures ValidRequest(channelLink) ==>
              var p := Analyze(channelLink.value, env, now);
              (r.status == 429 <==> p.FetchFailed? && Telegram.MentionsRateLimit(p.message))
              && (r.status == 502 <==> p.FetchFailed? && !Telegram.MentionsRateLimit(p.message))
              && (r.status == 500 <==> p.AnalysisFailed? && !Strings.Includes(p.message, InvalidLinkPhrase))
              && (r.status == 400 <==>
                    p.BadLink? || (p.AnalysisFailed? && Strings.Includes(p.message, InvalidLinkPhrase)))
    ensures r.status == 429 ==> r.body == RateLimited(RetryAfterSeconds)
    ensures r.status == 500 ==>
              ValidRequest(channelLink) && r.body == AnalysisError(Analyze(channelLink.value, env, now).message)
    ensures r.status in {200, 400, 429, 500, 502}
  {
    if !ValidRequest(channelLink) then Response(400, InvalidRequest)
    else
      match Analyze(channelLink.value, env, now)
      case BadLink(_) =>
        // the parser's message always carries the phrase the handler tests
        // for (BadLinkMentionsPhrase)
        Response(400, InvalidChannelLink)
      case Found(row) => Response(200, Analysis(AnalysisOutcome(true, StoredRow(row), Some(true), None)))
      case FetchFailed(m) =>
        if Telegram.MentionsRateLimit(m) then Response(429, RateLimited(RetryAfterSeconds))
        else Response(502, ServiceUnavailable)
      case AnalysisFailed(m) =>
        if Strings.Includes(m, InvalidLinkPhrase) then Response(400, InvalidChannelLink)
        else Response(500, AnalysisError(m))
      case Built(record, saved) =>
        match saved
        case Err(_) => Response(200, Analysis(AnalysisOutcome(true, UnsavedRecord(record, now), None, Some(NotSavedWarning))))
        case Ok(row) => Response(200, Analysis(AnalysisOutcome(true, StoredRow(row), Some(false), None)))
  }

  /** The parser's error message carries the phrase the route tests for. */
  lemma BadLinkMentionsPhrase()
    ensures Strings.Includes(Telegram.InvalidLinkMessage, InvalidLinkPhrase)
  {
    var m := Telegram.InvalidLinkMessage;
    assert forall k :: 0 <= k < |InvalidLinkPhrase| ==> m[k] == InvalidLinkPhrase[k];
    assert m[0..|InvalidLinkPhrase|] == InvalidLinkPhrase;
    assert Strings.OccursAt(m, InvalidLinkPhrase, 0);
    Strings.IncludesIff(m, InvalidLinkPhrase);
  }

  /** The route answers 200 exactly when the batch worker would record the
      channel as completed, and with the very outcome the worker records. */
  lemma RouteAgreesWithWorker(channelLink: string, env: Services, now: int)
    requires MinLinkLength <= |channelLink| <= MaxLinkLength
    ensures var r := AnalyzeResponse(Some(channelLink), env, now);
            var w := Queue.ProcessSingleChannel(channelLink, env, now);
            (r.status == 200 <==> w.Ok?)
            && (w.Ok? ==> r.body == Analysis(w.value))
            && (r.status == 429 ==> w == Err(Queue.RateLimitedMessage))
            && (r.status == 500 ==> w == Err(r.body.message))
  {
  }

  /** A stored analysis is answered as cached, whatever Telegram would say. */
  lemma StoredAnalysisIsCached(channelLink: string, env: Services, now: int)
    requires MinLinkLength <= |channelLink| <= MaxLinkLength
    requires Telegram.ExtractChannelName(channelLink).Ok?
    requires env.lookup(Telegram.ExtractChannelName(channelLink).value).Some?
    ensures var r := AnalyzeResponse(Some(channelLink), env, now);
            r.status == 200 && r.body.outcome.cached == Some(true) && r.body.outcome.warning.None?
            && r.body.outcome.data == StoredRow(env.lookup(Telegram.ExtractChannelName(channelLink).value).value)
  {
  }

  /** A link the parser refuses is answered 400, never 500. */
  lemma BadLinkIsClientError(channelLink: string, env: Services, now: int)
    requires MinLinkLength <= |channelLink| <= MaxLinkLength
    requires Telegram.ExtractChannelName(channelLink).Err?
    ensures AnalyzeResponse(Some(channelLink), env, now) == Response(400, InvalidChannelLink)
  {
  }

  /** A failed Telegram fetch is answered 429 with `retryAfter: 60` when its
      message is about rate limiting, and 502 otherwise. */
  lemma FetchErrorStatus(channelLink: string, env: Services, now: int)
    requires MinLinkLength <= |channelLink| <= MaxLinkLength
    requires Telegram.ExtractChannelName(channelLink).Ok?
    requires env.lookup(Telegram.ExtractChannelName(channelLink).value).None?
    requires env.fetch(Telegram.ExtractChannelName(channelLink).value).Err?
    ensures var m := env.fetch(Telegram.ExtractChannelName(channelLink).value).error;
            AnalyzeResponse(Some(channelLink), env, now)
            == if Telegram.MentionsRateLimit(m) then Response(429, RateLimited(RetryAfterSeconds))
               else Response(502, ServiceUnavailable)
  {
  }

  /** A failed insert still answers with the analysis and a warning, and
      without `cached`. */
  lemma UnsavedAnalysisWarns(channelLink: string, env: Services, now: int)
    requires MinLinkLength <= |channelLink| <= MaxLinkLength
    requires Analyze(channelLink, env, now).Built? && Analyze(channelLink, env, now).saved.Err?
    ensures var r := AnalyzeResponse(Some(channelLink), env, now);
            r.status == 200 && r.body.outcome.success && r.body.outcome.warning == Some(NotSavedWarning)
            && r.body.outcome.cached.None?
            && r.body.outcome.data == UnsavedRecord(Analyze(channelLink, env, now).record, now)
  {
  }

  // ---------------------------------------------------------------------
  // GET /:id
  // ---------------------------------------------------------------------

  /** `lookup` is what the store answers for the id: a row, or nothing
      (no row, or an error). */
  function AnalysisByIdResponse(lookup: Option<Row>): (r: Response)
    ensures r.status == 404 <==> lookup.None?
    ensures lookup.Some? ==> r == Response(200, StoredAnalysis(lookup.value))
  {
    match lookup
    case None => Response(404, AnalysisNotFound)
    case Some(row) => Response(200, StoredAnalysis(row))
  }

  // ---------------------------------------------------------------------
  // GET / — pagination
  // ---------------------------------------------------------------------

  function Offset(page: int, limit: int): int {
    (page - 1) * limit
  }

  /** The rows of page `page` with `limit` rows a page, on numbers. */
  function PageRange(page: int, limit: int): (r: RowRange)
    ensures r.to - r.from + 1 == limit
    ensures r.from == Offset(page, limit)
  {
    RowRange(Offset(page, limit), Offset(page, limit) + limit - 1)
  }

  /** `Math.ceil(count / limit)`; `None` when the quotient is infinite or
      `NaN`, which the JSON reply writes as `null`. */
  function PageCount(count: nat, limit: int): (r: Option<int>)
    ensures r.None? <==> limit == 0
    ensures limit > 0 ==> r.Some? && r.value >= 0 && (r.value - 1) * limit < count <= r.value * limit
  {
    if limit == 0 then None
    else
      var pages := JsMath.CeilDiv(count, limit);
      PageCountNonNegative(count, limit, pages);
      Some(pages)
  }

  lemma PageCountNonNegative(count: nat, limit: int, pages: int)
    requires limit != 0 && pages == JsMath.CeilDiv(count, limit)
    ensures limit > 0 ==> pages >= 0
  {
    if limit > 0 {
      JsMath.MulMono(-1, pages - 1, limit);
    }
  }

  /** Consecutive pages meet without a gap or an overlap. */
  lemma PagesTile(page: int, limit: int)
    ensures PageRange(page + 1, limit).from == PageRange(page, limit).to + 1
  {
  }

  /** With the default page size, page `p` holds rows `10(p-1)` to `10p - 1`. */
  lemma DefaultPageRange(page: int)
    ensures PageRange(page, DefaultLimit) == RowRange(10 * page - 10, 10 * page - 1)
  {
  }

  /** The last page is the first one whose range reaches past the final row:
      every row lies on some page up to `pages`, and no page beyond it has a
      row. */
  lemma PageCountCoversRows(count: nat, limit: int)
    requires limit > 0 && count > 0
    ensures var n := PageCount(count, limit).value;
            n >= 1 && PageRange(n, limit).from < count <= PageRange(n, limit).to + 1
  {
    var n := PageCount(count, limit).value;
    assert (n - 1) * limit < count <= n * limit;
  }

  /** The filter applied: only a non-empty `rating` narrows the listing. */
  function RatingFilter(rating: Option<string>): (f: Option<string>)
    ensures f.Some? <==> rating.Some? && rating.value != ""
    ensures f.Some? ==> f == rating
  {
    if rating.Some? && rating.value != "" then rating else None
  }

  /** `GET /`: the store is asked for the page's range, newest first,
      filtered by rating when one is given, and answers the rows and the
      exact count, or an error. */
  function ListResponse(page: int, limit: int, rating: Option<string>,
                        store: (RowRange, Option<string>) -> Result<(seq<Row>, nat), string>): (r: Response)
    ensures store(PageRange(page, limit), RatingFilter(rating)).Err? <==> r.status == 500
    ensures r.status == 500 ==> r.body == ListError(store(PageRange(page, limit), RatingFilter(rating)).error)
    ensures r.status != 500 ==>
              var answer := store(PageRange(page, limit), RatingFilter(rating)).value;
              r.status == 200 && r.body.AnalysisPage? && r.body.rows == answer.0
              && r.body.pagination == Pagination(page, limit, answer.1, PageCount(answer.1, limit))
  {
    match store(PageRange(page, limit), RatingFilter(rating))
    case Err(m) => Response(500, ListError(m))
    case Ok(answer) => Response(200, AnalysisPage(answer.0, Pagination(page, limit, answer.1, PageCount(answer.1, limit))))
  }

  /** A request without query parameters asks for the newest ten rows. */
  lemma DefaultListingAsksFirstTen(store: (RowRange, Option<string>) -> Result<(seq<Row>, nat), string>)
    requires store(RowRange(0, 9), None).Ok?
    ensures var r := ListResponse(DefaultPage, DefaultLimit, None, store);
            r.status == 200 && r.body.rows == store(RowRange(0, 9), None).value.0
            && r.body.pagination.page == 1 && r.body.pagination.limit == 10
  {
  }
}
