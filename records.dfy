/** The analysis records the queue worker and the single-analysis route
    build, store and hand back, and the one decision both of them make for
    a channel link. */
module Records {
  import opened Wrappers
  import Telegram

  /** A row of the `channel_analyses` table as the store hands it back. */
  type Row = string

  /** The record built for a freshly analysed channel; `createdAt` is the
      instant its ISO timestamp is taken from. */
  datatype AnalysisRecord = AnalysisRecord(
    channelName: string,
    channelLink: string,
    channelInfo: Telegram.Body,
    messages: Telegram.MessagesData,
    analysisResult: string,
    createdAt: int)

  /** The `data` of an outcome: a row from the store, or the unsaved record
      with an id taken from the clock. */
  datatype OutcomeData = StoredRow(row: Row) | UnsavedRecord(record: AnalysisRecord, id: int)

  /** A successful channel analysis. `cached` is absent on the unsaved path,
      `warning` everywhere else. */
  datatype AnalysisOutcome = AnalysisOutcome(
    success: bool,
    data: OutcomeData,
    cached: Option<bool>,
    warning: Option<string>)

  const NotSavedWarning := "Analysis completed but not saved to database"

  /** What the store, the Telegram client, the AI service and the insert
      answer for one analysis. Each is consulted only when the code reaches
      it: `lookup` by channel name, `fetch` for the pair of Telegram calls,
      `analyze` for the AI call, `save` for the insert. */
  datatype Services = Services(
    lookup: string -> Option<Row>,
    fetch: string -> Result<(Telegram.Body, Telegram.MessagesData), string>,
    analyze: (Telegram.Body, Telegram.MessagesData) -> Result<string, string>,
    save: AnalysisRecord -> Result<Row, string>)

  /** How far an analysis got: the link was refused, a stored row was found,
      the fetch failed, the AI call failed, or the record was built and the
      insert answered. */
  datatype Progress =
    | BadLink(message: string)
    | Found(row: Row)
    | FetchFailed(message: string)
    | AnalysisFailed(message: string)
    | Built(record: AnalysisRecord, saved: Result<Row, string>)

  /** The steps the worker and the route share, up to the insert. */
  function Analyze(link: string, env: Services, now: int): (p: Progress)
    ensures p.BadLink? <==> Telegram.ExtractChannelName(link).Err?
    ensures p.BadLink? ==> p.message == Telegram.InvalidLinkMessage
    ensures p.Found? <==> Telegram.ExtractChannelName(link).Ok?
                          && env.lookup(Telegram.ExtractChannelName(link).value).Some?
    ensures p.FetchFailed? <==> Telegram.ExtractChannelName(link).Ok?
                                && env.lookup(Telegram.ExtractChannelName(link).value).None?
                                && env.fetch(Telegram.ExtractChannelName(link).value).Err?
    ensures p.FetchFailed? ==> p.message == env.fetch(Telegram.ExtractChannelName(link).value).error
    ensures p.AnalysisFailed? <==> Telegram.ExtractChannelName(link).Ok?
                                   && env.lookup(Telegram.ExtractChannelName(link).value).None?
                                   && env.fetch(Telegram.ExtractChannelName(link).value).Ok?
                                   && env.analyze(env.fetch(Telegram.ExtractChannelName(link).value).value.0,
                                                  env.fetch(Telegram.ExtractChannelName(link).value).value.1).Err?
    ensures p.AnalysisFailed? ==>
              var fetched := env.fetch(Telegram.ExtractChannelName(link).value).value;
              p.message == env.analyze(fetched.0, fetched.1).error
    ensures p.Built? ==>
              var name := Telegram.ExtractChannelName(link).value;
              var fetched := env.fetch(name).value;
              p.record == AnalysisRecord(name, link, fetched.0, fetched.1, env.analyze(fetched.0, fetched.1).value, now)
              && p.saved == env.save(p.record)
  {
    match Telegram.ExtractChannelName(link)
    case Err(m) => BadLink(m)
    case Ok(name) =>
      match env.lookup(name)
      case Some(row) => Found(row)
      case None =>
        match env.fetch(name)
        case Err(m) => FetchFailed(m)
        case Ok(pair) =>
          match env.analyze(pair.0, pair.1)
          case Err(m) => AnalysisFailed(m)
          case Ok(analysis) =>
            var record := AnalysisRecord(name, link, pair.0, pair.1, analysis, now);
            Built(record, env.save(record))
  }

  /** A stored analysis short-circuits: what Telegram, the AI service or the
      insert would have answered makes no difference. */
  lemma StoredRowNeedsNoFetch(link: string, env: Services, other: Services, now: int)
    requires Telegram.ExtractChannelName(link).Ok?
    requires env.lookup == other.lookup
    requires env.lookup(Telegram.ExtractChannelName(link).value).Some?
    ensures Analyze(link, env, now) == Analyze(link, other, now)
    ensures Analyze(link, env, now) == Found(env.lookup(Telegram.ExtractChannelName(link).value).value)
  {
  }
}
