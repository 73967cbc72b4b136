# mediaDashboard core, modelled in Dafny

mediaDashboard analyses Telegram channels for scam risk. A user gives a
channel link, or a batch of up to twenty links. The backend then:

- extracts the channel name;
- looks for a stored analysis;
- otherwise fetches the channel's metadata and recent messages through a
  rate-limited Telegram client (a request-spacing gate, a TTL cache, and
  retry with exponential backoff on HTTP 429);
- asks an AI service for a verdict;
- stores the result.

Batches run through an in-memory job queue: a FIFO of pending jobs, at most
two active jobs, and a registry of every job by id. Reports aggregate the
stored analyses into dashboard statistics and a CSV export. The browser form
splits a textarea into de-duplicated links before it submits them.

This project models that core. Each source file has its own module:

| Module | Models |
|---|---|
| `Queue` | `queueService.js` |
| `Telegram` | `telegramService.js` |
| `RateLimit` | `rateLimit.js` |
| `Ai` | `aiService.js` |
| `BatchRoutes` | `routes/batch.js` |
| `AnalysisRoutes` | `routes/analysis.js` |
| `Reports` | `routes/reports.js` |
| `BatchAnalyze` | `BatchAnalyze.jsx` |

Shared modules:

- `Records`: the analysis records, and the decision the worker and the route share.
- `Strings`: the JavaScript string operations the code uses (`trim`, `includes`, `indexOf`, `lastIndexOf`, `substring`, `split`, `join`, `parseInt`, number formatting).
- `Seqs`: first-occurrence de-duplication as a reference definition.
- `JsMath`: `NaN`, `Math.round` and `Math.ceil` on quotients.
- `Wrappers`: `Option` and `Result`.

What the model keeps of the source's form:

- **State that the source mutates lives in classes.**
  - `Queue.QueueService` holds `queue`, `processing`, `activeJobs` and `jobStatus`.
  - `Telegram.TelegramService` holds `cache` and `lastRequestTime`.
- **Job identity.** A job's record lives in the registry `jobStatus: map<string, Job>`. `queue` and `activeJobs` hold job ids, so a change made to a job is seen through all three structures, as with the shared object in the source.
- **Loops stay methods with loop invariants.** These are:
  - `ProcessQueue`'s admission loop;
  - `processJob`'s channel loop (`RunChannels`);
  - `cleanupOldJobs`;
  - `generateMockMessages`;
  - the `/stats` `forEach`.
- **Reference functions.** Each of these loops is proved against a function on values (`StartAll`, `Finished`, `MockMessages`, `Tally`, ...), and the lemmas state the source's promises about those functions.
- **Injected clock.** Time is a clock in milliseconds, passed as a parameter.
- **Oracles.** Every foreign call is a parameter the caller supplies:
  - the HTTP reply to each attempt;
  - the store's lookup and insert;
  - the AI reply;
  - the random draws.

Two behaviours of the queue that the model reproduces:

- **Admission when a job finishes.** A finishing job frees its slot (backend/services/queueService.js:96-99) but admits no waiting job, because `processQueue` is called only from `addBatch` (37-39). `Queue.QueueService.PauseOver` and `Queue.QueueService.ProcessJob` leave `queue` unchanged.
- **When a job counts as completed.** A pending job with no channels has `completed == total == 0` but is not completed, so `Queue.JobValid` states only that a completed job has `completed == total`.

A JavaScript behaviour the model reproduces: `substring` swaps its arguments when the start is past the end. So `cleanJsonResponse` on text whose last `}` precedes its first `{` returns the text between them (`Ai.CutToBracesSwapped`).

## Model

| member | source | states |
|---|---|---|
| Queue.ProcessSingleChannel | backend/services/queueService.js:103-169 | Each ending of a single-channel analysis has its own answer. A refused link fails with the parser's message, and a failed AI call with its own message (136). A stored analysis is returned as `cached: true` without any fetch. A fetch error that mentions `429` or `rate limit` becomes `Rate Limited: Please try again later`, and any other fetch error passes through. A failed insert still succeeds, with the warning and no `cached`. A saved record succeeds with `cached: false`. The call succeeds exactly when a row was found or a record was built. |
| Queue.NewTasks | backend/services/queueService.js:21-26 | One task per link, each with the trimmed link, `pending`, and no result or error. |
| Queue.Settle | backend/services/queueService.js:76-77 | A settled task keeps its link. It is completed with the result exactly when the outcome is a success, and otherwise failed with the error message (84-85). A waiting task becomes settled. |
| Queue.NewJob | backend/services/queueService.js:18-31 | The new job is well formed and pending, with the given id and time, `total` equal to the number of links, `completed == 0`, and one trimmed task per link. |
| Queue.Start | backend/services/queueService.js:63-70 | Starting a pending job marks it processing and marks its first channel processing. A job without channels goes straight to completed (96). Id, time, totals, every channel's link and the other channels are unchanged. Well-formedness is kept. |
| Queue.Answer | backend/services/queueService.js:74-90 | The channel in progress settles with its outcome and `completed` rises by exactly one. Every other channel, and the id, time, total and status, are unchanged. |
| Queue.Resume | backend/services/queueService.js:66-70 | After the pause, the next channel is marked processing. Once every channel is handled, the job becomes completed (96). |
| Queue.FinishedIsComplete | backend/services/queueService.js:66-99 | A started job run to its end is well formed and completed, with `completed == total`. Every channel is settled, keeps its link, and is completed exactly when its outcome succeeded. |
| Queue.RoundAdvances | backend/services/queueService.js:66-94 | One loop round (the answer, then the resume) moves the run forward by exactly one channel, in index order. |
| Queue.RanToEnd | backend/services/queueService.js:94-96 | A run that has handled every channel is the finished job. |
| Queue.RunChannels | backend/services/queueService.js:66-99 | The channel loop settles channel `i` with outcome `i`, in index order. It emits one notification per channel (81 and 89). It waits 500 ms per channel (93). The result is the finished job. |
| Queue.WithChannels | backend/services/queueService.js:50-56 | The admitted jobs that keep an active slot are exactly the admitted ids whose job has channels, without repeats. |
| Queue.StartAll | backend/services/queueService.js:50-56 | Starting admitted jobs never adds or removes a registry key. |
| Queue.StartAllEffect | backend/services/queueService.js:50-56 | Admitting a run of distinct jobs starts each of them once and leaves every other job as it was. |
| Queue.StartAllKeepsTotals | backend/services/queueService.js:50-56 | Admission never changes a job's id, its `total`, or the link of any of its channels. |
| Queue.AdmittedOneMore | backend/services/queueService.js:50-56 | Admitting the next queued job starts it. It takes an active slot exactly when it has channels. |
| Queue.Without | backend/services/queueService.js:194 | `filter(j => j.id !== jobId)` keeps exactly the other ids, never lengthens the list, and keeps the ids distinct. |
| Queue.WithoutRemovesOne | backend/services/queueService.js:97 | In a list without repeats, removing an id that occurs takes out exactly that entry. |
| Queue.WithoutAbsent | backend/services/queueService.js:194 | Removing an id that does not occur changes nothing. |
| Queue.AdmittedConsistent | backend/services/queueService.js:45-59 | Admission keeps the service consistent: every job is filed under its own id and well formed, the queue holds exactly the pending jobs, the active set holds exactly the processing ones, and at most two jobs are active. |
| Queue.FinishedConsistent | backend/services/queueService.js:96-99 | A job running to its end keeps the service consistent. The job leaves the active set and stays registered. |
| Queue.QueueService.constructor | backend/services/queueService.js:7-14 | The service starts with an empty queue, no active jobs and an empty registry, and is consistent. |
| Queue.QueueService.AddBatch | backend/services/queueService.js:17-42 | The new job is filed under the clock's reading and appended to the tail of the queue, and then admission runs. No other job changes except by admission. Afterwards the queue is empty or two jobs are active. |
| Queue.QueueService.ProcessQueue | backend/services/queueService.js:45-59 | Jobs are admitted strictly FIFO from the queue head, only while fewer than two are active. Afterwards either the whole queue was admitted or two jobs are active. At most two are ever active, and the `processing` flag ends down. |
| Queue.QueueService.AdmitHead | backend/services/queueService.js:51-55 | One round of admission: the head is shifted off and started, and it takes an active slot when it has channels. |
| Queue.QueueService.ChannelAnswered | backend/services/queueService.js:74-90 | When a channel's analysis answers, the channel settles, the job counts it, and the matching `channelComplete` or `channelError` notification is returned. Consistency is kept. |
| Queue.QueueService.PauseOver | backend/services/queueService.js:92-99 | After the pause, the next channel is marked processing. With every channel handled, the job completes and frees its active slot. The queue is untouched, so no waiting job is admitted. |
| Queue.QueueService.ProcessJob | backend/services/queueService.js:62-100 | The whole run of a job leaves it completed with every channel settled in order. It leaves the active set, stays in the registry, and leaves the queue unchanged. There is one notification and one 500 ms pause per channel. |
| Queue.QueueService.GetJobStatus | backend/services/queueService.js:172-174 | A job is found exactly when one is registered under the id. It is the registered job itself, so a client follows its progress. It carries that id and is well formed. |
| Queue.QueueService.GetActiveJobs | backend/services/queueService.js:177-179 | The active jobs are exactly the processing jobs, each once, listed in the order of `activeJobs`, the order in which they were admitted. There are at most two. |
| Queue.QueueService.ActiveJobsListed | backend/services/queueService.js:177-179 | Reading the active ids through the registry lists exactly the processing jobs, with distinct ids. |
| Queue.QueueService.GetQueueStatus | backend/services/queueService.js:182-188 | The status reports the queue length and exactly the processing jobs. An observer always sees the `processing` flag down. |
| Queue.QueueService.CancelJob | backend/services/queueService.js:191-199 | The result is true exactly when the job exists and is pending. The job then leaves the queue and the registry and nothing else changes. Otherwise nothing changes. |
| Queue.QueueService.CleanupOldJobs | backend/services/queueService.js:202-209 | Exactly the jobs that are completed and older than one hour leave the registry. Every other job is kept unchanged. |
| Telegram.FindMatch | backend/services/telegramService.js:196-198 | The search finds the leftmost index at which the host text is followed by a name character, or reports that there is none. |
| Telegram.MatchPattern | backend/services/telegramService.js:190-199 | A pattern matches exactly when such an index exists. The capture is the maximal non-empty run of characters other than `/` and `?` after the host. |
| Telegram.ExtractChannelName | backend/services/telegramService.js:188-209 | The capture of the first matching pattern, tried in the order `t.me/`, `telegram.me/`, `telegram.org/`. Failing that, the input itself when it has no `/` and no `.`. Otherwise the error `Invalid Telegram channel link format`, and that error occurs exactly in that case. |
| Telegram.OccurrenceShape | backend/services/telegramService.js:190-194 | Every host begins with `t` and ends with `/`. |
| Telegram.MatchNeedsSlash | backend/services/telegramService.js:190-194 | No pattern matches text without a `/`. |
| Telegram.BareNameUnchanged | backend/services/telegramService.js:204-206 | A bare name without `/` or `.`, such as `@foo`, comes back unchanged. |
| Telegram.DottedNameRefused | backend/services/telegramService.js:204-208 | Other text without a `/` is refused with the invalid-link error. |
| Telegram.FindMatchSkips | backend/services/telegramService.js:197 | A stretch without the host text holds no match. |
| Telegram.UrlSlashes | backend/services/telegramService.js:190-194 | In `[https://]host/name` the only slashes are the scheme's and the one closing the host. |
| Telegram.UrlOccurrence | backend/services/telegramService.js:196-201 | In such a URL, neither its own host nor any host tried earlier occurs anywhere except right after the scheme. |
| Telegram.ExtractFromUrl | backend/services/telegramService.js:190-201 | `t.me/<name>`, `telegram.me/<name>` and `telegram.org/<name>`, with or without `https://`, all give back `<name>`. |
| Telegram.PatternOrderDecides | backend/services/telegramService.js:196-201 | The patterns are tried in order, not by position: `telegram.me/foo/t.me/bar` gives `bar`. |
| Telegram.TmeFoundLate | backend/services/telegramService.js:191 | In that example, the only `t.me/` match is at index 16. |
| Telegram.MessagesKeyInjective | backend/services/telegramService.js:55 | A message-cache key determines both the channel and the limit. |
| Telegram.KeyParts | backend/services/telegramService.js:55 | The name and the limit sit on either side of the key's last `:`. |
| Telegram.KeyLastColon | backend/services/telegramService.js:55 | The last `:` of a message key is the one before the limit. |
| Telegram.InfoAndMessagesKeysDiffer | backend/services/telegramService.js:29 | Info keys (`info:<name>`) never collide with message keys (55). |
| Telegram.CacheLookup | backend/services/telegramService.js:151-158 | The lookup gives data exactly when an entry exists and less than the TTL has passed since it was stored. |
| Telegram.CacheTTLWindow | backend/services/telegramService.js:153-165 | Data stored at time `t` is served at every time before `t + cacheTTL` and at none from then on. Storing one key leaves every other key alone. |
| Telegram.GatePass | backend/services/telegramService.js:138-149 | A request passes at its arrival when the interval has elapsed. Otherwise it passes at `last + minRequestInterval`. Either way it passes no earlier than both. |
| Telegram.GatePasses | backend/services/telegramService.js:138-149 | Sequential requests each pass the gate once. |
| Telegram.GatePassesSpaced | backend/services/telegramService.js:138-149 | Consecutive sequential passes are at least `minRequestInterval` apart, so `n` passes span at least `(n - 1) * minRequestInterval`. |
| Telegram.AsWrittenConcurrentPasses | backend/services/telegramService.js:138-149 | As written, two callers that enter the gate in the same tick within the interval pass at the same instant. |
| Telegram.AsWrittenGateRace | backend/services/telegramService.js:140-148 | The previous pass at 10000 and two callers arriving at 10500 give the pass instants (11000, 11000). |
| Telegram.ReservingConcurrentPasses | backend/services/telegramService.js:138-149 | Corrected: when the slot is reserved before the wait, even concurrent callers pass at least `minRequestInterval` apart, and apart from the previous pass. |
| Telegram.RetryRunBounds | backend/services/telegramService.js:91-136 | A request makes at least one attempt and at most `maxRetries + 1`. It ends with the gate passed at its final clock. It succeeds only with the data of its last attempt, which was a 2xx reply. |
| Telegram.RetryRunSucceeds | backend/services/telegramService.js:103-113 | A successful attempt ends the run with its data. |
| Telegram.RetryRunRetries | backend/services/telegramService.js:116-122 | A 429 with retries left waits for the backoff delay and retries with the count raised by one. |
| Telegram.RetryRunFails | backend/services/telegramService.js:124-134 | Any other failed attempt ends the run with the error it raises. |
| Telegram.ThrottledThenSucceeds | backend/services/telegramService.js:116-121 | Being throttled `k <= maxRetries` times and then succeeding returns the success after exactly `k + 1` attempts. |
| Telegram.AlwaysThrottled | backend/services/telegramService.js:116-127 | A request throttled on every attempt gives up after `maxRetries + 1` attempts with `<msg>: 429 <statusText>`, having waited every backoff delay. |
| Telegram.FullBackoffIs14Seconds | backend/services/telegramService.js:117-120 | Exhausting the retries from the first attempt costs 14 s of backoff. |
| Telegram.OtherFailureNotRetried | backend/services/telegramService.js:124-134 | A failure other than 429 is not retried: there is one attempt and its error. |
| Telegram.FailureMessageShapes | backend/services/telegramService.js:125-134 | Failures take one of three message shapes: `<msg>: <status> <text>`, `<msg>: No response from server`, or `<msg>: <message>`. |
| Telegram.ExhaustedRetryMentionsRateLimit | backend/services/telegramService.js:82 | The error of a throttled-out request contains `429`, so the message fetch falls back to placeholders. |
| Telegram.MockMessages | backend/services/telegramService.js:167-186 | Exactly `limit` placeholders. Message `i` is dated `now - i` days, has id `now + i` and text `Sample message <i+1> from <name>...`, and they are one day apart. Each has 100 to 1099 views and no media. |
| Telegram.TelegramService.constructor | backend/services/telegramService.js:5-26 | The client starts with an empty cache and `lastRequestTime == 0`. |
| Telegram.TelegramService.GetFromCache | backend/services/telegramService.js:151-158 | The cache returns the data of a live entry and changes nothing. Otherwise it deletes the key and returns nothing. |
| Telegram.TelegramService.SetCache | backend/services/telegramService.js:160-165 | The key is stored with the data and the current time, and nothing else changes. |
| Telegram.TelegramService.EnforceRateLimit | backend/services/telegramService.js:138-149 | The request passes at the gate's instant, and that instant becomes `lastRequestTime`. |
| Telegram.TelegramService.MakeRequestWithRetry | backend/services/telegramService.js:91-136 | The outcome, the number of attempts, the final gate time and the final clock are those of the retry run. |
| Telegram.TelegramService.GetChannelInfo | backend/services/telegramService.js:28-52 | A live, non-empty cache entry is returned with no request and no state change. Otherwise the request's outcome is returned, a success is cached at its time, and a failure is passed on. |
| Telegram.TelegramService.GetChannelMessages | backend/services/telegramService.js:54-89 | The same as channel info, under the key `messages:<name>:<limit>`. In addition, a failure that mentions `429` or `rate limit` gives freshly generated placeholders and caches nothing. |
| Telegram.TelegramService.GenerateMockMessages | backend/services/telegramService.js:167-186 | The loop builds exactly the placeholder list. |
| RateLimit.Pow2 | backend/services/telegramService.js:117 | `Math.pow(2, k)` is at least 1. |
| RateLimit.BackoffDelay | backend/services/telegramService.js:117 | Every backoff delay is at least `retryDelay`. |
| RateLimit.BackoffIsPower | backend/services/telegramService.js:117 | The delay before retry `n + 1` is `retryDelay * 2^n`. |
| RateLimit.BackoffDoubles | backend/config/rateLimit.js:7-8 | Each retry waits twice as long as the one before. |
| RateLimit.BackoffSchedule | backend/config/rateLimit.js:4-10 | With the configured constants the three retries wait 2000, 4000 and 8000 ms, 14000 ms in total. |
| RateLimit.ParseRateLimitHeaders | backend/config/rateLimit.js:21-41 | Each field is set exactly when its header is present and non-empty, to the header's `parseInt` value. |
| RateLimit.CalculateWaitTime | backend/config/rateLimit.js:44-56 | A truthy `retryAfter` wins and gives `retryAfter * 1000`. Otherwise a truthy `reset` gives a non-negative wait that ends at the reset instant, or no wait once it has passed. With neither field the result is `null`. |
| RateLimit.RetryAfterHeaderGivesWait | backend/config/rateLimit.js:36-47 | `Retry-After: n` with `n > 0` means waiting exactly `n` seconds. |
| RateLimit.ZeroRetryAfterDefersToReset | backend/config/rateLimit.js:36-53 | `Retry-After: 0` is falsy once parsed, so `max(0, reset * 1000 - now)` decides. |
| Records.Analyze | backend/services/queueService.js:104-146 | A link is refused exactly when the parser refuses it. A row is found exactly when the name is stored. The fetch fails exactly when no row is stored and the Telegram calls fail, and with their error's message. The AI call fails exactly when the fetch succeeded and the AI service fails, and with its message. A built record holds the extracted name, the link, the fetched info and messages, the analysis and the time, and is what the insert receives. |
| Queue.FetchErrorRecorded | backend/services/queueService.js:121-133 | A fetch error that mentions `429` or `rate limit` is recorded as `Rate Limited: Please try again later`, and any other fetch error as it is. |
| Queue.AnalysisErrorRecorded | backend/services/queueService.js:135-136 | A failed AI call is recorded with the AI service's own message. |
| Records.StoredRowNeedsNoFetch | backend/services/queueService.js:107-119 | With a stored row, whatever Telegram, the AI service or the insert would answer makes no difference. |
| Ai.RemoveAll | backend/services/aiService.js:122 | A global marker replacement never lengthens the text. |
| Ai.RemoveAllKeepsPlainPrefix | backend/services/aiService.js:122 | A prefix without backticks is kept in front of whatever the rest becomes. |
| Ai.RemoveAllPlain | backend/services/aiService.js:122 | Text without backticks passes through the fence replacements unchanged. |
| Ai.RemoveAllShort | backend/services/aiService.js:122 | Text shorter than the marker is left alone. |
| Ai.StripPlain | backend/services/aiService.js:122 | Text without backticks has no fences to strip. |
| Ai.OpeningFenceGoes | backend/services/aiService.js:122 | The opening ```` ```json ```` fence goes together with its newline. |
| Ai.ClosingFenceGoes | backend/services/aiService.js:122 | The closing ```` ``` ```` fence goes. |
| Ai.CutToBracesKeeps | backend/services/aiService.js:128-135 | Without a `{` or without a `}`, the fence-stripped, trimmed text is returned whole. |
| Ai.CutToBracesSpan | backend/services/aiService.js:128-133 | When the first `{` precedes the last `}`, the result is exactly the span between them, inclusive, so it starts with `{` and ends with `}`. |
| Ai.CutToBracesSwapped | backend/services/aiService.js:128-133 | When the last `}` precedes the first `{`, `substring` swaps its bounds and gives the text between them. |
| Ai.BraceSpan | backend/services/aiService.js:132 | `substring` between a `{` and a `}`, in either order. |
| Ai.CutToBracesAround | backend/services/aiService.js:128-133 | An object surrounded by brace-free text is cut out exactly. |
| Ai.TrimAround | backend/services/aiService.js:125 | Trimming text around a core without outer whitespace trims only what lies on either side of the core. |
| Ai.TrimmedObject | backend/services/aiService.js:125-133 | Trimming and then cutting text around an object gives the object. |
| Ai.ObjectInProse | backend/services/aiService.js:120-136 | A reply such as `Here it is: {...} Hope this helps` is cleaned to the object. |
| Ai.FencedObject | backend/services/aiService.js:120-136 | A reply fenced as a json code block is cleaned to the object inside. |
| Ai.ViewCounts | backend/services/aiService.js:60 | Each message gives the `parseInt(views \|\| 0)` of its view count. |
| Ai.MeanCount | backend/services/aiService.js:59-61 | The mean is 0 without messages and `NaN` when one count is `NaN`. Otherwise it is the sum over the count, rounded half up. |
| Ai.SumCountsWithin | backend/services/aiService.js:60 | `n` counts between `lo` and `hi` sum to between `n * lo` and `n * hi`. |
| Ai.AverageViewsWithin | backend/services/aiService.js:59-61 | `avgViews` lies between the smallest and the largest view count. |
| Ai.AverageOfEqualViews | backend/services/aiService.js:59-61 | Equal view counts average to that count. |
| Ai.NaNCountPoisons | backend/services/aiService.js:60 | One unparsable view count makes the average `NaN`. |
| Ai.ConfigFromEnvironment | backend/services/aiService.js:4-8 | An unset or empty `AI_SERVICE` selects `deepseek`, and the key is read as given. |
| Ai.FirstUnreadable | backend/services/aiService.js:73-80 | The failing read of the first post, in order, whose `text`, `video` or `photo` cannot be read; none exactly when every post can be read. |
| Ai.PostViews | backend/services/aiService.js:60 | The view field of every post, in order. |
| Ai.BuildPrompt | backend/services/aiService.js:58-117 | The prompt is built exactly when the channel info is there and every post has `text`, `video` and `photo`, and it then reports `avgViews`. A missing channel info throws the TypeError on `title` (66). Otherwise the TypeError names the failing read of the first unreadable post (77-79). |
| Ai.AnalyzeChannel | backend/services/aiService.js:10-56 | The prompt is built before the `try` (11), so its TypeError comes first. Then a missing key fails, and then a service other than `deepseek` fails as unsupported. The call succeeds exactly when the prompt builds and there is a key, `deepseek` and a reply, and it then gives the cleaned, trimmed reply. A failed call passes its error on. |
| Ai.MissingKeyComesFirst | backend/services/aiService.js:16-18 | Once the prompt is built, without a key or with an empty one, the service name and the reply make no difference. |
| Ai.TextlessPostFailsBeforeKey | backend/services/aiService.js:11-18 | A post without `text` fails on `substring` even when the key is missing: the error is the TypeError, not the missing-key message. |
| Ai.FencedReplyGivesObject | backend/services/aiService.js:43-46 | A fenced object in the reply comes back as the object. |
| Ai.TrimOfUnpadded | backend/services/aiService.js:43 | Text without whitespace at either end is its own trim. |
| BatchRoutes.FirstBadItem | backend/routes/batch.js:9 | The first item, in order, whose length is outside 3 to 200. There is none exactly when all items are within bounds. |
| BatchRoutes.ValidateBatch | backend/routes/batch.js:7-17 | A request is accepted exactly when the links are present, there are 1 to 20 of them, and each has 3 to 200 characters. A missing list gives its violation first. Then the first item, in order, with a bad length is reported, even when there are also too many links. Only then come the empty list and `Maximum 20 channels allowed per batch`, which is given exactly when there are more than 20 links and all of them have good lengths. |
| BatchRoutes.TwentyOneLinksRefused | backend/routes/batch.js:11-15 | Twenty-one well-formed links are refused with `Maximum 20 channels allowed per batch`. |
| BatchRoutes.AddAllIsFirstOccurrences | backend/routes/batch.js:33 | Adding links one by one to a `Set` keeps each at its first occurrence. |
| BatchRoutes.UniqueLinksAreFirstOccurrences | backend/routes/batch.js:33-35 | The links passed to the queue are the distinct input links, without repeats, in first-occurrence order, and no more numerous than the input. |
| BatchRoutes.DistinctLinksKept | backend/routes/batch.js:33 | Links without repeats reach the queue unchanged. |
| BatchRoutes.AnalyzeBatch | backend/routes/batch.js:20-51 | The answer is 400 exactly when validation fails, and then no job is created. Otherwise the distinct links are queued as one job, with one channel per distinct link carrying the trimmed link, in order. The queue, the active jobs and the registry are then as `addBatch` leaves them, and the job id and `totalChannels` (the number of distinct links) are returned. |
| BatchRoutes.JobStatusResponse | backend/routes/batch.js:54-78 | The answer is 404 exactly when no job has the id. Otherwise it is 200 with the registered job itself. |
| BatchRoutes.QueueStatusResponse | backend/routes/batch.js:81-97 | The answer is 200 with the queue length and the `processing` flag down. The active jobs are exactly the processing jobs, at most two, in `activeJobs` order. |
| BatchRoutes.CancelBatch | backend/routes/batch.js:100-124 | The answer is 200 exactly when the job was pending. It then leaves the queue and the registry, and every other job and queue entry stays. Otherwise it is 400, and the queue and the registry are unchanged. |
| BatchRoutes.ActiveJobsResponse | backend/routes/batch.js:127-144 | The answer is 200 with exactly the processing jobs, in `activeJobs` order, and their count, at most two. |
| AnalysisRoutes.AnalyzeResponse | backend/routes/analysis.js:14-115 | A schema failure gives 400. A fetch error mentioning `429` or `rate limit` gives 429 with `retryAfter: 60`, and any other fetch error gives 502. A refused link, or a failure mentioning `Invalid Telegram channel link`, gives 400. Any other failure gives 500, with the failure's message. Everything else gives 200. |
| AnalysisRoutes.BadLinkMentionsPhrase | backend/routes/analysis.js:103 | The parser's error carries the phrase the handler tests for. |
| AnalysisRoutes.RouteAgreesWithWorker | backend/routes/analysis.js:22-97 | The route answers 200 exactly when the batch worker would record a success, and with the same outcome. A 500 carries the message the worker records as the channel's error. |
| AnalysisRoutes.StoredAnalysisIsCached | backend/routes/analysis.js:25-37 | A stored analysis is answered as `cached: true`, whatever Telegram would say. |
| AnalysisRoutes.FetchErrorStatus | backend/routes/analysis.js:39-62 | A failed Telegram fetch is answered 429 with `retryAfter: 60` when its message mentions `429` or `rate limit`, and 502 otherwise. |
| AnalysisRoutes.BadLinkIsClientError | backend/routes/analysis.js:103-108 | A link the parser refuses is answered 400, never 500. |
| AnalysisRoutes.UnsavedAnalysisWarns | backend/routes/analysis.js:83-91 | A failed insert still answers `success: true` with the record and the warning, and without `cached`. |
| AnalysisRoutes.AnalysisByIdResponse | backend/routes/analysis.js:118-135 | The answer is 404 exactly when the store gives no row. Otherwise it is 200 with the row. |
| AnalysisRoutes.PageRange | backend/routes/analysis.js:149-156 | The range starts at `(page - 1) * limit` and covers exactly `limit` rows. |
| AnalysisRoutes.PageCount | backend/routes/analysis.js:175 | `Math.ceil(count / limit)`: for a positive limit, the least page count whose pages hold every row. For a zero limit it is `null`. |
| AnalysisRoutes.PageCountNonNegative | backend/routes/analysis.js:175 | The page count is never negative for a positive limit. |
| AnalysisRoutes.PagesTile | backend/routes/analysis.js:150-156 | Consecutive pages meet without a gap or an overlap. |
| AnalysisRoutes.DefaultPageRange | backend/routes/analysis.js:149-156 | With the default limit, page `p` holds rows `10p - 10` to `10p - 1`. |
| AnalysisRoutes.PageCountCoversRows | backend/routes/analysis.js:150-175 | The last page reaches the final row, and the page before it does not. |
| AnalysisRoutes.RatingFilter | backend/routes/analysis.js:158-160 | Only a non-empty `rating` filters the listing. |
| AnalysisRoutes.ListResponse | backend/routes/analysis.js:147-186 | The store is asked for the page's range and filter. Its error gives 500. Otherwise the answer is 200 with the rows and the pagination block. |
| AnalysisRoutes.DefaultListingAsksFirstTen | backend/routes/analysis.js:149-156 | A request without parameters asks for rows 0 to 9. |
| Reports.AverageTrustScore | backend/routes/reports.js:132 | With analyses, the average is the rounded mean of the trust scores, with a missing score counting as 0. Without analyses it is 0. |
| Reports.Bump | backend/routes/reports.js:128 | The indicator's count rises by one and every other count stays. An existing key keeps its place, and a new key is appended. |
| Reports.BumpKeepsShape | backend/routes/reports.js:128 | Counting keeps the keys distinct and the counts positive. |
| Reports.ListedIndex | backend/routes/reports.js:128 | A key is listed exactly when some entry carries it. |
| Reports.BumpAll | backend/routes/reports.js:127-129 | Counting one analysis's indicators adds each one's multiplicity to its count. |
| Reports.Tally | backend/routes/reports.js:107-130 | Each indicator's count is its total number of occurrences over all analyses. The keys are distinct and the counts positive. |
| Reports.CountOfEntries | backend/routes/reports.js:135 | Under distinct keys, an entry holds its key's count, and every counted key has an entry. |
| Reports.PrependKeepsOrder | backend/routes/reports.js:136 | An entry counting at least the head's count keeps the order. |
| Reports.InsertByCount | backend/routes/reports.js:136 | Inserting an entry into a list in non-increasing count order keeps that order and keeps every entry. |
| Reports.SortByCount | backend/routes/reports.js:136 | The sort is in non-increasing count order and is a permutation of the tally. |
| Reports.TopIndicators | backend/routes/reports.js:135-138 | At most five entries, in non-increasing count order, all taken from the tally. |
| Reports.SortedHoldsEntry | backend/routes/reports.js:136 | Sorting keeps every entry. |
| Reports.TopIndicatorsCountTruly | backend/routes/reports.js:126-138 | Each reported indicator carries its true, positive number of occurrences. |
| Reports.LeftOutCountsNoMore | backend/routes/reports.js:136-137 | An entry left out of the first five counts no more than any of the five. |
| Reports.LeftOutOfPrefix | backend/routes/reports.js:137 | In a sorted list, an entry outside the first `n` counts no more than any of them. |
| Reports.TopIndicatorsAreMostFrequent | backend/routes/reports.js:126-138 | When an occurring indicator is left out, five are shown, and each of them occurs at least as often. |
| Reports.StatsSnoc | backend/routes/reports.js:107-130 | One more analysis adds its share to every statistic. |
| Reports.CountIndicators | backend/routes/reports.js:127-129 | The inner `forEach` counts the analysis's indicators in turn. |
| Reports.DashboardStats | backend/routes/reports.js:91-138 | `totalAnalyses` is the number of analyses. The distribution counts only `Legit`, `Doubtful` and `Scam Risk`. The statistics also report the rounded average trust score, this month's count, and the five most frequent indicators. |
| Reports.OneRatingEach | backend/routes/reports.js:112-115 | An analysis adds one to the count of its own rating, when that rating is one of the three, and nothing to the others. |
| Reports.AllKnownEach | backend/routes/reports.js:112-115 | Every analysis has a counted rating, element by element. |
| Reports.RatingSum | backend/routes/reports.js:93-115 | The three counts sum to at most the number of analyses, and to exactly that number when every rating is counted. |
| Reports.RatingsWithinTotal | backend/routes/reports.js:92-115 | The three counts never exceed `totalAnalyses`, and they equal it exactly when every analysis has one of the three ratings. |
| Reports.TrustTotalBetween | backend/routes/reports.js:118 | The trust total lies between `n * lo` and `n * hi`. |
| Reports.AverageWithinScores | backend/routes/reports.js:118-132 | Scores between `lo` and `hi` average to a score between them. |
| Reports.StatsResponse | backend/routes/reports.js:81-152 | A store error is passed on. Otherwise every statistic of what the store returned is given: the total, the rating distribution, the average trust score, this month's count and the top indicators. |
| Reports.CsvFields | backend/routes/reports.js:51-61 | Every row has ten cells, one per header. |
| Reports.CsvRows | backend/routes/reports.js:47-63 | There is one row per analysis, in order. |
| Reports.BareAnalysisDefaults | backend/routes/reports.js:52-61 | Missing fields export as the channel name, `0`, `0`, `Unknown`, `Unknown`, `Unknown`, `0%` and `None`. |
| Reports.NoIndicatorsExportNone | backend/routes/reports.js:60 | An empty indicator list exports as `None`. |
| Reports.HeaderHasTenColumns | backend/routes/reports.js:34-45 | The header line splits back into its ten column names. |
| Reports.CsvLines | backend/routes/reports.js:65 | The export is the header line followed by exactly one line per analysis, in order. |
| Reports.LinesSplitBack | backend/routes/reports.js:65 | Lines without line breaks, joined with `\n`, split back into themselves. |
| Reports.HeaderHasNoLineBreak | backend/routes/reports.js:34-45 | The header line has no line break. |
| Reports.FilterOf | backend/routes/reports.js:15-25 | Each query parameter filters only when it is non-empty. |
| Reports.CsvResponse | backend/routes/reports.js:6-78 | A store error is passed on. Otherwise the answer is the export of the rows the store returned. |
| BatchAnalyze.TrimAll | frontend/src/components/BatchAnalyze.jsx:30 | Every line is trimmed, and no line is lost. |
| BatchAnalyze.NonEmpty | frontend/src/components/BatchAnalyze.jsx:31 | Exactly the non-empty lines are kept. |
| BatchAnalyze.KeepIfFirstIsFirstOccurrences | frontend/src/components/BatchAnalyze.jsx:32 | The `indexOf` filter is the first-occurrence de-duplication. |
| BatchAnalyze.TrimmedLinesAreTrimmed | frontend/src/components/BatchAnalyze.jsx:30 | Trimmed lines need no further trimming. |
| BatchAnalyze.ParsedLinks | frontend/src/components/BatchAnalyze.jsx:27-33 | The links are the trimmed non-empty lines, each once, in first-occurrence order. Every link is trimmed and non-empty, and every trimmed non-empty line is among them. |
| BatchAnalyze.SubmissionGate | frontend/src/components/BatchAnalyze.jsx:39-47 | Submission goes ahead exactly with 1 to 20 links. No links, or more than 20, give the respective messages. |
| BatchAnalyze.FormAgreesWithServer | frontend/src/components/BatchAnalyze.jsx:37-47 | What the form submits passes the server's size rule and survives its de-duplication unchanged (backend/routes/batch.js:33). |
| BatchAnalyze.SameLimitAsServer | frontend/src/components/BatchAnalyze.jsx:44-45 | The form's limit and message are the server's. |
| Seqs.FirstOccurrences | backend/routes/batch.js:33 | The de-duplication has no repeats, holds exactly the input's elements, and is no longer than the input. |
| Seqs.FirstOccurrencesOfDistinct | backend/routes/batch.js:33 | Input without repeats is its own de-duplication. |
| Seqs.FirstOccurrencesOrder | backend/routes/batch.js:33 | First-occurrence de-duplication keeps the relative order of first appearances. |
| Strings.Substring | backend/services/aiService.js:132 | `substring` clamps its bounds and swaps them when the start is past the end. |

## Left out

- **Real I/O.** The following are oracle parameters, or they are not modelled:
  - axios calls to RapidAPI and DeepSeek;
  - Supabase queries and inserts;
  - the Express request and response objects;
  - `JSON.parse` of the cleaned AI reply;
  - the prompt text beyond `avgViews` and the reads that can throw. A missing field is taken as `undefined`, so the TypeError's message says `undefined` also where the value is `null`;
  - console logging;
  - the axios 10-second timeout.
- **Asynchrony.** `setTimeout` sleeps, unawaited `processJob` promises and `Promise.all` are sequential steps on an integer clock.
  - The interleavings of several running jobs are covered by the step methods `ChannelAnswered` and `PauseOver`.
  - `ProcessJob` states the run of a single job with nothing in between.
  - The hourly `setInterval` that calls `cleanupOldJobs` is not modelled. The method takes the clock's reading.
- **Notifications.** Of the `EventEmitter` notifications, only `channelComplete` and `channelError` are kept, as returned values. The `jobUpdate` and `jobComplete` emits carry no information that the registry does not already hold.
- Queue.QueueService.AddBatch: requires an id not yet registered. The job id is `Date.now().toString()`, so two batches in the same millisecond collide, and the second would overwrite the first job's registry entry while both stay queued. The model excludes that collision.
- **Job ids.** `processSingleChannel`'s unsaved-record id `Date.now()` is the clock parameter.
- **Queued job records.** The registry holds the job records, and `queue` and `activeJobs` hold ids. Holding the same object in three places is captured by the lookup through the id. A job cancelled while queued disappears from both, as in the source.
- **Telegram.MockMessages: the random view count.** `Math.random()` is an arbitrary draw per message (`draws`). Only the 100 to 1099 bound is stated. `toISOString` dates are kept as millisecond instants.
- **The validator library.** Joi's own messages for a missing field and for item lengths, unknown body keys, non-string items and UTF-16 code-unit lengths are not modelled. Lengths are counted in characters.
- **Pagination.** The query parameters arrive as strings, so `offset + limit - 1` concatenates when `limit` comes from the URL. Only the numeric path is modelled. `parseInt(page)` and `parseInt(limit)` in the response are taken as the numbers themselves.
- **Get by id.** Exceptions thrown by the store on `GET /analysis/:id` (the 500 path) are not modelled. A store error is treated like a missing row, as the handler does.
- **Dates.** Local-time month and year (`getMonth`, `getFullYear`) and `toLocaleDateString` are inputs to the model. The CSV file name's date is not modelled.
- **Object key order.** `Object.entries` on the indicator tally is modelled in insertion order. JavaScript lists integer-like keys first, which is not modelled.
- Reports.Bump: an indicator that names an `Object.prototype` member is counted from 0, which JavaScript does not do at backend/routes/reports.js:128. For `constructor` or `toString`, `(tally[k] || 0) + 1` gives a string ending in `1`. For `__proto__` the assignment is ignored, so that key never appears. The tally is modelled as counts over plain keys.
- Reports.SortByCount: stability is not stated. ECMAScript's `sort` is stable, so tied indicators keep their tally order, and that order decides which tied indicators reach the top five. The definition inserts each later entry after the earlier ones with the same count, but no contract says so.
- **Rating keys.** A rating equal to an `Object.prototype` member name, such as `constructor`, would pass the `!== undefined` test. The model counts only the three ratings.
- **Record field types.** Stored record fields are taken to have their documented types: a string title, integer subscribers and trust scores, and an array of strings for the indicators.
- **The AI rate-limit constants.** They are declared in the configuration and kept as constants. None of the services or routes reads them.
- **extractChannelName and the regular expressions.** The three patterns are modelled as a leftmost search for the host text followed by a name character. This is what these patterns mean, but no general regular-expression engine is modelled.

## Findings

| source | as written | input that shows it | evidently intended | confidence | as-written member | corrected member |
|---|---|---|---|---|---|---|
| backend/services/telegramService.js:138-149 | `lastRequestTime` is written only after the wait. Two calls that enter the gate in the same tick (the `Promise.all` of backend/routes/analysis.js:42-45 and of the queue worker) both read the old value, wait until the same instant and fire together. | Previous pass at 10000 and both calls arriving at 10500: both pass at 11000. | Every outbound request at least `minRequestInterval` (1000 ms) after the previous one. | medium, not executed | Telegram.AsWrittenConcurrentPasses, Telegram.AsWrittenGateRace | Telegram.ReservingConcurrentPasses |
