/** The rate-limited Telegram data client: channel-name extraction, the TTL
    cache, the global request-spacing gate, retry with exponential backoff on
    HTTP 429, error classification, and the placeholder messages used when
    message fetching is throttled.

    Time is an injected clock (milliseconds). The HTTP call is an oracle
    `respond` that gives the reply to attempt number 0, 1, 2, ...; a call
    takes no time on the model clock, only waits advance it. */
module Telegram {
  import opened Wrappers
  import Strings
  import RateLimit

  // ---------------------------------------------------------------------
  // Channel-name extraction
  // ---------------------------------------------------------------------

  const InvalidLinkMessage := "Invalid Telegram channel link format"

  /** The hosts of the three URL patterns, in the order they are tried:
      `t\.me\/`, `telegram\.me\/`, `telegram\.org\/`, each followed by the
      capture `([^\/\?]+)`. */
  const Hosts: seq<string> := ["t.me/", "telegram.me/", "telegram.org/"]

  /** A character the capture group `[^\/\?]` accepts. */
  predicate IsNameChar(c: char) {
    c != '/' && c != '?'
  }

  /** The pattern for `host` matches at index `i`: the host text, then at
      least one name character. */
  predicate MatchesAt(s: string, host: string, i: int) {
    Strings.OccursAt(s, host, i) && i + |host| < |s| && IsNameChar(s[i + |host|])
  }

  /** The leftmost index at or after `from` where the pattern matches. */
  function FindMatch(s: string, host: string, from: nat): (r: Option<nat>)
    ensures r.Some? ==> from <= r.value && MatchesAt(s, host, r.value)
    ensures r.Some? ==> forall i :: from <= i < r.value ==> !MatchesAt(s, host, i)
    ensures r.None? ==> forall i :: from <= i ==> !MatchesAt(s, host, i)
    decreases |s| - from
  {
    if from + |host| >= |s| then None
    else if MatchesAt(s, host, from) then Some(from)
    else FindMatch(s, host, from + 1)
  }

  /** `name` is what the capture group takes when the pattern matches at
      `i`: a non-empty run of name characters right after the host, as long
      as possible (it stops at `/`, `?` or the end). */
  predicate Captures(s: string, host: string, i: int, name: string) {
    MatchesAt(s, host, i)
    && var start := i + |host|;
    |name| >= 1 && start + |name| <= |s| && s[start..start + |name|] == name
    && (forall j :: 0 <= j < |name| ==> IsNameChar(name[j]))
    && (start + |name| == |s| || !IsNameChar(s[start + |name|]))
  }

  /** `s.match(pattern)[1]` for the pattern of `host`, or `None` for no match. */
  function MatchPattern(s: string, host: string): (r: Option<string>)
    ensures r.Some? <==> FindMatch(s, host, 0).Some?
    ensures r.Some? ==> Captures(s, host, FindMatch(s, host, 0).value, r.value)
  {
    match FindMatch(s, host, 0)
    case None => None
    case Some(i) =>
      var start := i + |host|;
      var name := Strings.PrefixWhile(s[start..], IsNameChar);
      assert s[start..][0] == s[start];
      assert s[start..start + |name|] == name;
      assert start + |name| < |s| ==> s[start + |name|] == s[start..][|name|];
      Some(name)
  }

  /** `extractChannelName`: the capture of the first pattern (in `Hosts`
      order) that matches; failing that, the input itself if it has neither
      `/` nor `.`; failing that, an error. */
  function ExtractChannelName(link: string): (r: Result<string, string>)
    ensures r.Err? <==> (forall k :: 0 <= k < |Hosts| ==> MatchPattern(link, Hosts[k]).None?)
                        && ('/' in link || '.' in link)
    ensures r.Err? ==> r.error == InvalidLinkMessage
    ensures forall k :: 0 <= k < |Hosts| && MatchPattern(link, Hosts[k]).Some?
                        && (forall j :: 0 <= j < k ==> MatchPattern(link, Hosts[j]).None?)
                        ==> r == Ok(MatchPattern(link, Hosts[k]).value)
  {
    var m0 := MatchPattern(link, Hosts[0]);
    var m1 := MatchPattern(link, Hosts[1]);
    var m2 := MatchPattern(link, Hosts[2]);
    if m0.Some? then Ok(m0.value)
    else if m1.Some? then Ok(m1.value)
    else if m2.Some? then Ok(m2.value)
    else if '/' !in link && '.' !in link then Ok(link)
    else Err(InvalidLinkMessage)
  }

  /** An occurrence of a host puts its opening `t` and its closing `/` in the text. */
  lemma OccurrenceShape(s: string, k: nat, i: int)
    requires k < |Hosts| && Strings.OccursAt(s, Hosts[k], i)
    ensures s[i] == 't' && s[i + 1] == Hosts[k][1] && s[i + |Hosts[k]| - 1] == '/'
  {
    var host := Hosts[k];
    assert s[i..i + |host|][0] == s[i];
    assert s[i..i + |host|][1] == s[i + 1];
    assert s[i..i + |host|][|host| - 1] == s[i + |host| - 1];
  }

  /** Every pattern ends in `/`, so a match needs a `/` in the text. */
  lemma MatchNeedsSlash(s: string, k: nat)
    requires k < |Hosts|
    ensures MatchPattern(s, Hosts[k]).Some? ==> '/' in s
  {
    if FindMatch(s, Hosts[k], 0).Some? {
      var i := FindMatch(s, Hosts[k], 0).value;
      OccurrenceShape(s, k, i);
    }
  }

  /** A bare name (no `/`, no `.`) comes back unchanged: `@foo` stays `@foo`. */
  lemma BareNameUnchanged(name: string)
    requires '/' !in name && '.' !in name
    ensures ExtractChannelName(name) == Ok(name)
  {
    MatchNeedsSlash(name, 0);
    MatchNeedsSlash(name, 1);
    MatchNeedsSlash(name, 2);
  }

  /** Any other text without a `/` is refused. */
  lemma DottedNameRefused(s: string)
    requires '/' !in s && '.' in s
    ensures ExtractChannelName(s) == Err(InvalidLinkMessage)
  {
    MatchNeedsSlash(s, 0);
    MatchNeedsSlash(s, 1);
    MatchNeedsSlash(s, 2);
  }

  /** No pattern matches in a stretch where the host text does not occur. */
  lemma FindMatchSkips(s: string, host: string, from: nat, to: nat)
    requires from <= to
    requires forall i :: from <= i < to ==> !Strings.OccursAt(s, host, i)
    ensures FindMatch(s, host, from) == FindMatch(s, host, to)
    decreases (to as int) - (from as int)
  {
    if from < to {
      FindMatchSkips(s, host, from + 1, to);
    }
  }

  /** The slashes of `scheme + host + name`: the scheme's two, if any, and
      the one closing the host. */
  lemma UrlSlashes(scheme: string, k: nat, name: string, p: int)
    requires scheme == "" || scheme == "https://"
    requires k < |Hosts|
    requires forall m :: 0 <= m < |name| ==> IsNameChar(name[m])
    requires 0 <= p < |scheme + Hosts[k] + name|
    ensures (scheme + Hosts[k] + name)[p] == '/' ==>
              p == |scheme| + |Hosts[k]| - 1 || (scheme == "https://" && (p == 6 || p == 7))
  {
    var s := scheme + Hosts[k] + name;
    var n := |scheme| + |Hosts[k]|;
    if p >= n {
      assert s[p] == name[p - n];
    } else {
      assert s[p] == (scheme + Hosts[k])[p];
    }
  }

  /** In `scheme + Hosts[k] + name` the only occurrence of `Hosts[k]` or of
      a host tried before it is `Hosts[k]` itself, right after the scheme. */
  lemma UrlOccurrence(scheme: string, k: nat, name: string, j: nat, i: int)
    requires scheme == "" || scheme == "https://"
    requires j <= k < |Hosts|
    requires forall m :: 0 <= m < |name| ==> IsNameChar(name[m])
    requires Strings.OccursAt(scheme + Hosts[k] + name, Hosts[j], i)
    ensures i == |scheme| && j == k
  {
    var s := scheme + Hosts[k] + name;
    OccurrenceShape(s, j, i);
    UrlSlashes(scheme, k, name, i + |Hosts[j]| - 1);
    assert s[..|scheme| + |Hosts[k]|] == scheme + Hosts[k];
    assert i < |scheme| + |Hosts[k]|;
    assert s[i] == (scheme + Hosts[k])[i];
    assert s[i + 1] == (scheme + Hosts[k])[i + 1];
  }

  /** `t.me/<name>`, `telegram.me/<name>` and `telegram.org/<name>` all give
      back `<name>` when it is a non-empty run of name characters, with an
      `https://` scheme or none. */
  lemma ExtractFromUrl(scheme: string, k: nat, name: string)
    requires scheme == "" || scheme == "https://"
    requires k < |Hosts|
    requires |name| >= 1 && forall j :: 0 <= j < |name| ==> IsNameChar(name[j])
    ensures ExtractChannelName(scheme + Hosts[k] + name) == Ok(name)
  {
    var host := Hosts[k];
    var s := scheme + host + name;
    var at := |scheme|;
    assert s[at..at + |host|] == host;
    assert s[at + |host|..] == name;
    assert s[at + |host|] == name[0];
    assert MatchesAt(s, host, at);
    forall j, i | 0 <= j <= k && Strings.OccursAt(s, Hosts[j], i)
      ensures i == at && j == k
    {
      UrlOccurrence(scheme, k, name, j, i);
    }
    FindMatchSkips(s, host, 0, at);
    assert FindMatch(s, host, 0) == Some(at);
    Strings.PrefixWhileAll(name, IsNameChar);
  }

  /** The patterns are tried in order, not by position: a `t.me/` later in
      the text wins over a `telegram.me/` earlier in it. */
  lemma PatternOrderDecides()
    ensures ExtractChannelName("telegram.me/foo/t.me/bar") == Ok("bar")
  {
    var s := "telegram.me/foo/t.me/bar";
    TmeFoundLate();
    assert s[21..] == "bar";
    Strings.PrefixWhileAll("bar", IsNameChar);
  }

  /** The only `t.me/` in the example starts at index 16. */
  lemma TmeFoundLate()
    ensures FindMatch("telegram.me/foo/t.me/bar", Hosts[0], 0) == Some(16)
  {
    var s := "telegram.me/foo/t.me/bar";
    forall i | Strings.OccursAt(s, Hosts[0], i)
      ensures i == 16
    {
      OccurrenceShape(s, 0, i);
    }
    assert s[16..21] == "t.me/";
    assert MatchesAt(s, Hosts[0], 16);
    FindMatchSkips(s, Hosts[0], 0, 16);
  }

  // ---------------------------------------------------------------------
  // Cache keys and the TTL cache
  // ---------------------------------------------------------------------

  /** A response body as the API returned it. An empty body is falsy and is
      never served from the cache. */
  type Body = string

  function InfoKey(name: string): string {
    "info:" + name
  }

  function MessagesKey(name: string, limit: nat): string {
    "messages:" + name + ":" + Strings.NatToString(limit)
  }

  /** A message-cache key determines both the channel and the limit. */
  lemma MessagesKeyInjective(a: string, la: nat, b: string, lb: nat)
    requires MessagesKey(a, la) == MessagesKey(b, lb)
    ensures a == b && la == lb
  {
    KeyParts(a, la);
    KeyParts(b, lb);
    Strings.NatToStringInjective(la, lb);
  }

  /** The name and the limit sit on either side of the key's last `:`. */
  lemma KeyParts(name: string, limit: nat)
    ensures var key := MessagesKey(name, limit);
            var n := Strings.LastIndexOf(key, ':');
            n == 9 + |name| && key[9..n] == name && key[n + 1..] == Strings.NatToString(limit)
  {
    KeyLastColon(name, limit);
    var key := MessagesKey(name, limit);
    assert key == ("messages:" + name) + [':'] + Strings.NatToString(limit);
  }

  /** The last `:` of a message-cache key is the one before the limit. */
  lemma KeyLastColon(name: string, limit: nat)
    ensures Strings.LastIndexOf(MessagesKey(name, limit), ':') == 9 + |name|
  {
    var digits := Strings.NatToString(limit);
    assert forall m :: 0 <= m < |digits| ==> Strings.IsDigit(digits[m]);
    assert MessagesKey(name, limit) == ("messages:" + name) + [':'] + digits;
    Strings.LastIndexOfBefore("messages:" + name, ':', digits);
  }

  /** The channel-info entries and the message entries never share a key. */
  lemma InfoAndMessagesKeysDiffer(a: string, b: string, limit: nat)
    ensures InfoKey(a) != MessagesKey(b, limit)
  {
    assert InfoKey(a)[0] == 'i';
    assert MessagesKey(b, limit)[0] == 'm';
  }

  datatype CacheEntry = CacheEntry(data: Body, timestamp: int)

  /** An entry is live while less than the TTL has passed since it was stored. */
  predicate Live(e: CacheEntry, now: int) {
    now - e.timestamp < RateLimit.TelegramCacheTTL
  }

  /** What `getFromCache` returns: the stored data of a live entry, else `null`. */
  function CacheLookup(cache: map<string, CacheEntry>, key: string, now: int): (r: Option<Body>)
    ensures r.Some? <==> key in cache && Live(cache[key], now)
  {
    if key in cache && Live(cache[key], now) then Some(cache[key].data) else None
  }

  /** Data stored at time `t` is served until `t + cacheTTL` (exclusive)
      and not from then on; storing one key leaves every other key alone. */
  lemma CacheTTLWindow(cache: map<string, CacheEntry>, key: string, other: string, d: Body, t: int, later: int)
    requires other != key
    ensures CacheLookup(cache[key := CacheEntry(d, t)], key, later)
            == if later < t + RateLimit.TelegramCacheTTL then Some(d) else None
    ensures CacheLookup(cache[key := CacheEntry(d, t)], other, later) == CacheLookup(cache, other, later)
  {
  }

  // ---------------------------------------------------------------------
  // The request-spacing gate
  // ---------------------------------------------------------------------

  /** The instant a request passes `enforceRateLimit` when the previous one
      passed at `last` and this one arrives at `now`: it waits
      `minRequestInterval - elapsed` only when less than the interval has
      elapsed. */
  function GatePass(last: int, now: int): (t: int)
    ensures t >= now && t >= last + RateLimit.TelegramMinRequestInterval
    ensures now - last >= RateLimit.TelegramMinRequestInterval ==> t == now
    ensures now - last < RateLimit.TelegramMinRequestInterval ==> t == last + RateLimit.TelegramMinRequestInterval
  {
    var elapsed := now - last;
    if elapsed < RateLimit.TelegramMinRequestInterval then now + (RateLimit.TelegramMinRequestInterval - elapsed)
    else now
  }

  /** The pass instants of requests that go through the gate one after
      another, arriving at the given times. */
  function GatePasses(last: int, arrivals: seq<int>): (ts: seq<int>)
    ensures |ts| == |arrivals|
    decreases |arrivals|
  {
    if arrivals == [] then []
    else var t := GatePass(last, arrivals[0]); [t] + GatePasses(t, arrivals[1..])
  }

  /** Consecutive requests pass at least `minRequestInterval` apart, so `n`
      requests span at least `(n - 1) * minRequestInterval`. */
  lemma {:induction false} GatePassesSpaced(last: int, arrivals: seq<int>)
    requires |arrivals| >= 1
    ensures var ts := GatePasses(last, arrivals);
            (forall i :: 0 <= i < |ts| - 1 ==> ts[i + 1] - ts[i] >= RateLimit.TelegramMinRequestInterval)
            && ts[|ts| - 1] - ts[0] >= (|ts| - 1) * RateLimit.TelegramMinRequestInterval
    decreases |arrivals|
  {
    var t := GatePass(last, arrivals[0]);
    var ts := GatePasses(last, arrivals);
    if |arrivals| > 1 {
      GatePassesSpaced(t, arrivals[1..]);
      var rest := GatePasses(t, arrivals[1..]);
      assert ts == [t] + rest;
      assert rest[0] == GatePass(t, arrivals[1]);
      assert forall i :: 1 <= i < |ts| ==> ts[i] == rest[i - 1];
    }
  }

  /** As written, two callers that enter the gate in the same tick (as the
      two fetches of one `Promise.all` do) and both find the interval not yet
      elapsed read the same `lastRequestTime`, wait until the same instant
      and pass together: `lastRequestTime` is written only after the wait.
      Returns the two pass instants. */
  function AsWrittenConcurrentPasses(last: int, now: int): (p: (int, int))
    ensures now - last < RateLimit.TelegramMinRequestInterval ==> p.0 == p.1
  {
    var first := GatePass(last, now);
    // the first caller records its pass before yielding only when it did not wait
    var seenBySecond := if now - last < RateLimit.TelegramMinRequestInterval then last else first;
    (first, GatePass(seenBySecond, now))
  }

  /** Two requests 500 ms after the previous one both go out at 11000. */
  lemma AsWrittenGateRace()
    ensures AsWrittenConcurrentPasses(10000, 10500) == (11000, 11000)
  {
  }

  /** Corrected: a caller reserves its slot (writes `lastRequestTime`)
      before waiting, so the next caller, concurrent or not, is spaced
      behind it. */
  function ReservingConcurrentPasses(last: int, now: int): (p: (int, int))
    ensures p.0 >= now && p.1 >= now
    ensures p.1 - p.0 >= RateLimit.TelegramMinRequestInterval
    ensures p.0 - last >= RateLimit.TelegramMinRequestInterval
  {
    var first := GatePass(last, now);
    (first, GatePass(first, now))
  }

  // ---------------------------------------------------------------------
  // Retry with backoff and error classification
  // ---------------------------------------------------------------------

  /** What one HTTP attempt gives. */
  datatype HttpReply =
    | Response(status: int, statusText: string, data: Body)  // the server answered
    | NoResponse                                             // sent, but no answer (timeout, network)
    | RequestError(message: string)                          // the request could not be made

  /** axios resolves only for a 2xx status; everything else is thrown. */
  predicate Succeeded(reply: HttpReply) {
    reply.Response? && 200 <= reply.status < 300
  }

  predicate Throttled(reply: HttpReply) {
    reply.Response? && reply.status == 429
  }

  /** The message of the error thrown for a failed attempt. */
  function FailureMessage(errorMessage: string, reply: HttpReply): string
    requires !Succeeded(reply)
  {
    match reply
    case Response(status, text, _) => errorMessage + ": " + Strings.IntToString(status) + " " + text
    case NoResponse => errorMessage + ": No response from server"
    case RequestError(m) => errorMessage + ": " + m
  }

  /** A run of `makeRequestWithRetry`: the outcome, the number of attempts
      made, the gate's `lastRequestTime` afterwards and the clock at the end. */
  datatype RequestRun = RequestRun(result: Result<Body, string>, attempts: nat, lastRequest: int, clock: int)

  /** `makeRequestWithRetry(url, params, errorMessage, retryCount)` entered
      at time `now` with the gate last passed at `last`. */
  function RetryRun(errorMessage: string, respond: nat -> HttpReply, last: int, now: int, retryCount: nat): RequestRun
    decreases (RateLimit.TelegramMaxRetries as int) - (retryCount as int)
  {
    var pass := GatePass(last, now);
    var reply := respond(retryCount);
    if Succeeded(reply) then RequestRun(Ok(reply.data), retryCount + 1, pass, pass)
    else if Throttled(reply) && retryCount < RateLimit.TelegramMaxRetries then
      RetryRun(errorMessage, respond, pass, pass + RateLimit.BackoffDelay(retryCount), retryCount + 1)
    else RequestRun(Err(FailureMessage(errorMessage, reply)), retryCount + 1, pass, pass)
  }

  /** A run makes at least one attempt and at most one more than the retry
      limit allows, ends with the gate passed at its final clock, and
      succeeds only with the data of its last attempt, a 2xx answer. */
  lemma {:induction false} RetryRunBounds(errorMessage: string, respond: nat -> HttpReply, last: int, now: int, retryCount: nat)
    ensures var run := RetryRun(errorMessage, respond, last, now, retryCount);
            retryCount < run.attempts
            && run.attempts <= (if retryCount < RateLimit.TelegramMaxRetries then RateLimit.TelegramMaxRetries else retryCount) + 1
            && run.clock >= now && run.lastRequest == run.clock
            && (run.result.Ok? ==> Succeeded(respond(run.attempts - 1)) && run.result.value == respond(run.attempts - 1).data)
    decreases (RateLimit.TelegramMaxRetries as int) - (retryCount as int)
  {
    var pass := GatePass(last, now);
    var reply := respond(retryCount);
    if !Succeeded(reply) && Throttled(reply) && retryCount < RateLimit.TelegramMaxRetries {
      RetryRunBounds(errorMessage, respond, pass, pass + RateLimit.BackoffDelay(retryCount), retryCount + 1);
    }
  }

  /** The answer to attempt number `i`. */
  function ReplyTo(respond: nat -> HttpReply, i: nat): HttpReply {
    respond(i)
  }

  /** A successful attempt ends the run with its data. */
  lemma RetryRunSucceeds(errorMessage: string, respond: nat -> HttpReply, last: int, now: int, retryCount: nat)
    requires Succeeded(ReplyTo(respond, retryCount))
    ensures var pass := GatePass(last, now);
            RetryRun(errorMessage, respond, last, now, retryCount)
              == RequestRun(Ok(ReplyTo(respond, retryCount).data), retryCount + 1, pass, pass)
  {
  }

  /** A throttled attempt with retries left hands over to the next attempt
      once the backoff has passed. */
  lemma RetryRunRetries(errorMessage: string, respond: nat -> HttpReply, last: int, now: int, retryCount: nat)
    requires !Succeeded(ReplyTo(respond, retryCount)) && Throttled(ReplyTo(respond, retryCount))
    requires retryCount < RateLimit.TelegramMaxRetries
    ensures var pass := GatePass(last, now);
            RetryRun(errorMessage, respond, last, now, retryCount)
              == RetryRun(errorMessage, respond, pass, pass + RateLimit.BackoffDelay(retryCount), retryCount + 1)
  {
  }

  /** Any other failed attempt ends the run with the error it raises. */
  lemma RetryRunFails(errorMessage: string, respond: nat -> HttpReply, last: int, now: int, retryCount: nat)
    requires !Succeeded(ReplyTo(respond, retryCount))
    requires !(Throttled(ReplyTo(respond, retryCount)) && retryCount < RateLimit.TelegramMaxRetries)
    ensures var pass := GatePass(last, now);
            RetryRun(errorMessage, respond, last, now, retryCount)
              == RequestRun(Err(FailureMessage(errorMessage, ReplyTo(respond, retryCount))), retryCount + 1, pass, pass)
  {
  }

  /** A request that is throttled `k <= maxRetries` times and then succeeds
      returns the success after exactly `k + 1` attempts. */
  lemma {:induction false} ThrottledThenSucceeds(errorMessage: string, respond: nat -> HttpReply, last: int, now: int, from: nat, k: nat)
    requires from <= k <= RateLimit.TelegramMaxRetries
    requires forall i :: from <= i < k ==> Throttled(respond(i))
    requires Succeeded(respond(k))
    ensures RetryRun(errorMessage, respond, last, now, from).result == Ok(respond(k).data)
    ensures RetryRun(errorMessage, respond, last, now, from).attempts == k + 1
    decreases (k as int) - (from as int)
  {
    if from < k {
      var pass := GatePass(last, now);
      ThrottledThenSucceeds(errorMessage, respond, pass, pass + RateLimit.BackoffDelay(from), from + 1, k);
    }
  }

  /** A request throttled on every attempt gives up after `maxRetries + 1`
      attempts with `"<msg>: 429 <statusText>"`, having waited the backoff
      delays from `from` on. */
  lemma {:induction false} AlwaysThrottled(errorMessage: string, respond: nat -> HttpReply, last: int, now: int, from: nat)
    requires from <= RateLimit.TelegramMaxRetries
    requires forall i :: from <= i <= RateLimit.TelegramMaxRetries ==> Throttled(respond(i))
    ensures var run := RetryRun(errorMessage, respond, last, now, from);
            var final := respond(RateLimit.TelegramMaxRetries);
            run.attempts == RateLimit.TelegramMaxRetries + 1
            && final.Response? && run.result == Err(errorMessage + ": 429 " + final.statusText)
            && run.clock >= now + BackoffTotal(from)
    decreases (RateLimit.TelegramMaxRetries as int) - (from as int)
  {
    var pass := GatePass(last, now);
    if from < RateLimit.TelegramMaxRetries {
      AlwaysThrottled(errorMessage, respond, pass, pass + RateLimit.BackoffDelay(from), from + 1);
    } else {
      var text := respond(from).statusText;
      assert Strings.IntToString(429) == "429";
      assert errorMessage + ": " + "429" + " " + text == errorMessage + ": 429 " + text;
    }
  }

  /** The sum of the backoff delays of retries `from + 1 .. maxRetries`. */
  function BackoffTotal(from: nat): nat
    decreases (RateLimit.TelegramMaxRetries as int) - (from as int)
  {
    if from < RateLimit.TelegramMaxRetries then RateLimit.BackoffDelay(from) + BackoffTotal(from + 1) else 0
  }

  /** From the first attempt, exhausting the retries takes 14 s of backoff. */
  lemma FullBackoffIs14Seconds()
    ensures BackoffTotal(0) == 14000
  {
    RateLimit.BackoffSchedule();
  }

  /** Any failure other than a 429 is not retried. */
  lemma OtherFailureNotRetried(errorMessage: string, respond: nat -> HttpReply, last: int, now: int)
    requires !Succeeded(respond(0)) && !Throttled(respond(0))
    ensures RetryRun(errorMessage, respond, last, now, 0)
            == RequestRun(Err(FailureMessage(errorMessage, respond(0))), 1, GatePass(last, now), GatePass(last, now))
  {
  }

  /** The three failure shapes. */
  lemma FailureMessageShapes(errorMessage: string, status: int, text: string, d: Body, m: string)
    requires !(200 <= status < 300)
    ensures FailureMessage(errorMessage, Response(status, text, d)) == errorMessage + ": " + Strings.IntToString(status) + " " + text
    ensures FailureMessage(errorMessage, NoResponse) == errorMessage + ": No response from server"
    ensures FailureMessage(errorMessage, RequestError(m)) == errorMessage + ": " + m
  {
  }

  /** The condition under which a fetch error counts as rate limiting,
      here, in the queue worker and in the single-analysis route. */
  predicate MentionsRateLimit(message: string) {
    Strings.Includes(message, "429") || Strings.Includes(message, "rate limit")
  }

  /** The error a throttled-out request ends with is recognised as rate
      limiting, so message fetching falls back to placeholders. */
  lemma ExhaustedRetryMentionsRateLimit(errorMessage: string, text: string, d: Body)
    ensures MentionsRateLimit(FailureMessage(errorMessage, Response(429, text, d)))
  {
    assert Strings.IntToString(429) == "429";
    Strings.IncludesMiddle(errorMessage + ": ", "429", " " + text);
    assert (errorMessage + ": ") + "429" + (" " + text) == FailureMessage(errorMessage, Response(429, text, d));
  }

  // ---------------------------------------------------------------------
  // Placeholder messages
  // ---------------------------------------------------------------------

  const DayMs: int := 86400000   // 24 * 60 * 60 * 1000

  /** A placeholder post; `date` is the instant `toISOString` would format
      and the media URLs are always `null`. */
  datatype MockMessage = MockMessage(id: int, date: int, text: string, views: int,
                                     videoUrl: Option<string>, photoUrl: Option<string>)

  function PlaceholderText(name: string, i: nat): string {
    "Sample message " + Strings.NatToString(i + 1) + " from " + name
    + ". This is placeholder content for demonstration purposes."
  }

  /** Placeholder `i`: dated `i` days before `now`, id `now + i`, and a view
      count of `floor(random * 1000) + 100`, the random draw given as
      `draws(i)` thousandths. */
  function MockMessageAt(name: string, i: nat, now: int, draws: nat -> nat): MockMessage {
    MockMessage(now + i, now - i * DayMs, PlaceholderText(name, i), Views(draws, i), None, None)
  }

  /** `Math.floor(Math.random() * 1000) + 100` for draw `i`. */
  function Views(draws: nat -> nat, i: nat): int {
    draws(i) % 1000 + 100
  }

  /** What `generateMockMessages(name, limit)` returns: exactly `limit`
      posts, newest first, one day apart, numbered from 1, with 100 to 1099
      views and no media. */
  function MockMessages(name: string, limit: nat, now: int, draws: nat -> nat): (msgs: seq<MockMessage>)
    ensures |msgs| == limit
    ensures forall i :: 0 <= i < limit ==> msgs[i].date == now - i * DayMs && msgs[i].id == now + i
    ensures forall i :: 0 <= i < limit - 1 ==> msgs[i].date - msgs[i + 1].date == DayMs
    ensures forall i :: 0 <= i < limit ==> msgs[i].text == PlaceholderText(name, i)
    ensures forall i :: 0 <= i < limit ==> 100 <= msgs[i].views <= 1099
    ensures forall i :: 0 <= i < limit ==> msgs[i].videoUrl.None? && msgs[i].photoUrl.None?
  {
    seq(limit, i requires 0 <= i => MockMessageAt(name, i, now, draws))
  }

  /** What `getChannelMessages` gives back: the API's body, or placeholders. */
  datatype MessagesData = Fetched(body: Body) | Placeholder(msgs: seq<MockMessage>)

  const InfoErrorMessage := "Failed to fetch channel info"
  const MessagesErrorMessage := "Failed to fetch channel messages"

  // ---------------------------------------------------------------------
  // The client object
  // ---------------------------------------------------------------------

  class TelegramService {
    var cache: map<string, CacheEntry>
    var lastRequestTime: int

    constructor ()
      ensures cache == map[] && lastRequestTime == 0
    {
      cache := map[];
      lastRequestTime := 0;
    }

    /** Returns the data of a live entry; otherwise removes the key. */
    method GetFromCache(key: string, now: int) returns (r: Option<Body>)
      modifies this`cache
      ensures r == CacheLookup(old(cache), key, now)
      ensures cache == if r.Some? then old(cache) else old(cache) - {key}
    {
      if key in cache && now - cache[key].timestamp < RateLimit.TelegramCacheTTL {
        return Some(cache[key].data);
      }
      cache := cache - {key};
      r := None;
    }

    method SetCache(key: string, data: Body, now: int)
      modifies this`cache
      ensures cache == old(cache)[key := CacheEntry(data, now)]
    {
      cache := cache[key := CacheEntry(data, now)];
    }

    /** Waits until `minRequestInterval` has passed since the previous
      request and records the instant this one passes. */
    method EnforceRateLimit(now: int) returns (passedAt: int)
      modifies this`lastRequestTime
      ensures passedAt == GatePass(old(lastRequestTime), now)
      ensures lastRequestTime == passedAt
    {
      var timeSinceLastRequest := now - lastRequestTime;
      passedAt := now;
      if timeSinceLastRequest < RateLimit.TelegramMinRequestInterval {
        var waitTime := RateLimit.TelegramMinRequestInterval - timeSinceLastRequest;
        passedAt := now + waitTime;
      }
      lastRequestTime := passedAt;
    }

    /** `makeRequestWithRetry`: pass the gate, make the attempt, and on a
        429 with retries left wait out the backoff and try again. */
    method MakeRequestWithRetry(errorMessage: string, respond: nat -> HttpReply, now: int, retryCount: nat)
      returns (result: Result<Body, string>, attempts: nat, clock: int)
      modifies this`lastRequestTime
      ensures RequestRun(result, attempts, lastRequestTime, clock)
              == RetryRun(errorMessage, respond, old(lastRequestTime), now, retryCount)
      decreases (RateLimit.TelegramMaxRetries as int) - (retryCount as int)
    {
      ghost var last := lastRequestTime;
      var passedAt := EnforceRateLimit(now);
      var reply := ReplyTo(respond, retryCount);
      if Succeeded(reply) {
        RetryRunSucceeds(errorMessage, respond, last, now, retryCount);
        result, attempts, clock := Ok(reply.data), retryCount + 1, passedAt;
      } else if Throttled(reply) && retryCount < RateLimit.TelegramMaxRetries {
        RetryRunRetries(errorMessage, respond, last, now, retryCount);
        var delay := RateLimit.BackoffDelay(retryCount);
        result, attempts, clock := MakeRequestWithRetry(errorMessage, respond, passedAt + delay, retryCount + 1);
      } else {
        RetryRunFails(errorMessage, respond, last, now, retryCount);
        result, attempts, clock := Err(FailureMessage(errorMessage, reply)), retryCount + 1, passedAt;
      }
    }

    /** Channel metadata: served from the cache when a live, non-empty entry
      exists (no request, no wait); otherwise fetched, cached on success,
      and any failure passed on. `calls` counts the HTTP attempts. */
    method GetChannelInfo(name: string, respond: nat -> HttpReply, now: int)
      returns (r: Result<Body, string>, calls: nat)
      modifies this`cache, this`lastRequestTime
      ensures var key := InfoKey(name);
              var hit := CacheLookup(old(cache), key, now);
              var afterLookup := if hit.Some? then old(cache) else old(cache) - {key};
              var run := RetryRun(InfoErrorMessage, respond, old(lastRequestTime), now, 0);
              if hit.Some? && hit.value != "" then
                r == Ok(hit.value) && calls == 0 && cache == old(cache) && lastRequestTime == old(lastRequestTime)
              else
                r == run.result && calls == run.attempts && lastRequestTime == run.lastRequest
                && cache == (if run.result.Ok? then afterLookup[key := CacheEntry(run.result.value, run.clock)]
                             else afterLookup)
    {
      var cacheKey := InfoKey(name);
      var cached := GetFromCache(cacheKey, now);
      if cached.Some? && cached.value != "" {
        return Ok(cached.value), 0;
      }
      var result, attempts, clock := MakeRequestWithRetry(InfoErrorMessage, respond, now, 0);
      calls := attempts;
      if result.Ok? {
        SetCache(cacheKey, result.value, clock);
      }
      r := result;
    }

    /** Recent messages, as `GetChannelInfo` but keyed by name and limit; a
      failure that mentions rate limiting gives freshly generated
      placeholders instead of an error (and nothing is cached). */
    method GetChannelMessages(name: string, limit: nat, respond: nat -> HttpReply, now: int, draws: nat -> nat)
      returns (r: Result<MessagesData, string>, calls: nat)
      modifies this`cache, this`lastRequestTime
      ensures var key := MessagesKey(name, limit);
              var hit := CacheLookup(old(cache), key, now);
              var afterLookup := if hit.Some? then old(cache) else old(cache) - {key};
              var run := RetryRun(MessagesErrorMessage, respond, old(lastRequestTime), now, 0);
              if hit.Some? && hit.value != "" then
                r == Ok(Fetched(hit.value)) && calls == 0 && cache == old(cache) && lastRequestTime == old(lastRequestTime)
              else
                calls == run.attempts && lastRequestTime == run.lastRequest
                && (run.result.Ok? ==> r == Ok(Fetched(run.result.value))
                                       && cache == afterLookup[key := CacheEntry(run.result.value, run.clock)])
                && (run.result.Err? ==> cache == afterLookup
                                        && r == if MentionsRateLimit(run.result.error)
                                                then Ok(Placeholder(MockMessages(name, limit, run.clock, draws)))
                                                else Err(run.result.error))
    {
      var cacheKey := MessagesKey(name, limit);
      var cached := GetFromCache(cacheKey, now);
      if cached.Some? && cached.value != "" {
        return Ok(Fetched(cached.value)), 0;
      }
      var result, attempts, clock := MakeRequestWithRetry(MessagesErrorMessage, respond, now, 0);
      calls := attempts;
      if result.Ok? {
        SetCache(cacheKey, result.value, clock);
        return Ok(Fetched(result.value)), calls;
      }
      if Strings.Includes(result.error, "429") || Strings.Includes(result.error, "rate limit") {
        var msgs := GenerateMockMessages(name, limit, clock, draws);
        return Ok(Placeholder(msgs)), calls;
      }
      r := Err(result.error);
    }

    /** `generateMockMessages`: pushes `limit` placeholders in a loop. */
    method GenerateMockMessages(name: string, limit: nat, now: int, draws: nat -> nat)
      returns (messages: seq<MockMessage>)
      ensures messages == MockMessages(name, limit, now, draws)
    {
      messages := [];
      var i := 0;
      while i < limit
        invariant 0 <= i <= limit
        invariant |messages| == i
        invariant forall j :: 0 <= j < i ==> messages[j] == MockMessageAt(name, j, now, draws)
      {
        var date := now - i * DayMs;
        var text := "Sample message " + Strings.NatToString(i + 1) + " from " + name
                    + ". This is placeholder content for demonstration purposes.";
        var views := Views(draws, i);
        messages := messages + [MockMessage(now + i, date, text, views, None, None)];
        i := i + 1;
      }
      assert forall j :: 0 <= j < limit ==> MockMessages(name, limit, now, draws)[j] == MockMessageAt(name, j, now, draws);
    }
  }
}
