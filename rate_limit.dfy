/** The rate-limit configuration: the Telegram client's spacing, retry and
    cache constants, the parsing of rate-limit response headers, and the
    wait time derived from them. */
module RateLimit {
  import opened Wrappers
  import opened JsMath
  import Strings

  // Telegram client
  const TelegramMinRequestInterval: nat := 1000   // ms between two outbound requests
  const TelegramMaxRetries: nat := 3              // retries after the first attempt
  const TelegramRetryDelay: nat := 2000           // ms before the first retry
  const TelegramRetryBackoff: bool := true        // each retry doubles the delay
  const TelegramCacheTTL: nat := 300000           // 5 * 60 * 1000 ms

  // AI service (declared in the configuration; none of the services or routes reads it)
  const AiMinRequestInterval: nat := 500
  const AiMaxRetries: nat := 2
  const AiRetryDelay: nat := 1000
  const AiCacheTTL: nat := 600000                 // 10 * 60 * 1000 ms

  function Pow2(k: nat): (p: nat)
    ensures p >= 1
  {
    if k == 0 then 1 else 2 * Pow2(k - 1)
  }

  /** The Telegram client's wait before retry number `retryCount + 1`,
      the retry delay doubled once per earlier retry. */
  function BackoffDelay(retryCount: nat): (d: nat)
    ensures d >= TelegramRetryDelay
  {
    if retryCount == 0 then TelegramRetryDelay else 2 * BackoffDelay(retryCount - 1)
  }

  /** The wait is `retryDelay * 2^retryCount`, the source's formula. */
  lemma {:induction false} BackoffIsPower(retryCount: nat)
    ensures BackoffDelay(retryCount) == TelegramRetryDelay * Pow2(retryCount)
  {
    if retryCount > 0 {
      BackoffIsPower(retryCount - 1);
      assert TelegramRetryDelay * Pow2(retryCount) == 2 * (TelegramRetryDelay * Pow2(retryCount - 1));
    }
  }

  /** Each retry waits twice as long as the one before. */
  lemma BackoffDoubles(retryCount: nat)
    ensures BackoffDelay(retryCount + 1) == 2 * BackoffDelay(retryCount)
  {
  }

  /** With the configured constants the three retries wait 2 s, 4 s and 8 s. */
  lemma BackoffSchedule()
    ensures BackoffDelay(0) == 2000 && BackoffDelay(1) == 4000 && BackoffDelay(2) == 8000
    ensures BackoffDelay(0) + BackoffDelay(1) + BackoffDelay(2) == 14000
  {
  }

  /** An optional record field holding a number, read for truthiness:
      absent, `NaN` and `0` are all falsy. */
  predicate Truthy(v: Option<Number>) {
    v.Some? && v.value.Num? && v.value.n != 0
  }

  function ToNumber(p: Option<int>): Number {
    if p.Some? then Num(p.value) else NaN
  }

  /** The record `parseRateLimitHeaders` fills; a field left unset is `None`. */
  datatype RateLimitInfo = RateLimitInfo(
    limit: Option<Number>,
    remaining: Option<Number>,
    reset: Option<Number>,
    retryAfter: Option<Number>)

  /** A header is used when it is present with a non-empty (truthy) string value. */
  predicate HeaderPresent(headers: map<string, string>, name: string) {
    name in headers && headers[name] != ""
  }

  function HeaderField(headers: map<string, string>, name: string): Option<Number> {
    if HeaderPresent(headers, name) then Some(ToNumber(Strings.ParseInt(headers[name]))) else None
  }

  /** Each field is set exactly when its header is present, to the header's
      `parseInt` value; a header the function does not know is ignored. */
  function ParseRateLimitHeaders(headers: map<string, string>): (r: RateLimitInfo)
    ensures r.limit.Some? <==> HeaderPresent(headers, "x-ratelimit-limit")
    ensures r.remaining.Some? <==> HeaderPresent(headers, "x-ratelimit-remaining")
    ensures r.reset.Some? <==> HeaderPresent(headers, "x-ratelimit-reset")
    ensures r.retryAfter.Some? <==> HeaderPresent(headers, "retry-after")
    ensures r.limit.Some? ==> r.limit.value == ToNumber(Strings.ParseInt(headers["x-ratelimit-limit"]))
    ensures r.remaining.Some? ==> r.remaining.value == ToNumber(Strings.ParseInt(headers["x-ratelimit-remaining"]))
    ensures r.retryAfter.Some? ==> r.retryAfter.value == ToNumber(Strings.ParseInt(headers["retry-after"]))
    ensures r.reset.Some? ==> r.reset.value == ToNumber(Strings.ParseInt(headers["x-ratelimit-reset"]))
  {
    RateLimitInfo(
      HeaderField(headers, "x-ratelimit-limit"),
      HeaderField(headers, "x-ratelimit-remaining"),
      HeaderField(headers, "x-ratelimit-reset"),
      HeaderField(headers, "retry-after"))
  }

  /** Milliseconds to wait before calling again, or `None` (`null`) when the
      headers give no hint. A truthy `retryAfter` (seconds) wins; otherwise a
      truthy `reset` (epoch seconds) means waiting until that instant, or not
      at all once it has passed. */
  function CalculateWaitTime(info: RateLimitInfo, now: int): (w: Option<int>)
    ensures w.None? <==> !Truthy(info.retryAfter) && !Truthy(info.reset)
    ensures Truthy(info.retryAfter) ==> w == Some(info.retryAfter.value.n * 1000)
    ensures !Truthy(info.retryAfter) && Truthy(info.reset) ==>
              w.Some? && w.value >= 0 && now + w.value >= info.reset.value.n * 1000
              && (w.value == 0 || now + w.value == info.reset.value.n * 1000)
  {
    if Truthy(info.retryAfter) then Some(info.retryAfter.value.n * 1000)
    else if Truthy(info.reset) then
      var resetTime := info.reset.value.n * 1000;
      Some(if resetTime - now > 0 then resetTime - now else 0)
    else None
  }

  /** A `Retry-After: <n>` header (n > 0, written in decimal) makes the
      caller wait exactly n seconds, whatever the reset header says. */
  lemma RetryAfterHeaderGivesWait(headers: map<string, string>, n: nat, now: int)
    requires n > 0
    requires "retry-after" in headers && headers["retry-after"] == Strings.NatToString(n)
    ensures CalculateWaitTime(ParseRateLimitHeaders(headers), now) == Some(n * 1000)
  {
    Strings.ParseIntOfNatToString(n);
  }

  /** `Retry-After: 0` is falsy once parsed, so the reset header decides. */
  lemma ZeroRetryAfterDefersToReset(headers: map<string, string>, reset: nat, now: int)
    requires reset > 0
    requires "retry-after" in headers && headers["retry-after"] == "0"
    requires "x-ratelimit-reset" in headers && headers["x-ratelimit-reset"] == Strings.NatToString(reset)
    ensures CalculateWaitTime(ParseRateLimitHeaders(headers), now)
            == Some(if reset * 1000 > now then reset * 1000 - now else 0)
  {
    assert Strings.NatToString(0) == "0";
    Strings.ParseIntOfNatToString(0);
    Strings.ParseIntOfNatToString(reset);
    var info := ParseRateLimitHeaders(headers);
    assert info.retryAfter == Some(Num(0));
    assert info.reset == Some(Num(reset));
  }
}
