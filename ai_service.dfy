/** The deterministic parts of the AI analysis service: the configuration
    guards of `analyzeChannel`, the clean-up of the model's reply before it is
    parsed as JSON, and the average view count put into the prompt. The
    chat-completion call itself is an oracle reply. */
module Ai {
  import opened Wrappers
  import opened JsMath
  import Strings

  // ---------------------------------------------------------------------
  // cleanJsonResponse
  // ---------------------------------------------------------------------

  const JsonFence := "```json"
  const Fence := "```"

  /** `text.replace(/<marker>\n?/g, '')`: a left-to-right scan that drops
      every occurrence of `marker` together with one newline right after it. */
  function RemoveAll(s: string, marker: string): (r: string)
    requires |marker| >= 1
    ensures |r| <= |s|
    decreases |s|
  {
    if s == [] then []
    else if Strings.OccursAt(s, marker, 0) then
      var rest := s[|marker|..];
      if rest != [] && rest[0] == '\n' then RemoveAll(rest[1..], marker) else RemoveAll(rest, marker)
    else [s[0]] + RemoveAll(s[1..], marker)
  }

  /** Both fence replacements, json fences first. */
  function StripFences(text: string): string {
    RemoveAll(RemoveAll(text, JsonFence), Fence)
  }

  /** The last three steps of `cleanJsonResponse` on the trimmed text `c`:
      when both a `{` and a `}` occur, the text is cut to the span from the
      first `{` to the last `}` (with `substring`'s argument swap when the
      last `}` comes before the first `{`); otherwise it is kept whole. */
  function CutToBraces(c: string): string {
    var firstBrace := Strings.FirstIndexOf(c, '{');
    var lastBrace := Strings.LastIndexOf(c, '}');
    if firstBrace == -1 || lastBrace == -1 then c
    else Strings.Substring(c, firstBrace, lastBrace + 1)
  }

  /** Without a `{` or without a `}` the text is kept whole. */
  lemma CutToBracesKeeps(c: string)
    requires '{' !in c || '}' !in c
    ensures CutToBraces(c) == c
  {
  }

  /** With a `}` after the first `{`, the text is cut to a span that starts
      with the first `{` and ends with the last `}` (no `{` comes before it
      and no `}` after it, by the contracts of the two searches). */
  lemma CutToBracesSpan(c: string)
    requires 0 <= Strings.FirstIndexOf(c, '{') <= Strings.LastIndexOf(c, '}')
    ensures var first := Strings.FirstIndexOf(c, '{');
            var last := Strings.LastIndexOf(c, '}');
            var r := CutToBraces(c);
            r == c[first..last + 1] && r[0] == '{' && r[|r| - 1] == '}'
  {
    var first := Strings.FirstIndexOf(c, '{');
    var last := Strings.LastIndexOf(c, '}');
    assert CutToBraces(c) == Strings.Substring(c, first, last + 1);
    BraceSpan(c, first, last);
  }

  /** With the last `}` before the first `{`, `substring` swaps its bounds
      and the text is cut to what lies between them. */
  lemma CutToBracesSwapped(c: string)
    requires '{' in c && '}' in c && Strings.LastIndexOf(c, '}') < Strings.FirstIndexOf(c, '{')
    ensures CutToBraces(c) == c[Strings.LastIndexOf(c, '}') + 1..Strings.FirstIndexOf(c, '{')]
  {
    var first := Strings.FirstIndexOf(c, '{');
    var last := Strings.LastIndexOf(c, '}');
    assert CutToBraces(c) == Strings.Substring(c, first, last + 1);
    BraceSpan(c, first, last);
  }

  /** The `substring` between a `{` and a `}`. */
  lemma BraceSpan(c: string, first: nat, last: nat)
    requires first < |c| && c[first] == '{' && last < |c| && c[last] == '}'
    ensures var r := Strings.Substring(c, first, last + 1);
            (first <= last ==> r == c[first..last + 1] && r[0] == '{' && r[|r| - 1] == '}')
            && (last < first ==> r == c[last + 1..first])
  {
    var r := Strings.Substring(c, first, last + 1);
    if first <= last {
      assert r[0] == c[first];
      assert r[|r| - 1] == c[last];
    }
  }

  /** `cleanJsonResponse(text)`. */
  function CleanJsonResponse(text: string): string {
    CutToBraces(Strings.Trim(StripFences(text)))
  }

  /** A prefix without backticks is kept in front of whatever the rest
      becomes under a fence replacement. */
  lemma {:induction false} RemoveAllKeepsPlainPrefix(x: string, y: string, marker: string)
    requires |marker| >= 1 && marker[0] == '`' && '`' !in x
    ensures RemoveAll(x + y, marker) == x + RemoveAll(y, marker)
    decreases |x|
  {
    if x != [] {
      var s := x + y;
      assert s[0] == x[0];
      Strings.OccursAtFirstChar(s, marker, 0);
      assert s[1..] == x[1..] + y;
      RemoveAllKeepsPlainPrefix(x[1..], y, marker);
      assert x == [x[0]] + x[1..];
    } else {
      assert x + y == y;
    }
  }

  /** Text without backticks goes through a fence replacement unchanged. */
  lemma RemoveAllPlain(x: string, marker: string)
    requires |marker| >= 1 && marker[0] == '`' && '`' !in x
    ensures RemoveAll(x, marker) == x
  {
    RemoveAllKeepsPlainPrefix(x, [], marker);
    assert x + [] == x;
  }

  /** Text shorter than the marker is left alone. */
  lemma {:induction false} RemoveAllShort(x: string, marker: string)
    requires |marker| >= 1 && |x| < |marker|
    ensures RemoveAll(x, marker) == x
    decreases |x|
  {
    if x != [] {
      RemoveAllShort(x[1..], marker);
      assert x == [x[0]] + x[1..];
    }
  }

  /** The last index of `c` is `n` when `c` is at `n` and not after it. */
  lemma LastIndexOfAt(s: string, c: char, n: nat)
    requires n < |s| && s[n] == c && c !in s[n + 1..]
    ensures Strings.LastIndexOf(s, c) == n
  {
    assert s == s[..n] + [c] + s[n + 1..];
    Strings.LastIndexOfBefore(s[..n], c, s[n + 1..]);
  }

  /** Text without braces on either side of an object is cut to the object. */
  lemma CutToBracesAround(p: string, obj: string, q: string)
    requires |obj| >= 2 && obj[0] == '{' && obj[|obj| - 1] == '}'
    requires '{' !in p && '}' !in q
    ensures CutToBraces(p + obj + q) == obj
  {
    var c := p + obj + q;
    var f := |p|;
    var l := |p| + |obj| - 1;
    assert c[..f] == p;
    assert c[l + 1..] == q;
    assert c[f] == '{' && c[l] == '}';
    Strings.FirstIndexOfAt(c, '{', f);
    LastIndexOfAt(c, '}', l);
    assert c[f..l + 1] == obj;
  }

  /** Trimming never cuts into a stretch that starts and ends with
      non-whitespace characters. */
  lemma TrimKeeps(s: string, i: nat, j: nat)
    requires i <= j < |s| && !Strings.IsWhitespace(s[i]) && !Strings.IsWhitespace(s[j])
    ensures var a := Strings.LeadingSpace(s);
            a <= i && j < a + |Strings.Trim(s)|
  {
  }

  /** A slice of `p + c + q` that covers all of `c`. */
  lemma SliceAcross(p: string, c: string, q: string, a: nat, e: nat)
    requires a <= |p| && |p| + |c| <= e <= |p| + |c| + |q|
    ensures (p + c + q)[a..e] == p[a..] + c + q[..e - |p| - |c|]
  {
    var s := p + c + q;
    var t := p[a..] + c + q[..e - |p| - |c|];
    assert |s[a..e]| == |t|;
    forall m | 0 <= m < |t|
      ensures s[a..e][m] == t[m]
    {
      if m < |p| - a {
        assert t[m] == p[a + m];
      } else if m < |p| - a + |c| {
        assert t[m] == c[m - (|p| - a)];
      } else {
        assert t[m] == q[m - (|p| - a) - |c|];
      }
    }
  }

  /** Trimming text around a core that neither starts nor ends with
      whitespace only trims the text on either side of it. */
  lemma TrimAround(pre: string, core: string, post: string)
    requires |core| >= 1 && !Strings.IsWhitespace(core[0]) && !Strings.IsWhitespace(core[|core| - 1])
    ensures var s := pre + core + post;
            var a := Strings.LeadingSpace(s);
            var k := a + |Strings.Trim(s)| - |pre| - |core|;
            a <= |pre| && 0 <= k <= |post| && Strings.Trim(s) == pre[a..] + core + post[..k]
  {
    var s := pre + core + post;
    var i := |pre|;
    var j := |pre| + |core| - 1;
    assert s[i] == core[0];
    assert s[j] == core[|core| - 1];
    TrimKeeps(s, i, j);
    var a := Strings.LeadingSpace(s);
    var e := a + |Strings.Trim(s)|;
    SliceAcross(pre, core, post, a, e);
  }

  /** A character missing from a text is missing from its suffixes and prefixes. */
  lemma NotInSuffix(x: string, c: char, i: nat)
    requires i <= |x| && c !in x
    ensures c !in x[i..]
  {
    assert forall m :: 0 <= m < |x| - i ==> x[i..][m] == x[i + m];
  }

  lemma NotInPrefix(x: string, c: char, j: nat)
    requires j <= |x| && c !in x
    ensures c !in x[..j]
  {
    assert forall m :: 0 <= m < j ==> x[..j][m] == x[m];
  }

  /** A reply without braces around a JSON object and without backticks,
      such as `Here is the analysis: {...} Hope this helps`, is cut to the
      object. */
  lemma ObjectInProse(pre: string, obj: string, post: string)
    requires |obj| >= 2 && obj[0] == '{' && obj[|obj| - 1] == '}'
    requires '`' !in pre + obj + post
    requires '{' !in pre && '}' !in pre && '{' !in post && '}' !in post
    ensures CleanJsonResponse(pre + obj + post) == obj
  {
    var s := pre + obj + post;
    StripPlain(s);
    TrimmedObject(pre, obj, post);
  }

  /** Text without backticks has no fences to strip. */
  lemma StripPlain(s: string)
    requires '`' !in s
    ensures StripFences(s) == s
  {
    RemoveAllPlain(s, JsonFence);
    RemoveAllPlain(s, Fence);
  }

  /** The brace cut of trimmed text around an object is the object. */
  lemma TrimmedObject(pre: string, obj: string, post: string)
    requires |obj| >= 2 && obj[0] == '{' && obj[|obj| - 1] == '}'
    requires '{' !in pre && '}' !in post
    ensures CutToBraces(Strings.Trim(pre + obj + post)) == obj
  {
    var s := pre + obj + post;
    TrimAround(pre, obj, post);
    var a := Strings.LeadingSpace(s);
    var k := a + |Strings.Trim(s)| - |pre| - |obj|;
    var p := pre[a..];
    var q := post[..k];
    NotInSuffix(pre, '{', a);
    NotInPrefix(post, '}', k);
    CutToBracesAround(p, obj, q);
    assert Strings.Trim(s) == p + obj + q;
  }

  /** A reply fenced as a json code block gives back the object inside. */
  lemma FencedObject(obj: string)
    requires |obj| >= 2 && obj[0] == '{' && obj[|obj| - 1] == '}'
    requires '`' !in obj
    ensures CleanJsonResponse("```json\n" + obj + "\n```") == obj
  {
    var body := obj + "\n";
    assert '`' !in body;
    assert "```json\n" + obj + "\n```" == "```json\n" + body + Fence;
    OpeningFenceGoes(body);
    ClosingFenceGoes(body);
    assert StripFences("```json\n" + obj + "\n```") == [] + obj + "\n";
    TrimmedObject([], obj, "\n");
  }

  /** The opening json fence and its newline go; the closing fence stays. */
  lemma OpeningFenceGoes(body: string)
    requires '`' !in body
    ensures RemoveAll("```json\n" + body + Fence, JsonFence) == body + Fence
  {
    var s := "```json\n" + body + Fence;
    assert s[..|JsonFence|] == JsonFence;
    assert s[|JsonFence|..][0] == '\n';
    assert s[|JsonFence|..][1..] == body + Fence;
    RemoveAllKeepsPlainPrefix(body, Fence, JsonFence);
    RemoveAllShort(Fence, JsonFence);
  }

  /** The closing fence goes. */
  lemma ClosingFenceGoes(body: string)
    requires '`' !in body
    ensures RemoveAll(body + Fence, Fence) == body
  {
    RemoveAllKeepsPlainPrefix(body, Fence, Fence);
    assert Strings.OccursAt(Fence, Fence, 0);
    assert RemoveAll(Fence, Fence) == [];
    assert body + [] == body;
  }

  // ---------------------------------------------------------------------
  // The average views put into the prompt
  // ---------------------------------------------------------------------

  /** `parseInt(msg.views || 0)` with the field given as its text (`None`
      when absent): a missing or empty field counts as 0, and text that
      does not start with a number gives `NaN` (`None`). */
  function ViewCount(views: Option<string>): Option<int> {
    if views.None? || views.value == "" then Some(0) else Strings.ParseInt(views.value)
  }

  /** The `reduce` sum of parsed counts: NaN as soon as one count is NaN. */
  function SumCounts(counts: seq<Option<int>>): Option<int>
  {
    if counts == [] then Some(0)
    else
      var init := SumCounts(counts[..|counts| - 1]);
      var v := counts[|counts| - 1];
      if init.Some? && v.Some? then Some(init.value + v.value) else None
  }

  /** The counts `parseInt` gives for each message's views. */
  function ViewCounts(views: seq<Option<string>>): (counts: seq<Option<int>>)
    ensures |counts| == |views| && forall i :: 0 <= i < |views| ==> counts[i] == ViewCount(views[i])
  {
    seq(|views|, i requires 0 <= i < |views| => ViewCount(views[i]))
  }

  /** 0 for no counts, else the sum over the count, rounded. */
  function MeanCount(counts: seq<Option<int>>): (r: Number)
    ensures counts == [] ==> r == Num(0)
    ensures counts != [] && SumCounts(counts).None? ==> r == NaN
    ensures counts != [] && SumCounts(counts).Some? ==>
              r.Num? && 2 * r.n * |counts| <= 2 * SumCounts(counts).value + |counts| < 2 * r.n * |counts| + 2 * |counts|
  {
    if |counts| == 0 then Num(0)
    else
      var total := SumCounts(counts);
      if total.Some? then Num(RoundDiv(total.value, |counts|)) else NaN
  }

  /** `avgViews`: 0 without messages, otherwise `Math.round(sum / count)`. */
  function AverageViews(views: seq<Option<string>>): Number {
    MeanCount(ViewCounts(views))
  }

  /** All counts are numbers between `lo` and `hi`. */
  predicate CountsWithin(counts: seq<Option<int>>, lo: int, hi: int) {
    forall i :: 0 <= i < |counts| ==> counts[i].Some? && lo <= counts[i].value <= hi
  }

  /** The sum of `n` counts between `lo` and `hi` is between `n * lo` and `n * hi`. */
  lemma {:induction false} SumCountsWithin(counts: seq<Option<int>>, lo: int, hi: int)
    requires CountsWithin(counts, lo, hi)
    ensures SumCounts(counts).Some?
    ensures lo * |counts| <= SumCounts(counts).value <= hi * |counts|
  {
    if counts != [] {
      var init := counts[..|counts| - 1];
      assert CountsWithin(init, lo, hi) by {
        assert forall i :: 0 <= i < |init| ==> init[i] == counts[i];
      }
      SumCountsWithin(init, lo, hi);
      assert lo * |counts| == lo * |init| + lo;
      assert hi * |counts| == hi * |init| + hi;
    }
  }

  /** The average of the view counts lies between the smallest and the largest. */
  lemma AverageViewsWithin(views: seq<Option<string>>, lo: int, hi: int)
    requires views != [] && CountsWithin(ViewCounts(views), lo, hi)
    ensures AverageViews(views).Num? && lo <= AverageViews(views).n <= hi
  {
    var counts := ViewCounts(views);
    SumCountsWithin(counts, lo, hi);
    RoundDivBetween(SumCounts(counts).value, |counts|, lo, hi);
  }

  /** Equal view counts average to that count. */
  lemma AverageOfEqualViews(views: seq<Option<string>>, v: int)
    requires views != [] && CountsWithin(ViewCounts(views), v, v)
    ensures AverageViews(views) == Num(v)
  {
    AverageViewsWithin(views, v, v);
  }

  /** One unparsable view count makes the average `NaN`. */
  lemma {:induction false} NaNCountPoisons(counts: seq<Option<int>>, k: nat)
    requires k < |counts| && counts[k].None?
    ensures SumCounts(counts).None? && MeanCount(counts) == NaN
  {
    if k < |counts| - 1 {
      var init := counts[..|counts| - 1];
      assert init[k] == counts[k];
      NaNCountPoisons(init, k);
    }
  }

  // ---------------------------------------------------------------------
  // analyzeChannel's guards
  // ---------------------------------------------------------------------

  // ---------------------------------------------------------------------
  // buildAnalysisPrompt's dereferences
  // ---------------------------------------------------------------------

  /** What `buildAnalysisPrompt` reads of one post: its view count, its
      `text` (absent when undefined) and whether `video` and `photo` are
      objects whose `url` can be read. */
  datatype PromptMessage = PromptMessage(views: Option<string>, text: Option<string>, video: bool, photo: bool)

  /** The message of the TypeError thrown when `property` is read from
      `undefined`. */
  function UnreadableMessage(property: string): string {
    "Cannot read properties of undefined (reading '" + property + "')"
  }

  /** `msg.text.substring`, `msg.video.url` and `msg.photo.url` can all be
      evaluated. */
  predicate Readable(m: PromptMessage) {
    m.text.Some? && m.video && m.photo
  }

  /** The property whose read throws first in one post's template
      (77, then 78, then 79). */
  function FailingRead(m: PromptMessage): string {
    if m.text.None? then "substring" else "url"
  }

  /** The failing read of the first post, in order, that cannot be read. */
  function FirstUnreadable(messages: seq<PromptMessage>): (r: Option<string>)
    ensures r.None? <==> forall i :: 0 <= i < |messages| ==> Readable(messages[i])
    ensures r.Some? ==> exists i :: 0 <= i < |messages| && !Readable(messages[i]) && r.value == FailingRead(messages[i])
                                     && forall j :: 0 <= j < i ==> Readable(messages[j])
  {
    if messages == [] then None
    else if !Readable(messages[0]) then Some(FailingRead(messages[0]))
    else
      var rest := FirstUnreadable(messages[1..]);
      assert forall i :: 1 <= i < |messages| ==> messages[i] == messages[1..][i - 1];
      if rest.Some? then
        ghost var i :| 0 <= i < |messages[1..]| && !Readable(messages[1..][i]) && rest.value == FailingRead(messages[1..][i])
                       && forall j :: 0 <= j < i ==> Readable(messages[1..][j]);
        assert forall j :: 0 <= j < i + 1 ==> Readable(messages[j]) by {
          forall j | 0 <= j < i + 1 ensures Readable(messages[j]) {
            if j > 0 { assert messages[j] == messages[1..][j - 1]; }
          }
        }
        rest
      else rest
  }

  /** The views of the posts, as `AverageViews` takes them. */
  function PostViews(messages: seq<PromptMessage>): (views: seq<Option<string>>)
    ensures |views| == |messages| && forall i :: 0 <= i < |messages| ==> views[i] == messages[i].views
  {
    seq(|messages|, i requires 0 <= i < |messages| => messages[i].views)
  }

  /** `buildAnalysisPrompt(channelInfo, messages)` (58-117), reduced to the
      `avgViews` it reports or the TypeError it throws. `channelInfo` is
      read first (66), so a missing one fails on `title`; then the posts
      are read in order. */
  function BuildPrompt(hasChannelInfo: bool, messages: seq<PromptMessage>): (r: Result<Number, string>)
    ensures r.Ok? <==> hasChannelInfo && forall i :: 0 <= i < |messages| ==> Readable(messages[i])
    ensures r.Ok? ==> r.value == AverageViews(PostViews(messages))
    ensures !hasChannelInfo ==> r == Err(UnreadableMessage("title"))
    ensures hasChannelInfo && r.Err? ==>
              exists i :: 0 <= i < |messages| && !Readable(messages[i]) && r.error == UnreadableMessage(FailingRead(messages[i]))
                          && forall j :: 0 <= j < i ==> Readable(messages[j])
  {
    if !hasChannelInfo then Err(UnreadableMessage("title"))
    else
      match FirstUnreadable(messages)
      case Some(property) => Err(UnreadableMessage(property))
      case None => Ok(AverageViews(PostViews(messages)))
  }

  const MissingKeyMessage :=
    "DeepSeek API key is not configured. Please set DEEPSEEK_API_KEY environment variable."

  /** The service's configuration as read from the environment. */
  datatype AiConfig = AiConfig(aiService: string, apiKey: Option<string>)

  /** The constructor: `AI_SERVICE || 'deepseek'` (an unset or empty variable
      selects DeepSeek) and `DEEPSEEK_API_KEY` as given. */
  function ConfigFromEnvironment(aiServiceVar: Option<string>, apiKeyVar: Option<string>): (c: AiConfig)
    ensures c.aiService == "deepseek" <==> aiServiceVar.None? || aiServiceVar.value in {"", "deepseek"}
    ensures c.apiKey == apiKeyVar
  {
    AiConfig(if aiServiceVar.None? || aiServiceVar.value == "" then "deepseek" else aiServiceVar.value, apiKeyVar)
  }

  predicate HasApiKey(c: AiConfig) {
    c.apiKey.Some? && c.apiKey.value != ""
  }

  /** `analyzeChannel(channelInfo, messages)` with the chat-completion call
      given as its outcome (`reply`: the choice's message content, or the
      call's error message); the result is the cleaned text handed to
      `JSON.parse`, or the error thrown. The prompt is built before the
      `try` (11), so its TypeError comes before every other failure. */
  function AnalyzeChannel(config: AiConfig, hasChannelInfo: bool, messages: seq<PromptMessage>,
                          reply: Result<string, string>): (r: Result<string, string>)
    ensures BuildPrompt(hasChannelInfo, messages).Err? ==> r == Err(BuildPrompt(hasChannelInfo, messages).error)
    ensures BuildPrompt(hasChannelInfo, messages).Ok? && !HasApiKey(config) ==> r == Err(MissingKeyMessage)
    ensures BuildPrompt(hasChannelInfo, messages).Ok? && HasApiKey(config) && config.aiService != "deepseek" ==>
              r == Err("Unsupported AI service: " + config.aiService)
    ensures r.Ok? <==> BuildPrompt(hasChannelInfo, messages).Ok? && HasApiKey(config) && config.aiService == "deepseek" && reply.Ok?
    ensures r.Ok? ==> r.value == CleanJsonResponse(Strings.Trim(reply.value))
    ensures BuildPrompt(hasChannelInfo, messages).Ok? && HasApiKey(config) && config.aiService == "deepseek" && reply.Err? ==>
              r == Err(reply.error)
  {
    match BuildPrompt(hasChannelInfo, messages)
    case Err(typeError) => Err(typeError)
    case Ok(_) =>
      if !HasApiKey(config) then Err(MissingKeyMessage)
      else if config.aiService == "deepseek" then
        match reply
        case Ok(content) => Ok(CleanJsonResponse(Strings.Trim(content)))
        case Err(message) => Err(message)
      else Err("Unsupported AI service: " + config.aiService)
  }

  /** Once the prompt is built, the key is checked first: without it no
      service name matters and no reply is used. */
  lemma MissingKeyComesFirst(aiServiceVar: Option<string>, channelInfo: bool, messages: seq<PromptMessage>,
                             reply: Result<string, string>)
    requires BuildPrompt(channelInfo, messages).Ok?
    ensures AnalyzeChannel(ConfigFromEnvironment(aiServiceVar, None), channelInfo, messages, reply) == Err(MissingKeyMessage)
    ensures AnalyzeChannel(ConfigFromEnvironment(aiServiceVar, Some("")), channelInfo, messages, reply) == Err(MissingKeyMessage)
  {
  }

  /** A post without `text` throws on `substring` before the key is looked
      at: even without a key, the error is the TypeError. */
  lemma TextlessPostFailsBeforeKey(aiServiceVar: Option<string>, before: seq<PromptMessage>, post: PromptMessage,
                                   after: seq<PromptMessage>, reply: Result<string, string>)
    requires forall i :: 0 <= i < |before| ==> Readable(before[i])
    requires post.text.None?
    ensures AnalyzeChannel(ConfigFromEnvironment(aiServiceVar, None), true, before + [post] + after, reply)
            == Err(UnreadableMessage("substring"))
  {
    var messages := before + [post] + after;
    assert messages[|before|] == post;
    assert !Readable(messages[|before|]);
    var i :| 0 <= i < |messages| && !Readable(messages[i])
             && BuildPrompt(true, messages).error == UnreadableMessage(FailingRead(messages[i]))
             && forall j :: 0 <= j < i ==> Readable(messages[j]);
    if i != |before| {
      assert false;
    }
  }

  /** A fenced object in the reply comes back as the object. */
  lemma FencedReplyGivesObject(key: string, obj: string)
    requires key != ""
    requires |obj| >= 2 && obj[0] == '{' && obj[|obj| - 1] == '}' && '`' !in obj
    ensures AnalyzeChannel(ConfigFromEnvironment(None, Some(key)), true, [], Ok("```json\n" + obj + "\n```")) == Ok(obj)
  {
    var reply := "```json\n" + obj + "\n```";
    assert !Strings.IsWhitespace(reply[0]);
    assert reply[|reply| - 1] == '`';
    TrimOfUnpadded(reply);
    FencedObject(obj);
  }

  /** Text without whitespace at either end is its own trim. */
  lemma TrimOfUnpadded(s: string)
    requires s != [] && !Strings.IsWhitespace(s[0]) && !Strings.IsWhitespace(s[|s| - 1])
    ensures Strings.Trim(s) == s
  {
  }
}
