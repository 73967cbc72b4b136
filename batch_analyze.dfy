/** The batch form in the browser: the textarea is cut into lines, each
    trimmed, blanks dropped and repeats removed, and the result is sent only
    when it holds between one and twenty links. */
module BatchAnalyze {
  import opened Wrappers
  import Strings
  import Seqs
  import BatchRoutes

  const NoLinksMessage := "Please enter at least one valid Telegram channel link"
  const TooManyLinksMessage := "Maximum 20 channels allowed per batch"
  const MaxLinks: nat := 20

  /** `.map(line => line.trim())`. */
  function TrimAll(lines: seq<string>): (r: seq<string>)
    ensures |r| == |lines| && forall i :: 0 <= i < |lines| ==> r[i] == Strings.Trim(lines[i])
  {
    seq(|lines|, i requires 0 <= i < |lines| => Strings.Trim(lines[i]))
  }

  /** `.filter(line => line.length > 0)`. */
  function NonEmpty(lines: seq<string>): (r: seq<string>)
    ensures forall x :: x in r <==> x in lines && x != ""
    ensures |r| <= |lines|
  {
    if lines == [] then []
    else
      var init := lines[..|lines| - 1];
      var last := lines[|lines| - 1];
      assert forall x :: x in lines <==> x in init || x == last;
      NonEmpty(init) + (if last != "" then [last] else [])
  }

  /** `.filter((line, index, array) => array.indexOf(line) === index)` over
      the first `n` entries: an entry is kept when no equal one precedes it. */
  function KeepIfFirst(lines: seq<string>, n: nat): seq<string>
    requires n <= |lines|
  {
    if n == 0 then []
    else KeepIfFirst(lines, n - 1) + (if Seqs.FirstIndex(lines, lines[n - 1]) == n - 1 then [lines[n - 1]] else [])
  }

  /** The `indexOf` filter is the first-occurrence de-duplication. */
  lemma {:induction false} KeepIfFirstIsFirstOccurrences(lines: seq<string>, n: nat)
    requires n <= |lines|
    ensures KeepIfFirst(lines, n) == Seqs.FirstOccurrences(lines[..n])
  {
    if n > 0 {
      KeepIfFirstIsFirstOccurrences(lines, n - 1);
      Seqs.FirstIndexOfLast(lines, n);
      assert lines[..n] == lines[..n - 1] + [lines[n - 1]];
      Seqs.FirstOccurrencesSnoc(lines[..n - 1], lines[n - 1]);
    }
  }

  /** The trimmed, non-empty lines of the textarea, repeats included. */
  function Lines(text: string): seq<string> {
    NonEmpty(TrimAll(Strings.Split(text, '\n')))
  }

  /** `parseChannelLinks`. */
  function ParseChannelLinks(text: string): seq<string> {
    KeepIfFirst(Lines(text), |Lines(text)|)
  }

  /** Trimmed lines need no further trimming. */
  lemma TrimmedLinesAreTrimmed(lines: seq<string>)
    ensures forall x :: x in TrimAll(lines) ==> Strings.Trim(x) == x
  {
    forall x | x in TrimAll(lines) ensures Strings.Trim(x) == x {
      var i :| 0 <= i < |lines| && TrimAll(lines)[i] == x;
      Strings.TrimIdempotent(lines[i]);
    }
  }

  /** The links are the trimmed non-empty lines, each once, in the order of
      their first appearance; every one is trimmed and non-empty, and every
      trimmed non-empty line is among them. */
  lemma ParsedLinks(text: string)
    ensures ParseChannelLinks(text) == Seqs.FirstOccurrences(Lines(text))
    ensures Seqs.NoDuplicates(ParseChannelLinks(text))
    ensures forall x :: x in ParseChannelLinks(text) ==> x != "" && Strings.Trim(x) == x
    ensures forall x :: x in ParseChannelLinks(text) <==> x != "" && x in TrimAll(Strings.Split(text, '\n'))
  {
    var lines := Lines(text);
    KeepIfFirstIsFirstOccurrences(lines, |lines|);
    assert lines[..|lines|] == lines;
    TrimmedLinesAreTrimmed(Strings.Split(text, '\n'));
  }

  /** The check `startBatchAnalysis` makes before posting the links. */
  function SubmissionGate(links: seq<string>): (r: Result<seq<string>, string>)
    ensures r.Ok? <==> 1 <= |links| <= MaxLinks
    ensures r.Ok? ==> r.value == links
    ensures |links| == 0 ==> r == Err(NoLinksMessage)
    ensures |links| > MaxLinks ==> r == Err(TooManyLinksMessage)
  {
    if |links| == 0 then Err(NoLinksMessage)
    else if |links| > MaxLinks then Err(TooManyLinksMessage)
    else Ok(links)
  }

  /** What the form sends passes the server's size rule and survives its
      de-duplication unchanged, so the server answers with the same count;
      only the per-link length rule is left for the server to apply. */
  lemma FormAgreesWithServer(text: string)
    requires SubmissionGate(ParseChannelLinks(text)).Ok?
    requires forall i :: 0 <= i < |ParseChannelLinks(text)| ==> BatchRoutes.LinkLengthOk(ParseChannelLinks(text)[i])
    ensures BatchRoutes.ValidateBatch(Some(ParseChannelLinks(text))) == Ok(ParseChannelLinks(text))
    ensures BatchRoutes.UniqueLinks(ParseChannelLinks(text)) == ParseChannelLinks(text)
  {
    ParsedLinks(text);
    BatchRoutes.DistinctLinksKept(ParseChannelLinks(text));
  }

  /** The form's limit and message are the server's. */
  lemma SameLimitAsServer()
    ensures MaxLinks == BatchRoutes.MaxLinks && TooManyLinksMessage == BatchRoutes.TooManyMessage
  {
  }
}
