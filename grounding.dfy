/**
 * Grounding assembly (`extractContentFromRelevantPages`): harvest the seed
 * page, keep the relevant links, fetch each under the identities in order
 * until one yields non-empty text, and join the texts with line breaks.
 * Fetches are an oracle; requests and pacing waits are recorded as events.
 */
module Grounding {
  import opened Wrappers
  import opened Text
  import opened Harvest
  import opened Relevance
  import opened PageExtract

  /** The identities (user agents), in the order they are tried. */
  const USER_AGENTS: seq<string> := [
    "Mozilla/5.0 (Windows NT 10.0; Win64; x64; rv:104.0) Gecko/20100101 Firefox/104.0",
    "Mozilla/5.0 (Windows NT 10.0; Win64; x64; AppleWebKit/537.36 (KHTML, like Gecko) Chrome/91.0.4472.124 Safari/537.36",
    "Mozilla/5.0 (Windows NT 10.0; Win64; x64) AppleWebKit/537.36 (KHTML, like Gecko) Chrome/91.0.4472.124 Safari/537.36 Edg/91.0.864.64"
  ]

  /** The wait after an attempt that yielded no text, in milliseconds. */
  const PACING_MS: nat := 500

  datatype Event = Request(url: string, identity: string) | Pause(ms: nat)

  /**
   * The outcome of requesting `url` with an identity while the `i`-th
   * relevant link is processed: `None` if the fetch failed, else the matched
   * element texts. Each (link position, identity) pair is requested at most
   * once, so this is as general as a per-attempt outcome.
   */
  type PageFetcher = (nat, string, string) -> Option<seq<string>>

  function AttemptText(fetch: PageFetcher, i: nat, url: string, j: nat): string
    requires j < |USER_AGENTS|
  {
    PageText(fetch(i, url, USER_AGENTS[j]))
  }

  /** The text the rotation settles on, and the events it causes. */
  datatype Rotation = Rotation(text: string, trace: seq<Event>)

  /** The inner loop from identity `j` on. */
  function RotateFrom(fetch: PageFetcher, i: nat, url: string, j: nat): Rotation
    requires j <= |USER_AGENTS|
    decreases |USER_AGENTS| - j
  {
    if j == |USER_AGENTS| then Rotation("", [])
    else
      var t := AttemptText(fetch, i, url, j);
      if t != "" then Rotation(t, [Request(url, USER_AGENTS[j])])
      else
        var rest := RotateFrom(fetch, i, url, j + 1);
        Rotation(rest.text, [Request(url, USER_AGENTS[j]), Pause(PACING_MS)] + rest.trace)
  }

  function Rotate(fetch: PageFetcher, i: nat, url: string): Rotation
  {
    RotateFrom(fetch, i, url, 0)
  }

  /** The events of the first `n` attempts when all of them came back empty. */
  function FailedAttempts(url: string, n: nat): seq<Event>
    requires n <= |USER_AGENTS|
  {
    if n == 0 then []
    else FailedAttempts(url, n - 1) + [Request(url, USER_AGENTS[n - 1]), Pause(PACING_MS)]
  }

  function Requests(trace: seq<Event>): nat
  {
    if trace == [] then 0 else (if trace[0].Request? then 1 else 0) + Requests(trace[1..])
  }

  function Pauses(trace: seq<Event>): nat
  {
    if trace == [] then 0 else (if trace[0].Pause? then 1 else 0) + Pauses(trace[1..])
  }

  lemma {:induction false} CountsAppend(a: seq<Event>, b: seq<Event>)
    ensures Requests(a + b) == Requests(a) + Requests(b)
    ensures Pauses(a + b) == Pauses(a) + Pauses(b)
  {
    if a == [] {
      assert a + b == b;
    } else {
      assert (a + b)[1..] == a[1..] + b;
      CountsAppend(a[1..], b);
    }
  }

  /** The relevant links for a harvest; the harvest of a failed seed fetch is empty. */
  function RelevantLinks(baseUrl: string, seedPage: Option<seq<Anchor>>, resolve: Resolver, keywords: seq<string>): seq<LinkCandidate>
  {
    var links := if seedPage.None? then [] else Harvested(baseUrl, seedPage.value, resolve);
    SelectRelevant(links, keywords)
  }

  /** The texts collected for the links seen so far and the events so far. */
  datatype Gathering = Gathering(texts: seq<string>, trace: seq<Event>)

  /** The outer loop over the relevant links. */
  function Gather(fetch: PageFetcher, links: seq<LinkCandidate>): (g: Gathering)
    ensures |g.texts| <= |links|
    ensures forall k :: 0 <= k < |g.texts| ==> g.texts[k] != ""
  {
    if links == [] then Gathering([], [])
    else
      var n := |links| - 1;
      var g := Gather(fetch, links[..n]);
      var r := Rotate(fetch, n, links[n].url);
      Gathering(g.texts + (if r.text != "" then [r.text] else []), g.trace + r.trace)
  }

  datatype Grounding = Grounding(doc: string, trace: seq<Event>)

  /** The whole assembly; its trace starts with the seed page request. */
  function GroundingOf(fetch: PageFetcher, baseUrl: string, seedPage: Option<seq<Anchor>>, resolve: Resolver, keywords: seq<string>): Grounding
  {
    var seedRequest := [Request(baseUrl, USER_AGENTS[0])];
    var links := if seedPage.None? then [] else Harvested(baseUrl, seedPage.value, resolve);
    if |links| == 0 then Grounding("", seedRequest)
    else
      var relevant := SelectRelevant(links, keywords);
      if |relevant| == 0 then Grounding("", seedRequest)
      else
        var g := Gather(fetch, relevant);
        Grounding(JoinLines(g.texts), seedRequest + g.trace)
  }

  /** The inner loop: try the identities in order, stop at the first non-empty text, pause after each empty attempt. */
  method FetchWithRotation(fetch: PageFetcher, i: nat, url: string) returns (content: string, events: seq<Event>)
    ensures Rotation(content, events) == Rotate(fetch, i, url)
  {
    content := "";
    events := [];
    var j := 0;
    while j < |USER_AGENTS|
      invariant 0 <= j <= |USER_AGENTS|
      invariant content == ""
      invariant events == FailedAttempts(url, j)
      invariant forall k :: 0 <= k < j ==> AttemptText(fetch, i, url, k) == ""
    {
      var userAgent := USER_AGENTS[j];
      events := events + [Request(url, userAgent)];
      content := ExtractContentFromPage(fetch(i, url, userAgent));
      if content != "" {
        RotationFirstSuccess(fetch, i, url, j);
        break;
      }
      events := events + [Pause(PACING_MS)];
      j := j + 1;
    }
    if content == "" {
      RotationAllFail(fetch, i, url);
    }
  }

  lemma GatherStep(fetch: PageFetcher, links: seq<LinkCandidate>, i: nat)
    requires i < |links|
    ensures var g := Gather(fetch, links[..i]);
      var r := Rotate(fetch, i, links[i].url);
      Gather(fetch, links[..i + 1]) == Gathering(g.texts + (if r.text != "" then [r.text] else []), g.trace + r.trace)
  {
    assert links[..i + 1][..i] == links[..i];
    assert links[..i + 1][i] == links[i];
  }

  /** The outer loop: one rotation per link, keeping the non-empty texts in link order. */
  method CollectContents(fetch: PageFetcher, links: seq<LinkCandidate>) returns (contents: seq<string>, trace: seq<Event>)
    ensures Gathering(contents, trace) == Gather(fetch, links)
  {
    contents, trace := [], [];
    for i := 0 to |links|
      invariant Gathering(contents, trace) == Gather(fetch, links[..i])
    {
      GatherStep(fetch, links, i);
      var content, events := FetchWithRotation(fetch, i, links[i].url);
      if content != "" {
        contents := contents + [content];
      }
      trace := trace + events;
    }
    assert links[..|links|] == links;
  }

  method ExtractContentFromRelevantPages(
    fetch: PageFetcher, baseUrl: string, seedPage: Option<seq<Anchor>>, resolve: Resolver, keywords: seq<string>)
    returns (doc: string, trace: seq<Event>)
    ensures Grounding(doc, trace) == GroundingOf(fetch, baseUrl, seedPage, resolve, keywords)
  {
    trace := [Request(baseUrl, USER_AGENTS[0])];
    var linksWithText := ExtractContentWithLinks(baseUrl, seedPage, resolve);
    if |linksWithText| == 0 {
      return "", trace;
    }
    var relevantLinks := SelectRelevant(linksWithText, keywords);
    if |relevantLinks| == 0 {
      return "", trace;
    }
    var contents, events := CollectContents(fetch, relevantLinks);
    trace := trace + events;
    doc := JoinLines(contents);
  }

  lemma {:induction false} RotationAfterFailures(fetch: PageFetcher, i: nat, url: string, j: nat)
    requires j <= |USER_AGENTS|
    requires forall k :: 0 <= k < j ==> AttemptText(fetch, i, url, k) == ""
    ensures Rotate(fetch, i, url)
         == Rotation(RotateFrom(fetch, i, url, j).text, FailedAttempts(url, j) + RotateFrom(fetch, i, url, j).trace)
  {
    if j > 0 {
      RotationAfterFailures(fetch, i, url, j - 1);
      var rest := RotateFrom(fetch, i, url, j);
      assert RotateFrom(fetch, i, url, j - 1)
          == Rotation(rest.text, [Request(url, USER_AGENTS[j - 1]), Pause(PACING_MS)] + rest.trace);
      assert FailedAttempts(url, j - 1) + ([Request(url, USER_AGENTS[j - 1]), Pause(PACING_MS)] + rest.trace)
          == FailedAttempts(url, j) + rest.trace;
    }
  }

  /** The first identity that yields text wins: every earlier one was tried and paced, no later one is tried. */
  lemma RotationFirstSuccess(fetch: PageFetcher, i: nat, url: string, j: nat)
    requires j < |USER_AGENTS|
    requires AttemptText(fetch, i, url, j) != ""
    requires forall k :: 0 <= k < j ==> AttemptText(fetch, i, url, k) == ""
    ensures Rotate(fetch, i, url)
         == Rotation(AttemptText(fetch, i, url, j), FailedAttempts(url, j) + [Request(url, USER_AGENTS[j])])
  {
    RotationAfterFailures(fetch, i, url, j);
  }

  /** When every identity yields nothing the link contributes "", after all three attempts, each followed by a pause. */
  lemma RotationAllFail(fetch: PageFetcher, i: nat, url: string)
    requires forall k :: 0 <= k < |USER_AGENTS| ==> AttemptText(fetch, i, url, k) == ""
    ensures Rotate(fetch, i, url) == Rotation("", FailedAttempts(url, |USER_AGENTS|))
  {
    RotationAfterFailures(fetch, i, url, |USER_AGENTS|);
  }

  lemma {:induction false} FailedAttemptsCounts(url: string, n: nat)
    requires n <= |USER_AGENTS|
    ensures Requests(FailedAttempts(url, n)) == n && Pauses(FailedAttempts(url, n)) == n
  {
    if n > 0 {
      FailedAttemptsCounts(url, n - 1);
      var pair := [Request(url, USER_AGENTS[n - 1]), Pause(PACING_MS)];
      CountsAppend(FailedAttempts(url, n - 1), pair);
      var pause: seq<Event> := [Pause(PACING_MS)];
      assert pair[1..] == pause && pause[1..] == [];
      assert Requests(pause) == 0 && Pauses(pause) == 1;
      assert Requests(pair) == 1 && Pauses(pair) == 1;
    }
  }

  /**
   * Each link is requested between one and three times; there is one pause
   * per empty attempt, so as many pauses as requests when nothing was found
   * and one fewer when a text was found.
   */
  lemma {:induction false} RotationCounts(fetch: PageFetcher, i: nat, url: string, j: nat)
    requires j <= |USER_AGENTS|
    ensures var r := RotateFrom(fetch, i, url, j);
      && Requests(r.trace) <= |USER_AGENTS| - j
      && (j < |USER_AGENTS| ==> Requests(r.trace) >= 1)
      && Pauses(r.trace) == Requests(r.trace) - (if r.text != "" then 1 else 0)
    decreases |USER_AGENTS| - j
  {
    if j < |USER_AGENTS| && AttemptText(fetch, i, url, j) == "" {
      RotationCounts(fetch, i, url, j + 1);
      var rest := RotateFrom(fetch, i, url, j + 1);
      CountsAppend([Request(url, USER_AGENTS[j]), Pause(PACING_MS)], rest.trace);
    }
  }

  /** A link whose rotation found text contributes exactly that text. */
  lemma {:induction false} GatherKeepsText(fetch: PageFetcher, links: seq<LinkCandidate>, i: nat)
    requires i < |links|
    requires Rotate(fetch, i, links[i].url).text != ""
    ensures Rotate(fetch, i, links[i].url).text in Gather(fetch, links).texts
    decreases |links|
  {
    var n := |links| - 1;
    var init := links[..n];
    var r := Rotate(fetch, n, links[n].url);
    var tail := if r.text != "" then [r.text] else [];
    assert Gather(fetch, links).texts == Gather(fetch, init).texts + tail;
    if i < n {
      assert init[i] == links[i];
      GatherKeepsText(fetch, init, i);
    } else {
      assert tail == [r.text];
    }
  }

  /** Nothing is collected exactly when every link's rotation came back empty. */
  lemma {:induction false} GatherEmptyIff(fetch: PageFetcher, links: seq<LinkCandidate>)
    ensures Gather(fetch, links).texts == []
        <==> forall i :: 0 <= i < |links| ==> Rotate(fetch, i, links[i].url).text == ""
  {
    if links != [] {
      var n := |links| - 1;
      var init := links[..n];
      GatherEmptyIff(fetch, init);
      var r := Rotate(fetch, n, links[n].url);
      assert Gather(fetch, links).texts == Gather(fetch, init).texts + (if r.text != "" then [r.text] else []);
      assert forall i :: 0 <= i < n ==> init[i] == links[i];
    }
  }

  lemma {:induction false} GatherRequests(fetch: PageFetcher, links: seq<LinkCandidate>)
    ensures Requests(Gather(fetch, links).trace) <= |USER_AGENTS| * |links|
  {
    if links != [] {
      var n := |links| - 1;
      GatherRequests(fetch, links[..n]);
      RotationCounts(fetch, n, links[n].url, 0);
      CountsAppend(Gather(fetch, links[..n]).trace, Rotate(fetch, n, links[n].url).trace);
    }
  }

  /** Without candidates, or without relevant links, the assembly returns "" after the seed request alone. */
  lemma GroundingEmptyCases(fetch: PageFetcher, baseUrl: string, seedPage: Option<seq<Anchor>>, resolve: Resolver, keywords: seq<string>)
    requires RelevantLinks(baseUrl, seedPage, resolve, keywords) == []
    ensures GroundingOf(fetch, baseUrl, seedPage, resolve, keywords) == Grounding("", [Request(baseUrl, USER_AGENTS[0])])
  {
  }

  /** The grounding document is empty exactly when no relevant link yielded text under any identity. */
  lemma GroundingEmptyIff(fetch: PageFetcher, baseUrl: string, seedPage: Option<seq<Anchor>>, resolve: Resolver, keywords: seq<string>)
    ensures var relevant := RelevantLinks(baseUrl, seedPage, resolve, keywords);
      var doc := GroundingOf(fetch, baseUrl, seedPage, resolve, keywords).doc;
      doc == "" <==> forall i :: 0 <= i < |relevant| ==> Rotate(fetch, i, relevant[i].url).text == ""
  {
    var relevant := RelevantLinks(baseUrl, seedPage, resolve, keywords);
    var g := Gather(fetch, relevant);
    GatherEmptyIff(fetch, relevant);
    JoinLinesEmptyIff(g.texts);
  }

  /** Every text a relevant link yielded appears in the grounding document. */
  lemma GroundingKeepsText(fetch: PageFetcher, baseUrl: string, seedPage: Option<seq<Anchor>>, resolve: Resolver, keywords: seq<string>, i: nat)
    requires var relevant := RelevantLinks(baseUrl, seedPage, resolve, keywords);
      i < |relevant| && Rotate(fetch, i, relevant[i].url).text != ""
    ensures var relevant := RelevantLinks(baseUrl, seedPage, resolve, keywords);
      Contains(GroundingOf(fetch, baseUrl, seedPage, resolve, keywords).doc, Rotate(fetch, i, relevant[i].url).text)
  {
    var relevant := RelevantLinks(baseUrl, seedPage, resolve, keywords);
    var g := Gather(fetch, relevant);
    GatherKeepsText(fetch, relevant, i);
    var k :| 0 <= k < |g.texts| && g.texts[k] == Rotate(fetch, i, relevant[i].url).text;
    JoinLinesContains(g.texts, k);
  }

  /** At most one seed request plus three requests for each of at most `MAX_LINKS` links. */
  lemma GroundingRequestBound(fetch: PageFetcher, baseUrl: string, seedPage: Option<seq<Anchor>>, resolve: Resolver, keywords: seq<string>)
    ensures Requests(GroundingOf(fetch, baseUrl, seedPage, resolve, keywords).trace) <= 1 + |USER_AGENTS| * MAX_LINKS
  {
    var seedRequest := [Request(baseUrl, USER_AGENTS[0])];
    var relevant := RelevantLinks(baseUrl, seedPage, resolve, keywords);
    var g := Gather(fetch, relevant);
    GatherRequests(fetch, relevant);
    CountsAppend(seedRequest, g.trace);
    assert Requests(seedRequest) == 1;
    assert |USER_AGENTS| * |relevant| <= |USER_AGENTS| * MAX_LINKS;
  }
}
