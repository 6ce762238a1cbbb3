/**
 * The relevance filter of `extractContentFromRelevantPages`: a candidate is
 * relevant when some keyword, lower-cased and stripped of every character
 * outside `\w` and `\s`, occurs in its surrounding text; the relevant
 * candidates keep harvest order and at most `MAX_LINKS` of them are kept.
 */
module Relevance {
  import opened Text
  import opened Seqs
  import opened Harvest

  const MAX_LINKS: nat := 5

  /** `keyword.toLowerCase().replace(/[^\w\s]/gi, '')`. */
  function NormalizeKeyword(k: string): (r: string)
    ensures |r| <= |k|
    ensures NoUpper(r)
    ensures forall i :: 0 <= i < |r| ==> IsWordOrSpace(r[i])
  {
    StripNonWordNoUpper(ToLower(k));
    StripNonWord(ToLower(k))
  }

  /**
   * Normalising keeps exactly the `[\w\s]` characters of the lower-cased
   * keyword, in order and every occurrence of them, so a keyword made of
   * those characters alone is only lower-cased.
   */
  lemma NormalizeKeywordKeeps(k: string)
    ensures var r, l := NormalizeKeyword(k), ToLower(k);
      && r == Filter(IsWordOrSpace, l)
      && IsSubsequence(r, l)
      && (forall c :: c in r <==> c in l && IsWordOrSpace(c))
      && ((forall i :: 0 <= i < |k| ==> IsWordOrSpace(k[i])) ==> r == l)
  {
    var l := ToLower(k);
    FilterIsSubsequence(IsWordOrSpace, l);
    forall c ensures c in NormalizeKeyword(k) <==> c in l && IsWordOrSpace(c) {
      FilterMembers(IsWordOrSpace, l, c);
    }
    if forall i :: 0 <= i < |k| ==> IsWordOrSpace(k[i]) {
      assert forall i :: 0 <= i < |l| ==> l[i] == LowerChar(k[i]);
      FilterAllPass(IsWordOrSpace, l);
    }
  }

  /** `userKeywords.some(keyword => link.surroundingText.includes(...))`. */
  predicate Matches(l: LinkCandidate, keywords: seq<string>) {
    exists k :: k in keywords && Contains(l.surroundingText, NormalizeKeyword(k))
  }

  /** The filter's callback as a function value. */
  function Matcher(keywords: seq<string>): LinkCandidate -> bool
  {
    l => Matches(l, keywords)
  }

  /** `linksWithText.filter(...)`. */
  function Passing(links: seq<LinkCandidate>, keywords: seq<string>): seq<LinkCandidate>
  {
    Filter(Matcher(keywords), links)
  }

  /** `.slice(0, MAX_LINKS)` of the passing links. */
  function SelectRelevant(links: seq<LinkCandidate>, keywords: seq<string>): (r: seq<LinkCandidate>)
    ensures |r| <= MAX_LINKS && |r| <= |Passing(links, keywords)| <= |links|
    ensures |r| == |Passing(links, keywords)| || |r| == MAX_LINKS
    ensures r == Passing(links, keywords)[..|r|]
  {
    var p := Passing(links, keywords);
    if |p| <= MAX_LINKS then p else p[..MAX_LINKS]
  }

  /** A candidate passes exactly when it is harvested and matches. */
  lemma PassingMembers(links: seq<LinkCandidate>, keywords: seq<string>, l: LinkCandidate)
    ensures l in Passing(links, keywords) <==> l in links && Matches(l, keywords)
  {
    FilterMembers(Matcher(keywords), links, l);
  }

  /** The relevant links are at most `MAX_LINKS` matching candidates, taken in harvest order. */
  lemma SelectRelevantSound(links: seq<LinkCandidate>, keywords: seq<string>)
    ensures var r := SelectRelevant(links, keywords);
      && |r| <= MAX_LINKS
      && IsSubsequence(r, links)
      && forall l :: l in r ==> Matches(l, keywords)
  {
    var p := Passing(links, keywords);
    var r := SelectRelevant(links, keywords);
    FilterIsSubsequence(Matcher(keywords), links);
    PrefixIsSubsequence(p, links, |r|);
    assert p[..|r|] == r;
    forall l | l in r ensures Matches(l, keywords) {
      assert l in p;
      PassingMembers(links, keywords, l);
    }
  }

  /** Below the cap nothing relevant is dropped. */
  lemma SelectRelevantComplete(links: seq<LinkCandidate>, keywords: seq<string>, l: LinkCandidate)
    requires |Passing(links, keywords)| <= MAX_LINKS
    requires l in links && Matches(l, keywords)
    ensures l in SelectRelevant(links, keywords)
  {
    PassingMembers(links, keywords, l);
  }

  /** Once the first part of the harvest already fills the cap, later candidates cannot change the selection. */
  lemma SelectRelevantStable(a: seq<LinkCandidate>, b: seq<LinkCandidate>, keywords: seq<string>)
    requires |Passing(a, keywords)| >= MAX_LINKS
    ensures SelectRelevant(a + b, keywords) == SelectRelevant(a, keywords)
  {
    FilterAppend(Matcher(keywords), a, b);
    var pa := Passing(a, keywords);
    assert (pa + Passing(b, keywords))[..MAX_LINKS] == pa[..MAX_LINKS];
  }

  /** A keyword that normalises to "" (such as "?") makes every candidate relevant, since every string includes "". */
  lemma EmptyKeywordMatchesAll(l: LinkCandidate, keywords: seq<string>, k: string)
    requires k in keywords && NormalizeKeyword(k) == ""
    ensures Matches(l, keywords)
  {
    ContainsEmpty(l.surroundingText);
  }

  /** With no keywords nothing is relevant. */
  lemma NoKeywordsSelectNothing(links: seq<LinkCandidate>)
    ensures Passing(links, []) == [] && SelectRelevant(links, []) == []
  {
    var p := Passing(links, []);
    if p != [] {
      PassingMembers(links, [], p[0]);
    }
  }

  /** Punctuation is stripped from keywords: "youth?" searches for "youth" and "?" for "". */
  lemma NormalizeKeywordExamples()
    ensures NormalizeKeyword("Youth?") == "youth"
    ensures NormalizeKeyword("?") == ""
  {
    assert ToLower("Youth?") == "youth?";
    assert StripNonWord("youth?") == "youth";
  }

  /** A candidate whose surrounding text holds a keyword in a different case and without its punctuation still matches. */
  lemma MatchExample()
    ensures Matches(LinkCandidate("about us", "learn about our youth programs", "https://www.fosternation.org/about"), ["youth?"])
  {
    var s := "learn about our youth programs";
    assert s[16..21] == "youth";
    assert OccursAt(s, "youth", 16);
    assert ToLower("youth?") == "youth?";
    assert StripNonWord("youth?") == "youth";
    assert NormalizeKeyword("youth?") == "youth";
    assert Contains(s, NormalizeKeyword("youth?"));
    assert "youth?" in ["youth?"];
  }
}
