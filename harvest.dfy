/**
 * Link candidate selection (`extractContentWithLinks`). The parsed seed page
 * is given as its anchors in document order; each anchor carries its `href`
 * attribute (absent or present), its own text and its parent element's text,
 * both before lower-casing and trimming. URL resolution is a parameter.
 */
module Harvest {
  import opened Wrappers
  import opened Text
  import opened Seqs

  datatype Anchor = Anchor(href: Option<string>, text: string, parentText: string)

  datatype LinkCandidate = LinkCandidate(linkText: string, surroundingText: string, url: string)

  /** `url.resolve(base, href)`, left abstract. */
  type Resolver = (string, string) -> string

  /**
   * The `href` test: present and truthy (so not ""), and not a fragment,
   * `mailto:` or `tel:` link.
   */
  predicate HrefAccepted(href: Option<string>) {
    href.Some? && href.value != ""
    && !StartsWith(href.value, "#") && !StartsWith(href.value, "mailto:") && !StartsWith(href.value, "tel:")
  }

  /** The record pushed for an anchor whose `href` passed. */
  function Candidate(baseUrl: string, a: Anchor, resolve: Resolver): LinkCandidate
    requires a.href.Some?
  {
    LinkCandidate(Trim(ToLower(a.text)), Trim(ToLower(a.parentText)), resolve(baseUrl, a.href.value))
  }

  /** What the loop body pushes for one anchor. */
  function Pushed(baseUrl: string, a: Anchor, resolve: Resolver): seq<LinkCandidate>
  {
    if HrefAccepted(a.href) then [Candidate(baseUrl, a, resolve)] else []
  }

  /** The loop body as a function value. */
  function PushStep(baseUrl: string, resolve: Resolver): Anchor -> seq<LinkCandidate>
  {
    a => Pushed(baseUrl, a, resolve)
  }

  /** What the `each` loop pushes for the anchors seen so far. */
  function RawLinks(baseUrl: string, anchors: seq<Anchor>, resolve: Resolver): seq<LinkCandidate>
  {
    FlatMap(PushStep(baseUrl, resolve), anchors)
  }

  /** The filter `link.linkText && link.linkText.trim() !== ''`. */
  predicate HasLinkText(l: LinkCandidate) {
    l.linkText != "" && Trim(l.linkText) != ""
  }

  function CleanLinks(links: seq<LinkCandidate>): seq<LinkCandidate>
  {
    Filter(HasLinkText, links)
  }

  /** The harvest as a whole: push, then filter. */
  function Harvested(baseUrl: string, anchors: seq<Anchor>, resolve: Resolver): seq<LinkCandidate>
  {
    CleanLinks(RawLinks(baseUrl, anchors, resolve))
  }

  /** The single test an anchor has to pass to be harvested. */
  predicate Kept(a: Anchor) {
    HrefAccepted(a.href) && Trim(ToLower(a.text)) != ""
  }

  method ExtractContentWithLinks(baseUrl: string, seedPage: Option<seq<Anchor>>, resolve: Resolver)
    returns (links: seq<LinkCandidate>)
    ensures links == if seedPage.None? then [] else Harvested(baseUrl, seedPage.value, resolve)
  {
    if seedPage.None? {
      return [];
    }
    var anchors := seedPage.value;
    var linksWithText: seq<LinkCandidate> := [];
    for i := 0 to |anchors|
      invariant linksWithText == RawLinks(baseUrl, anchors[..i], resolve)
    {
      var a := anchors[i];
      assert anchors[..i + 1][..i] == anchors[..i];
      if HrefAccepted(a.href) {
        linksWithText := linksWithText + [Candidate(baseUrl, a, resolve)];
      }
    }
    assert anchors[..|anchors|] == anchors;
    links := CleanLinks(linksWithText);
  }

  /** Harvesting is per anchor: the harvest of a concatenation is the concatenation of the harvests, so order is kept and duplicates are not removed. */
  lemma HarvestedAppend(baseUrl: string, xs: seq<Anchor>, ys: seq<Anchor>, resolve: Resolver)
    ensures Harvested(baseUrl, xs + ys, resolve) == Harvested(baseUrl, xs, resolve) + Harvested(baseUrl, ys, resolve)
  {
    FlatMapAppend(PushStep(baseUrl, resolve), xs, ys);
    FilterAppend(HasLinkText, RawLinks(baseUrl, xs, resolve), RawLinks(baseUrl, ys, resolve));
  }

  /** One anchor yields its candidate exactly when its href passes and its trimmed lower-cased text is non-empty. */
  lemma HarvestedSingle(baseUrl: string, a: Anchor, resolve: Resolver)
    ensures Harvested(baseUrl, [a], resolve) == if Kept(a) then [Candidate(baseUrl, a, resolve)] else []
  {
    FlatMapSingle(PushStep(baseUrl, resolve), a);
    assert RawLinks(baseUrl, [a], resolve) == Pushed(baseUrl, a, resolve);
    if HrefAccepted(a.href) {
      var c := Candidate(baseUrl, a, resolve);
      TrimIdempotent(ToLower(a.text));
      assert HasLinkText(c) <==> Kept(a);
      assert [c][1..] == [];
      assert Filter(HasLinkText, [c]) == (if HasLinkText(c) then [c] else []) + Filter(HasLinkText, []);
    }
  }

  /** The harvest keeps exactly the kept anchors: every kept anchor's candidate is in it, and everything in it comes from a kept anchor. */
  lemma {:induction false} HarvestedMembers(baseUrl: string, anchors: seq<Anchor>, resolve: Resolver, l: LinkCandidate)
    ensures l in Harvested(baseUrl, anchors, resolve)
        <==> exists i :: 0 <= i < |anchors| && Kept(anchors[i]) && l == Candidate(baseUrl, anchors[i], resolve)
    decreases |anchors|
  {
    if anchors != [] {
      var n := |anchors| - 1;
      var init, a := anchors[..n], anchors[n];
      assert anchors == init + [a];
      HarvestedAppend(baseUrl, init, [a], resolve);
      HarvestedSingle(baseUrl, a, resolve);
      HarvestedMembers(baseUrl, init, resolve, l);
      if l in Harvested(baseUrl, anchors, resolve) {
        if l in Harvested(baseUrl, init, resolve) {
          var i :| 0 <= i < |init| && Kept(init[i]) && l == Candidate(baseUrl, init[i], resolve);
          assert anchors[i] == init[i];
        } else {
          assert Kept(anchors[n]) && l == Candidate(baseUrl, anchors[n], resolve);
        }
      } else {
        forall i | 0 <= i < |anchors| && Kept(anchors[i])
          ensures l != Candidate(baseUrl, anchors[i], resolve)
        {
          if i < n {
            assert anchors[i] == init[i];
          }
        }
      }
    }
  }

  /** Every harvested candidate has non-empty, already-trimmed link text, so the filter's second `trim` changes nothing. */
  lemma {:induction false} HarvestedLinkText(baseUrl: string, anchors: seq<Anchor>, resolve: Resolver, k: nat)
    requires k < |Harvested(baseUrl, anchors, resolve)|
    ensures var l := Harvested(baseUrl, anchors, resolve)[k]; l.linkText != "" && Trim(l.linkText) == l.linkText
  {
    var l := Harvested(baseUrl, anchors, resolve)[k];
    HarvestedMembers(baseUrl, anchors, resolve, l);
    var i :| 0 <= i < |anchors| && Kept(anchors[i]) && l == Candidate(baseUrl, anchors[i], resolve);
    TrimIdempotent(ToLower(anchors[i].text));
  }
}
