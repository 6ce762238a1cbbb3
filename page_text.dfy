/**
 * Page text extraction (`extractContentFromPage`). The fetch and the parse
 * are given as their outcome: `None` when the page could not be fetched, or
 * the texts of the matched `section`, `p` and `h1`..`h6` elements in
 * document order.
 */
module PageExtract {
  import opened Wrappers
  import opened Text
  import opened Seqs

  /** One element's contribution: its text followed by a line break. */
  function Line(e: string): string
  {
    e + "\n"
  }

  /** The elements' lines concatenated, as `textContent +=` builds them. */
  function Flatten(elements: seq<string>): string
  {
    FlatMap(Line, elements)
  }

  /** What the extraction returns: "" on failure, else the trimmed concatenation. */
  function PageText(fetched: Option<seq<string>>): string
  {
    match fetched
    case None => ""
    case Some(elements) => Trim(Flatten(elements))
  }

  method ExtractContentFromPage(fetched: Option<seq<string>>) returns (text: string)
    ensures text == PageText(fetched)
  {
    if fetched.None? {
      return "";
    }
    var elements := fetched.value;
    var textContent := "";
    for i := 0 to |elements|
      invariant textContent == Flatten(elements[..i])
    {
      assert elements[..i + 1][..i] == elements[..i];
      textContent := textContent + elements[i] + "\n";
    }
    assert elements[..|elements|] == elements;
    text := Trim(textContent);
  }

  lemma {:induction false} FlattenAllSpace(elements: seq<string>)
    ensures AllSpace(Flatten(elements)) <==> forall i :: 0 <= i < |elements| ==> AllSpace(elements[i])
    decreases |elements|
  {
    if elements != [] {
      var n := |elements| - 1;
      var init, e := elements[..n], elements[n];
      FlattenAllSpace(init);
      assert Flatten(elements) == Flatten(init) + Line(e);
      AllSpaceAppend(Flatten(init), Line(e));
      AllSpaceAppend(e, "\n");
      assert forall i :: 0 <= i < n ==> init[i] == elements[i];
    }
  }

  /** The page contributes nothing exactly when it failed or every matched element holds only whitespace. */
  lemma PageTextEmptyIff(fetched: Option<seq<string>>)
    ensures PageText(fetched) == ""
        <==> fetched.None? || forall i :: 0 <= i < |fetched.value| ==> AllSpace(fetched.value[i])
  {
    if fetched.Some? {
      TrimEmptyIff(Flatten(fetched.value));
      FlattenAllSpace(fetched.value);
    }
  }

  /** The page text never starts or ends with whitespace. */
  lemma PageTextTrimmed(fetched: Option<seq<string>>)
    ensures var t := PageText(fetched); t == "" || (!IsSpace(t[0]) && !IsSpace(t[|t| - 1]))
  {
    if fetched.Some? {
      TrimEnds(Flatten(fetched.value));
    }
  }

  /** The flattened text around one element: what comes before it, its line, and what comes after it. */
  lemma FlattenAround(elements: seq<string>, k: nat) returns (pre: string)
    requires k < |elements|
    ensures Flatten(elements) == pre + elements[k] + "\n" + Flatten(elements[k + 1..])
  {
    var e := elements[k];
    var before, after := elements[..k], elements[k + 1..];
    assert elements == before + [e] + after;
    FlatMapAppend(Line, before + [e], after);
    FlatMapAppend(Line, before, [e]);
    FlatMapSingle(Line, e);
    pre := Flatten(before);
  }

  /** A non-blank text, put anywhere into a string, occurs in its trim. */
  lemma InnerTextSurvivesTrim(pre: string, e: string, post: string)
    requires Trim(e) != ""
    ensures Contains(Trim(pre + e + post), Trim(e))
  {
    var f := pre + e + post;
    var t := Trim(e);
    var i, j := TrimBounds(e);
    var off := |pre| + i;
    assert forall m :: 0 <= m < |t| ==> f[off..off + |t|][m] == t[m];
    assert f[off..off + |t|] == t;
    TrimEnds(e);
    TrimKeepsInnerText(f, t, off);
  }

  /** The visible text of every matched element is kept in the page text. */
  lemma PageTextKeepsElement(elements: seq<string>, k: nat)
    requires k < |elements|
    ensures Contains(PageText(Some(elements)), Trim(elements[k]))
  {
    var e := elements[k];
    if Trim(e) == "" {
      ContainsEmpty(PageText(Some(elements)));
    } else {
      var pre := FlattenAround(elements, k);
      var post := "\n" + Flatten(elements[k + 1..]);
      assert Flatten(elements) == pre + e + post;
      InnerTextSurvivesTrim(pre, e, post);
    }
  }
}
