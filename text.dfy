/**
 * The JavaScript string operations the pipeline relies on, over `seq<char>`:
 * the `\s` character class (which is also what `String.prototype.trim`
 * removes), ASCII `toLowerCase`, `startsWith`, `includes`, the
 * `replace(/[^\w\s]/gi, '')` clean-up, `join('\n')` and `split(/\s+/)`.
 */
module Text {
  import opened Seqs

  /** The characters of JavaScript's `\s`: WhiteSpace and LineTerminator. */
  predicate IsSpace(c: char) {
    c == ' ' || c == '\t' || c == '\n' || c == '\r' || c == '\U{000B}' || c == '\U{000C}'
    || c == '\U{00A0}' || c == '\U{1680}' || ('\U{2000}' <= c <= '\U{200A}')
    || c == '\U{2028}' || c == '\U{2029}' || c == '\U{202F}' || c == '\U{205F}'
    || c == '\U{3000}' || c == '\U{FEFF}'
  }

  predicate AllSpace(s: string) {
    forall i :: 0 <= i < |s| ==> IsSpace(s[i])
  }

  predicate NoSpace(s: string) {
    forall i :: 0 <= i < |s| ==> !IsSpace(s[i])
  }

  /** The characters of JavaScript's `\w` (without the `u` flag). */
  predicate IsWordChar(c: char) {
    ('a' <= c <= 'z') || ('A' <= c <= 'Z') || ('0' <= c <= '9') || c == '_'
  }

  predicate IsUpper(c: char) {
    'A' <= c <= 'Z'
  }

  predicate NoUpper(s: string) {
    forall i :: 0 <= i < |s| ==> !IsUpper(s[i])
  }

  function LowerChar(c: char): (d: char)
    ensures IsUpper(c) ==> 'a' <= d <= 'z' && d as int == c as int + 32
    ensures !IsUpper(c) ==> d == c
  {
    if IsUpper(c) then (c as int + 32) as char else c
  }

  /** `toLowerCase`, restricted to the ASCII letters. */
  function ToLower(s: string): (r: string)
    ensures |r| == |s|
    ensures NoUpper(r)
    ensures forall i :: 0 <= i < |s| ==> r[i] == LowerChar(s[i])
    ensures forall i :: 0 <= i < |s| && !IsUpper(s[i]) ==> r[i] == s[i]
  {
    if s == [] then [] else [LowerChar(s[0])] + ToLower(s[1..])
  }

  predicate StartsWith(s: string, prefix: string) {
    |prefix| <= |s| && s[..|prefix|] == prefix
  }

  predicate EndsWith(s: string, suffix: string) {
    |suffix| <= |s| && s[|s| - |suffix|..] == suffix
  }

  /** `t` occurs in `s` starting at index `i`. */
  predicate OccursAt(s: string, t: string, i: int) {
    0 <= i <= |s| - |t| && s[i..i + |t|] == t
  }

  /** `s.includes(t)`: `t` occurs in `s` at some position. */
  predicate Contains(s: string, t: string) {
    exists i :: 0 <= i <= |s| && OccursAt(s, t, i)
  }

  lemma ContainsEmpty(s: string)
    ensures Contains(s, "")
  {
    assert OccursAt(s, "", 0);
  }

  lemma ContainsInfix(a: string, t: string, b: string)
    ensures Contains(a + t + b, t)
  {
    var s := a + t + b;
    assert s[|a|..|a| + |t|] == t;
    assert OccursAt(s, t, |a|);
  }

  /** Leading whitespace removed. */
  function TrimStart(s: string): string
  {
    if s != [] && IsSpace(s[0]) then TrimStart(s[1..]) else s
  }

  /** Trailing whitespace removed. */
  function TrimEnd(s: string): string
  {
    if s != [] && IsSpace(s[|s| - 1]) then TrimEnd(s[..|s| - 1]) else s
  }

  /** `String.prototype.trim`. */
  function Trim(s: string): string
  {
    TrimEnd(TrimStart(s))
  }

  lemma {:induction false} TrimStartShape(s: string)
    ensures var r := TrimStart(s);
      && |r| <= |s| && r == s[|s| - |r|..]
      && AllSpace(s[..|s| - |r|])
      && (r == [] || !IsSpace(r[0]))
  {
    if s != [] && IsSpace(s[0]) {
      TrimStartShape(s[1..]);
      var r := TrimStart(s);
      var k := |s| - |r|;
      assert s[1..][..k - 1] == s[1..k];
      assert forall i :: 1 <= i < k ==> s[i] == s[1..k][i - 1];
    }
  }

  lemma {:induction false} TrimEndShape(s: string)
    ensures var r := TrimEnd(s);
      && |r| <= |s| && r == s[..|r|]
      && AllSpace(s[|r|..])
      && (r == [] || !IsSpace(r[|r| - 1]))
  {
    if s != [] && IsSpace(s[|s| - 1]) {
      var m := |s| - 1;
      TrimEndShape(s[..m]);
      var r := TrimEnd(s);
      assert s[..m][..|r|] == s[..|r|];
      assert forall i :: |r| <= i < m ==> s[i] == s[..m][|r|..][i - |r|];
    }
  }

  /** Trimmed text neither starts nor ends with whitespace. */
  lemma TrimEnds(s: string)
    ensures Trim(s) == [] || (!IsSpace(Trim(s)[0]) && !IsSpace(Trim(s)[|Trim(s)| - 1]))
  {
    var t := TrimStart(s);
    TrimStartShape(s);
    TrimEndShape(t);
    if Trim(s) != [] {
      assert Trim(s)[0] == t[0];
    }
  }

  /** What trim removes is whitespace at both ends and nothing else: the result is `s[i..j]` with only whitespace outside it. */
  lemma TrimBounds(s: string) returns (i: nat, j: nat)
    ensures i <= j <= |s| && Trim(s) == s[i..j]
    ensures forall k :: 0 <= k < i ==> IsSpace(s[k])
    ensures forall k :: j <= k < |s| ==> IsSpace(s[k])
    ensures i < j ==> !IsSpace(s[i]) && !IsSpace(s[j - 1])
  {
    var t := TrimStart(s);
    TrimStartShape(s);
    TrimEndShape(t);
    var r := TrimEnd(t);
    i := |s| - |t|;
    j := i + |r|;
    assert t == s[i..];
    assert r == s[i..j];
    forall k | 0 <= k < i ensures IsSpace(s[k]) {
      assert s[k] == s[..i][k];
    }
    forall k | j <= k < |s| ensures IsSpace(s[k]) {
      assert s[k] == t[|r|..][k - j];
    }
    if i < j {
      assert s[i] == r[0] && s[j - 1] == r[|r| - 1];
    }
  }

  lemma TrimEmptyIff(s: string)
    ensures Trim(s) == "" <==> AllSpace(s)
  {
    var t := TrimStart(s);
    TrimStartShape(s);
    TrimEndShape(t);
    var k := |s| - |t|;
    assert t != [] ==> t[0] == s[k];
    if Trim(s) == "" {
      assert AllSpace(t[0..]);
      assert t[0..] == t;
      assert t == [];
      assert s[..k] == s;
    }
  }

  lemma TrimIdempotent(s: string)
    ensures Trim(Trim(s)) == Trim(s)
  {
    TrimEnds(s);
  }

  /** A piece of `s` that starts and ends with a non-space character survives trimming `s`. */
  lemma TrimKeepsInnerText(s: string, t: string, p: int)
    requires OccursAt(s, t, p)
    requires t != [] && !IsSpace(t[0]) && !IsSpace(t[|t| - 1])
    ensures Contains(Trim(s), t)
  {
    var i, j := TrimBounds(s);
    var q := p + |t| - 1;
    assert s[p] == t[0] && s[q] == t[|t| - 1];
    assert i <= p && q < j;
    var r := Trim(s);
    assert p + |t| <= j;
    var w := r[p - i..p - i + |t|];
    assert forall k :: 0 <= k < |t| ==> w[k] == s[p..p + |t|][k];
    assert w == s[p..p + |t|];
    assert OccursAt(r, t, p - i);
  }

  lemma AllSpaceAppend(a: string, b: string)
    ensures AllSpace(a + b) <==> AllSpace(a) && AllSpace(b)
  {
    assert forall i :: 0 <= i < |a| ==> a[i] == (a + b)[i];
    assert forall i :: 0 <= i < |b| ==> b[i] == (a + b)[|a| + i];
  }

  /** The characters `[\w\s]` that the keyword clean-up keeps. */
  predicate IsWordOrSpace(c: char) {
    IsWordChar(c) || IsSpace(c)
  }

  /** `replace(/[^\w\s]/gi, '')`: every character that is neither a word character nor whitespace is dropped. */
  function StripNonWord(s: string): string
  {
    Filter(IsWordOrSpace, s)
  }

  lemma StripNonWordNoUpper(s: string)
    requires NoUpper(s)
    ensures NoUpper(StripNonWord(s))
  {
    var r := StripNonWord(s);
    forall i | 0 <= i < |r| ensures !IsUpper(r[i]) {
      FilterMembers(IsWordOrSpace, s, r[i]);
      var j :| 0 <= j < |s| && s[j] == r[i];
    }
  }

  /** `texts.join('\n')`. */
  function JoinLines(ts: seq<string>): (r: string)
  {
    if ts == [] then "" else if |ts| == 1 then ts[0] else ts[0] + "\n" + JoinLines(ts[1..])
  }

  /** Joining non-empty texts gives the empty string exactly when there is nothing to join. */
  lemma JoinLinesEmptyIff(ts: seq<string>)
    requires forall i :: 0 <= i < |ts| ==> ts[i] != ""
    ensures JoinLines(ts) == "" <==> ts == []
  {
    if |ts| > 1 {
      assert |JoinLines(ts)| >= |ts[0]|;
    }
  }

  /** Every joined text occurs in the joined document. */
  lemma {:induction false} JoinLinesContains(ts: seq<string>, k: nat)
    requires k < |ts|
    ensures Contains(JoinLines(ts), ts[k])
  {
    if |ts| == 1 {
      ContainsInfix("", ts[0], "");
      assert "" + ts[0] + "" == ts[0];
    } else if k == 0 {
      ContainsInfix("", ts[0], "\n" + JoinLines(ts[1..]));
      assert "" + ts[0] + ("\n" + JoinLines(ts[1..])) == JoinLines(ts);
    } else {
      var t := ts[k];
      assert ts[1..][k - 1] == t;
      JoinLinesContains(ts[1..], k - 1);
      var rest := JoinLines(ts[1..]);
      var i :| 0 <= i <= |rest| && OccursAt(rest, t, i);
      var whole := JoinLines(ts);
      var off := |ts[0]| + 1;
      assert whole == ts[0] + "\n" + rest;
      assert whole[off + i..off + i + |t|] == rest[i..i + |t|];
      assert OccursAt(whole, t, off + i);
    }
  }

  /** Index of the first whitespace character, or `|s|` if there is none. */
  function FirstSpace(s: string): (i: nat)
    ensures i <= |s|
    ensures forall k :: 0 <= k < i ==> !IsSpace(s[k])
    ensures i < |s| ==> IsSpace(s[i])
  {
    if s == [] || IsSpace(s[0]) then 0 else 1 + FirstSpace(s[1..])
  }

  /** End of the whitespace run that starts at `i`. */
  function SpaceRunEnd(s: string, i: nat): (j: nat)
    requires i <= |s|
    ensures i <= j <= |s|
    ensures forall k :: i <= k < j ==> IsSpace(s[k])
    ensures j < |s| ==> !IsSpace(s[j])
    decreases |s| - i
  {
    if i < |s| && IsSpace(s[i]) then SpaceRunEnd(s, i + 1) else i
  }

  /**
   * `s.split(/\s+/)`: the pieces between maximal whitespace runs. A leading
   * or trailing run yields an empty first or last piece, and "" splits to [""].
   */
  function SplitOnSpaces(s: string): (r: seq<string>)
    ensures |r| >= 1
    ensures forall k :: 0 <= k < |r| ==> NoSpace(r[k])
    decreases |s|
  {
    var i := FirstSpace(s);
    if i == |s| then [s]
    else
      var j := SpaceRunEnd(s, i);
      [s[..i]] + SplitOnSpaces(s[j..])
  }

  /** The characters of `s` that are not whitespace, in order. */
  function RemoveSpaces(s: string): string
  {
    if s == [] then [] else (if IsSpace(s[0]) then [] else [s[0]]) + RemoveSpaces(s[1..])
  }

  function Concat(ts: seq<string>): string
  {
    if ts == [] then [] else ts[0] + Concat(ts[1..])
  }

  lemma {:induction false} RemoveSpacesAppend(a: string, b: string)
    ensures RemoveSpaces(a + b) == RemoveSpaces(a) + RemoveSpaces(b)
  {
    if a != [] {
      assert (a + b)[1..] == a[1..] + b;
      RemoveSpacesAppend(a[1..], b);
    } else {
      assert a + b == b;
    }
  }

  lemma {:induction false} RemoveSpacesOfNoSpace(s: string)
    requires NoSpace(s)
    ensures RemoveSpaces(s) == s
  {
    if s != [] {
      RemoveSpacesOfNoSpace(s[1..]);
    }
  }

  lemma {:induction false} RemoveSpacesOfAllSpace(s: string)
    requires AllSpace(s)
    ensures RemoveSpaces(s) == ""
  {
    if s != [] {
      RemoveSpacesOfAllSpace(s[1..]);
    }
  }

  lemma RemovesSpacesAroundRun(s: string, i: nat, j: nat)
    requires i <= j <= |s|
    requires NoSpace(s[..i]) && AllSpace(s[i..j])
    ensures RemoveSpaces(s) == s[..i] + RemoveSpaces(s[j..])
  {
    assert s == (s[..i] + s[i..j]) + s[j..];
    RemoveSpacesAppend(s[..i] + s[i..j], s[j..]);
    RemoveSpacesAppend(s[..i], s[i..j]);
    RemoveSpacesOfNoSpace(s[..i]);
    RemoveSpacesOfAllSpace(s[i..j]);
  }

  /** Splitting loses exactly the whitespace: the pieces, put back together, are the input without its whitespace. */
  lemma {:induction false} SplitOnSpacesLosesOnlySpaces(s: string)
    ensures Concat(SplitOnSpaces(s)) == RemoveSpaces(s)
    decreases |s|
  {
    var i := FirstSpace(s);
    if i == |s| {
      RemoveSpacesOfNoSpace(s);
    } else {
      var j := SpaceRunEnd(s, i);
      var head, run, tail := s[..i], s[i..j], s[j..];
      var r := SplitOnSpaces(s);
      assert r == [head] + SplitOnSpaces(tail);
      assert Concat(r) == head + Concat(SplitOnSpaces(tail));
      SplitOnSpacesLosesOnlySpaces(tail);
      RemovesSpacesAroundRun(s, i, j);
    }
  }

  /** Splitting a string without upper-case letters gives pieces without upper-case letters. */
  lemma {:induction false} SplitOnSpacesNoUpper(s: string)
    requires NoUpper(s)
    ensures forall k :: 0 <= k < |SplitOnSpaces(s)| ==> NoUpper(SplitOnSpaces(s)[k])
    decreases |s|
  {
    var i := FirstSpace(s);
    if i < |s| {
      var j := SpaceRunEnd(s, i);
      assert forall k :: 0 <= k < |s| - j ==> s[j..][k] == s[j + k];
      SplitOnSpacesNoUpper(s[j..]);
    }
  }

  /** `pieces[0] + seps[0] + pieces[1] + ... + seps[n - 1] + pieces[n]`. */
  function Interleave(pieces: seq<string>, seps: seq<string>): string
    requires |pieces| == |seps| + 1
    decreases |seps|
  {
    if seps == [] then pieces[0] else pieces[0] + seps[0] + Interleave(pieces[1..], seps[1..])
  }

  /** One step of the split: the first piece, then the whitespace run after it, then the split of the rest. */
  lemma SplitStep(s: string) returns (i: nat, j: nat)
    requires FirstSpace(s) < |s|
    ensures i < j <= |s| && i == FirstSpace(s) && j == SpaceRunEnd(s, i)
    ensures SplitOnSpaces(s) == [s[..i]] + SplitOnSpaces(s[j..])
    ensures s == s[..i] + s[i..j] + s[j..]
    ensures AllSpace(s[i..j])
    ensures j < |s| ==> !IsSpace(s[j..][0])
  {
    i := FirstSpace(s);
    j := SpaceRunEnd(s, i);
    var run := s[i..j];
    forall k | 0 <= k < |run| ensures IsSpace(run[k]) {
      assert run[k] == s[i + k];
    }
  }

  /**
   * Where `split(/\s+/)` cuts: the pieces, with the non-empty whitespace runs
   * `seps` put back between them, give the input again; since no piece holds
   * whitespace, the runs are maximal, and only the first and the last piece
   * can be empty.
   */
  lemma {:induction false} SplitOnSpacesCuts(s: string) returns (seps: seq<string>)
    ensures |seps| + 1 == |SplitOnSpaces(s)|
    ensures forall k :: 0 <= k < |seps| ==> seps[k] != "" && AllSpace(seps[k])
    ensures Interleave(SplitOnSpaces(s), seps) == s
    ensures forall k :: 0 < k < |seps| ==> SplitOnSpaces(s)[k] != ""
    decreases |s|
  {
    if FirstSpace(s) == |s| {
      seps := [];
    } else {
      var i, j := SplitStep(s);
      var tail := s[j..];
      var rest := SplitOnSpacesCuts(tail);
      seps := [s[i..j]] + rest;
      var r := SplitOnSpaces(s);
      var rt := SplitOnSpaces(tail);
      assert r[0] == s[..i] && r[1..] == rt && seps[0] == s[i..j] && seps[1..] == rest;
      assert Interleave(r, seps) == s[..i] + s[i..j] + Interleave(rt, rest);
      if rest != [] {
        assert FirstSpace(tail) < |tail|;
        assert FirstSpace(tail) > 0;
        assert rt[0] == tail[..FirstSpace(tail)];
      }
      assert forall k :: 0 < k < |seps| ==> r[k] == rt[k - 1];
    }
  }
}
