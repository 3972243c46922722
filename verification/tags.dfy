/** The tag codec of the chat protocol: the assistant's reply carries its
    parts inside pseudo-XML tags (`<r>…</r>`, `<gen>…</gen>`, …), and the
    server reads back the first `<t>…</t>` pair of each tag name.

    The source matches the pattern `<t>(.*?)</t>` with a dot that also
    matches newlines and keeps the first match. A lazy group with fixed
    delimiters matches exactly from the first `<t>` to the first `</t>`
    after it, so the search is written here as two `FindFrom` calls. */
module Tags {
  import opened Basics
  import opened Text

  /** The tag names the chat route decodes. */
  const DefaultTags: seq<string> := ["p", "g", "r", "gr", "cls", "gen"]

  function Open(t: string): string { "<" + t + ">" }

  function Close(t: string): string { "</" + t + ">" }

  /** Tag names never contain '<' (the protocol's names are plain words). */
  predicate TagName(t: string)
  {
    '<' !in t
  }

  lemma TagsAreTagShaped(t: string)
    requires TagName(t)
    ensures TagShaped(Open(t)) && TagShaped(Close(t))
  {
    forall i | 1 <= i < |Open(t)| ensures Open(t)[i] != '<' {
      if i <= |t| { assert Open(t)[i] == t[i - 1]; }
    }
    forall i | 1 <= i < |Close(t)| ensures Close(t)[i] != '<' {
      if 2 <= i <= |t| + 1 { assert Close(t)[i] == t[i - 2]; }
    }
  }

  /** The opening pattern `o` is first found at `i` (at or after `from`),
      and the closing pattern `c` is first found at `j`, at or after the end
      of that opening. */
  ghost predicate FirstPair(s: string, o: string, c: string, from: nat, i: int, j: int)
  {
    && from <= i && OccursAt(s, o, i)
    && (forall k :: from <= k < i ==> !OccursAt(s, o, k))
    && i + |o| <= j && OccursAt(s, c, j)
    && (forall k :: i + |o| <= k < j ==> !OccursAt(s, c, k))
  }

  /** One lazy match of `o(.*?)c` with the search starting at `from`: the
      text between the delimiters and the index just after the closing one. */
  function Scan(s: string, o: string, c: string, from: nat): (r: Option<(string, nat)>)
    ensures r.Some? <==> exists i, j :: FirstPair(s, o, c, from, i, j)
    ensures forall i, j :: FirstPair(s, o, c, from, i, j) ==>
              r == Some((s[i + |o|..j], j + |c|))
    ensures r.Some? && c != [] ==> from < r.value.1 <= |s|
  {
    var i := FindFrom(s, o, from);
    if i.None? then None
    else
      var j := FindFrom(s, c, i.value + |o|);
      if j.None? then None
      else
        assert FirstPair(s, o, c, from, i.value, j.value);
        Some((s[i.value + |o|..j.value], j.value + |c|))
  }

  /** The scan is determined by where the two searches land. */
  lemma ScanFound(s: string, o: string, c: string, from: nat, i: nat, x: string)
    requires FindFrom(s, o, from) == Some(i)
    requires FindFrom(s, c, i + |o|) == Some(i + |o| + |x|)
    requires s[i + |o|..i + |o| + |x|] == x
    ensures Scan(s, o, c, from).Some?
    ensures Scan(s, o, c, from).value.0 == x && Scan(s, o, c, from).value.1 == i + |o| + |x| + |c|
  {
  }

  /** A scan from `from` returns `x` when `o x c` is written at `i`, no
      earlier `o` follows `from` and `x` holds no `c`. */
  lemma ScanLands(s: string, o: string, c: string, from: nat, i: nat, x: string)
    requires TagShaped(o) && TagShaped(c)
    requires from <= i && OccursAt(s, o, i)
    requires forall k :: from <= k && k + |o| <= i ==> !OccursAt(s, o, k)
    requires i + |o| + |x| <= |s| && s[i + |o|..i + |o| + |x|] == x
    requires OccursAt(s, c, i + |o| + |x|)
    requires forall k :: i + |o| <= k && k + |c| <= i + |o| + |x| ==> !OccursAt(s, c, k)
    ensures Scan(s, o, c, from).Some?
    ensures Scan(s, o, c, from).value.0 == x && Scan(s, o, c, from).value.1 == i + |o| + |x| + |c|
  {
    FindAt(s, o, from, i);
    FindAt(s, c, i + |o|, i + |o| + |x|);
    ScanFound(s, o, c, from, i, x);
  }

  /** Where the pieces of `base + gap + o + x + c + rest` sit. */
  lemma PairLayout(base: string, gap: string, o: string, x: string, c: string, rest: string)
    requires forall k :: !OccursAt(gap, o, k)
    requires forall k :: !OccursAt(x, c, k)
    ensures var s := base + gap + o + x + c + rest;
      && OccursAt(s, o, |base| + |gap|)
      && (forall k :: |base| <= k && k + |o| <= |base| + |gap| ==> !OccursAt(s, o, k))
      && s[|base| + |gap| + |o|..|base| + |gap| + |o| + |x|] == x
      && OccursAt(s, c, |base| + |gap| + |o| + |x|)
      && (forall k :: |base| + |gap| + |o| <= k && k + |c| <= |base| + |gap| + |o| + |x|
            ==> !OccursAt(s, c, k))
  {
    var s := base + gap + o + x + c + rest;
    var i := |base| + |gap|;
    var j := i + |o| + |x|;
    assert s[i..i + |o|] == o;
    assert s[i + |o|..j] == x;
    assert s[j..j + |c|] == c;
    forall k | |base| <= k && k + |o| <= i ensures !OccursAt(s, o, k) {
      assert s[k..k + |o|] == gap[k - |base|..k - |base| + |o|];
      assert !OccursAt(gap, o, k - |base|);
    }
    forall k | i + |o| <= k && k + |c| <= j ensures !OccursAt(s, c, k) {
      assert s[k..k + |c|] == x[k - i - |o|..k - i - |o| + |c|];
      assert !OccursAt(x, c, k - i - |o|);
    }
  }

  /** Encoding then decoding: a pair written as `o x c` after any text free
      of `o` is found by the scan, provided `x` holds no `c` (other tags
      inside `x` are kept verbatim). */
  lemma ScanAt(base: string, gap: string, o: string, x: string, c: string, rest: string)
    requires TagShaped(o) && TagShaped(c)
    requires forall k :: !OccursAt(gap, o, k)
    requires forall k :: !OccursAt(x, c, k)
    ensures var m := Scan(base + gap + o + x + c + rest, o, c, |base|);
      m.Some? && m.value.0 == x && m.value.1 == |base| + |gap| + |o| + |x| + |c|
  {
    PairLayout(base, gap, o, x, c, rest);
    ScanLands(base + gap + o + x + c + rest, o, c, |base|, |base| + |gap|, x);
  }

  /** The value `extract_tags` stores for tag `t`: the stripped text of the
      first pair, or `None` when there is no complete pair. */
  function ExtractTag(s: string, t: string): (r: Option<string>)
    ensures r.Some? <==> exists i, j :: FirstPair(s, Open(t), Close(t), 0, i, j)
    ensures forall i, j :: FirstPair(s, Open(t), Close(t), 0, i, j) ==>
              r == Some(Strip(s[i + |Open(t)|..j]))
    ensures (forall k :: !OccursAt(s, Open(t), k)) ==> r == None
  {
    var m := Scan(s, Open(t), Close(t), 0);
    if m.None? then None else Some(Strip(m.value.0))
  }

  /** `extract_tags(response, tags)`: one entry per requested tag. */
  method ExtractTags(response: string, tags: seq<string>) returns (extracted: map<string, Option<string>>)
    ensures extracted.Keys == set t | t in tags
    ensures forall t :: t in tags ==> extracted[t] == ExtractTag(response, t)
  {
    extracted := map[];
    for n := 0 to |tags|
      invariant extracted.Keys == set t | t in tags[..n]
      invariant forall t :: t in tags[..n] ==> extracted[t] == ExtractTag(response, t)
    {
      assert tags[..n + 1] == tags[..n] + [tags[n]];
      extracted := extracted[tags[n] := ExtractTag(response, tags[n])];
    }
    assert tags[..|tags|] == tags;
  }

  /** The reply decodes to the content of its first pair, stripped. */
  lemma DecodeFirst(pre: string, t: string, x: string, post: string)
    requires TagName(t)
    requires forall k :: !OccursAt(pre, Open(t), k)
    requires forall k :: !OccursAt(x, Close(t), k)
    ensures ExtractTag(pre + Open(t) + x + Close(t) + post, t) == Some(Strip(x))
  {
    TagsAreTagShaped(t);
    ScanAt("", pre, Open(t), x, Close(t), post);
    assert "" + pre == pre;
  }
}
