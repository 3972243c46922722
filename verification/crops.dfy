/** The crop extractor: the recommendation pipeline's second reply lists
    crops as runs of five tag pairs,

      <crop>…</crop> <description>…</description> <challenges>…</challenges>
      <survivability>…</survivability> <reasons>…</reasons>

    and `extractCropsInfo` turns every run into a record keyed by the crop's
    name.

    The source matches one verbose, dot-matches-newline pattern whose five
    lazy groups are separated by lazy gaps, and collects all matches. Each
    lazy step takes the earliest position that lets the rest match, and
    every later choice only moves the remaining search to the right; so a
    match exists from a position exactly when the chain of first-occurrence
    searches `<crop>`, `</crop>`, `<description>`, … succeeds from it, and
    then it is that chain. `findall` resumes after the end of each match. */
module Crops {
  import opened Basics
  import opened Text
  import opened Tags

  /** The tag names of one run, in the pattern's order. */
  const Fields: seq<string> := ["crop", "description", "challenges", "survivability", "reasons"]

  lemma FieldsAreTagNames()
    ensures |Fields| == 5
    ensures forall i :: 0 <= i < |Fields| ==> TagName(Fields[i])
  {
  }

  // ---------------------------------------------------------------------
  // The sweep

  /** One lazy pair per tag of `tags`, each searched from the end of the
      previous one: the captured texts and the index after the last pair. */
  function Chain(s: string, tags: seq<string>, from: nat): (r: Option<(seq<string>, nat)>)
    ensures r.Some? ==> |r.value.0| == |tags| && from <= r.value.1
    ensures r.Some? && tags != [] ==> from < r.value.1 <= |s|
    decreases |tags|, from
  {
    if tags == [] then Some(([], from))
    else
      match Scan(s, Open(tags[0]), Close(tags[0]), from)
      case None => None
      case Some((x, e)) =>
        match Chain(s, tags[1..], e)
        case None => None
        case Some((xs, e')) => Some(([x] + xs, e'))
  }

  /** The five groups captured by one match. */
  datatype RawBlock = RawBlock(
    name: string, description: string, challenges: string, survivability: string, reasons: string)

  function Groups(b: RawBlock): seq<string>
  {
    [b.name, b.description, b.challenges, b.survivability, b.reasons]
  }

  lemma GroupsOf(g: seq<string>)
    requires |g| == 5
    ensures Groups(RawBlock(g[0], g[1], g[2], g[3], g[4])) == g
  {
  }

  /** The first match at or after `from`, and where the search resumes. */
  function NextBlock(s: string, from: nat): (r: Option<(RawBlock, nat)>)
    ensures r.Some? ==> from < r.value.1 <= |s|
  {
    var c := Chain(s, Fields, from);
    if c.None? then None
    else
      var g := c.value.0;
      assert |g| == 5;
      GroupsOf(g);
      Some((RawBlock(g[0], g[1], g[2], g[3], g[4]), c.value.1))
  }

  /** A match is a successful chain, its groups named in the pattern's order. */
  lemma NextBlockChain(s: string, from: nat)
    ensures NextBlock(s, from).None? <==> Chain(s, Fields, from).None?
    ensures NextBlock(s, from).Some? ==>
              && Chain(s, Fields, from).value.0 == Groups(NextBlock(s, from).value.0)
              && Chain(s, Fields, from).value.1 == NextBlock(s, from).value.1
  {
    var c := Chain(s, Fields, from);
    if c.Some? {
      GroupsOf(c.value.0);
    }
  }

  /** No match starts at the end of the reply. */
  lemma NoBlockAtEnd(s: string)
    ensures NextBlock(s, |s|).None?
  {
    assert FindFrom(s, Open(Fields[0]), |s|).None?;
  }

  /** `re.findall` of the crop pattern on `s[from..]`. */
  function Blocks(s: string, from: nat): (r: seq<RawBlock>)
    decreases |s| - from
  {
    match NextBlock(s, from)
    case None => []
    case Some((b, e)) => [b] + Blocks(s, e)
  }

  // ---------------------------------------------------------------------
  // Writing runs (the format the formatting prompt asks the model for)

  function RenderChain(tags: seq<string>, xs: seq<string>): string
    requires |xs| == |tags|
    decreases |xs|
  {
    if tags == [] then "" else Open(tags[0]) + xs[0] + Close(tags[0]) + RenderChain(tags[1..], xs[1..])
  }

  function RenderBlock(b: RawBlock): string
  {
    RenderChain(Fields, Groups(b))
  }

  function RenderAll(bs: seq<RawBlock>): string
  {
    if bs == [] then "" else RenderBlock(bs[0]) + RenderAll(bs[1..])
  }

  /** A group can be read back when it holds no closing tag of its own name. */
  ghost predicate Encodable(b: RawBlock)
  {
    forall i, k :: 0 <= i < 5 ==> !OccursAt(Groups(b)[i], Close(Fields[i]), k)
  }

  /** Where the parts of one written pair `o x c` followed by `tail` sit,
      when the whole is written at `p` in `s`. */
  lemma PairAt(s: string, p: nat, o: string, x: string, c: string, tail: string)
    requires p + |o + x + c + tail| <= |s| && s[p..p + |o + x + c + tail|] == o + x + c + tail
    requires forall k :: !OccursAt(x, c, k)
    ensures OccursAt(s, o, p)
    ensures s[p + |o|..p + |o| + |x|] == x
    ensures OccursAt(s, c, p + |o| + |x|)
    ensures forall k :: p + |o| <= k && k + |c| <= p + |o| + |x| ==> !OccursAt(s, c, k)
    ensures s[p + |o| + |x| + |c|..p + |o| + |x| + |c| + |tail|] == tail
  {
    var i, j := |o|, |o| + |x|;
    FourPieces(s, p, o, x, c, tail);
    forall k | p + i <= k && k + |c| <= p + j ensures !OccursAt(s, c, k) {
      SubSlice(s, p + i, x, k - p - i, k - p - i + |c|);
      assert !OccursAt(x, c, k - p - i);
    }
  }

  /** A written chain is read back by the chain of searches. */
  lemma {:induction false} ChainRendered(s: string, p: nat, tags: seq<string>, xs: seq<string>)
    requires |xs| == |tags|
    requires forall i :: 0 <= i < |tags| ==> TagName(tags[i])
    requires forall i, k :: 0 <= i < |tags| ==> !OccursAt(xs[i], Close(tags[i]), k)
    requires p + |RenderChain(tags, xs)| <= |s| && s[p..p + |RenderChain(tags, xs)|] == RenderChain(tags, xs)
    ensures Chain(s, tags, p).Some?
    ensures Chain(s, tags, p).value.0 == xs && Chain(s, tags, p).value.1 == p + |RenderChain(tags, xs)|
    decreases |tags|
  {
    if tags != [] {
      var tail := RenderChain(tags[1..], xs[1..]);
      var p' := p + |RenderChain(tags, xs)| - |tail|;
      HeadRendered(s, p, tags[0], xs[0], tail);
      ChainRendered(s, p', tags[1..], xs[1..]);
      ChainStep(s, tags, p, xs[0], p', xs[1..], p' + |tail|);
      ConsTail(xs);
    }
  }

  /** The first pair of a written chain is found by the first search, which
      stops where the rest of the chain is written. */
  lemma HeadRendered(s: string, p: nat, tag: string, x: string, tail: string)
    requires TagName(tag)
    requires forall k :: !OccursAt(x, Close(tag), k)
    requires var w := Open(tag) + x + Close(tag) + tail; p + |w| <= |s| && s[p..p + |w|] == w
    ensures var e := p + |Open(tag)| + |x| + |Close(tag)|;
      && Scan(s, Open(tag), Close(tag), p).Some?
      && Scan(s, Open(tag), Close(tag), p).value.0 == x
      && Scan(s, Open(tag), Close(tag), p).value.1 == e
      && e + |tail| <= |s| && s[e..e + |tail|] == tail
  {
    var o, c := Open(tag), Close(tag);
    PairAt(s, p, o, x, c, tail);
    TagsAreTagShaped(tag);
    ScanLands(s, o, c, p, p, x);
  }

  /** One step of the chain: the first pair, then the rest from its end. */
  lemma ChainStep(s: string, tags: seq<string>, from: nat, x: string, e: nat, xs: seq<string>, e': nat)
    requires tags != []
    requires Scan(s, Open(tags[0]), Close(tags[0]), from).Some?
    requires Scan(s, Open(tags[0]), Close(tags[0]), from).value.0 == x
    requires Scan(s, Open(tags[0]), Close(tags[0]), from).value.1 == e
    requires Chain(s, tags[1..], e).Some? && Chain(s, tags[1..], e).value.0 == xs
    requires Chain(s, tags[1..], e).value.1 == e'
    ensures Chain(s, tags, from).Some?
    ensures Chain(s, tags, from).value.0 == [x] + xs && Chain(s, tags, from).value.1 == e'
  {
  }

  /** Successive searches from `p` find the runs `bs` in order, and
      nothing after the last. */
  ghost predicate FoundFrom(s: string, p: nat, bs: seq<RawBlock>)
    decreases |bs|
  {
    var nb := NextBlock(s, p);
    if bs == [] then nb.None?
    else nb.Some? && nb.value.0 == bs[0] && FoundFrom(s, nb.value.1, bs[1..])
  }

  /** `findall` returns exactly the runs the successive searches find. */
  lemma {:induction false} BlocksFound(s: string, p: nat, bs: seq<RawBlock>)
    requires FoundFrom(s, p, bs)
    ensures Blocks(s, p) == bs
    decreases |bs|
  {
    if bs != [] {
      var e := NextBlock(s, p).value.1;
      BlocksStep(s, p, bs[0], e);
      BlocksFound(s, e, bs[1..]);
      ConsEqual(Blocks(s, p), bs[0], Blocks(s, e), bs);
    }
  }

  /** Runs written one after another, up to the end of the reply, are
      found by the successive searches. */
  lemma {:induction false} WrittenIsFound(s: string, p: nat, bs: seq<RawBlock>)
    requires AllEncodable(bs)
    requires p <= |s| && s[p..] == RenderAll(bs)
    ensures FoundFrom(s, p, bs)
    decreases |bs|
  {
    if bs == [] {
      NoBlockAtEnd(s);
    } else {
      var w := RenderBlock(bs[0]);
      SuffixSplit(s, p, w, RenderAll(bs[1..]));
      NextRendered(s, p, bs[0]);
      WrittenIsFound(s, p + |w|, bs[1..]);
      FoundCons(s, p, bs, p + |w|);
    }
  }

  lemma FoundCons(s: string, p: nat, bs: seq<RawBlock>, e: nat)
    requires bs != [] && NextBlock(s, p).Some? && NextBlock(s, p).value.0 == bs[0]
    requires NextBlock(s, p).value.1 == e && FoundFrom(s, e, bs[1..])
    ensures FoundFrom(s, p, bs)
  {
  }

  ghost predicate AllEncodable(bs: seq<RawBlock>)
    decreases |bs|
  {
    bs != [] ==> Encodable(bs[0]) && AllEncodable(bs[1..])
  }

  /** One written run is the next match. */
  lemma NextRendered(s: string, p: nat, b: RawBlock)
    requires Encodable(b)
    requires p + |RenderBlock(b)| <= |s| && s[p..p + |RenderBlock(b)|] == RenderBlock(b)
    ensures NextBlock(s, p).Some? && NextBlock(s, p).value.0 == b
    ensures NextBlock(s, p).value.1 == p + |RenderBlock(b)|
  {
    FieldsAreTagNames();
    var w := RenderBlock(b);
    assert w == RenderChain(Fields, Groups(b));
    ChainRendered(s, p, Fields, Groups(b));
    NextBlockChain(s, p);
    var nb := NextBlock(s, p);
    assert nb.Some?;
    assert nb.value.1 == p + |w|;
    GroupsInjective(nb.value.0, b);
  }

  lemma GroupsInjective(a: RawBlock, b: RawBlock)
    requires Groups(a) == Groups(b)
    ensures a == b
  {
    assert a.name == Groups(a)[0] && a.description == Groups(a)[1] && a.challenges == Groups(a)[2];
    assert a.survivability == Groups(a)[3] && a.reasons == Groups(a)[4];
  }

  /** `findall` takes the first match and resumes after it. */
  lemma BlocksStep(s: string, p: nat, b: RawBlock, e: nat)
    requires NextBlock(s, p).Some? && NextBlock(s, p).value.0 == b && NextBlock(s, p).value.1 == e
    ensures Blocks(s, p) == [b] + Blocks(s, e)
  {
  }

  // ---------------------------------------------------------------------
  // Cleaning one run

  /** The characters of `line.strip("- ")`. */
  predicate IsBulletPad(c: char)
  {
    c == '-' || c == ' '
  }

  /** One list entry: `line.strip("- ").strip()`. */
  function CleanLine(line: string): string
  {
    Strip(StripBy(line, IsBulletPad))
  }

  /** The list comprehension over lines: lines that are not blank, each cleaned. */
  function Bullets(lines: seq<string>): (r: seq<string>)
    ensures |r| <= |lines|
  {
    if lines == [] then []
    else
      var rest := Bullets(lines[1..]);
      if Strip(lines[0]) != "" then [CleanLine(lines[0])] + rest else rest
  }

  /** The comprehension keeps the order of the lines. */
  lemma {:induction false} BulletsAppend(a: seq<string>, b: seq<string>)
    ensures Bullets(a + b) == Bullets(a) + Bullets(b)
    decreases |a|
  {
    if a == [] {
      assert a + b == b;
    } else {
      BulletsAppend(a[1..], b);
      DropConcat(a, b);
    }
  }

  /** The entries of a challenges or reasons group. */
  function CleanEntries(g: string): seq<string>
  {
    Bullets(Split(g, '\n'))
  }

  /** An entry written as its own line "- e" is read back unchanged, when it
      neither begins nor ends with '-' or whitespace. */
  predicate PlainEntry(e: string)
  {
    && e != [] && '\n' !in e
    && !IsBulletPad(e[0]) && !IsBulletPad(e[|e| - 1])
    && !IsSpace(e[0]) && !IsSpace(e[|e| - 1])
  }

  function BulletLines(es: seq<string>): (r: seq<string>)
    ensures |r| == |es|
  {
    if es == [] then [] else ["- " + es[0]] + BulletLines(es[1..])
  }

  lemma CleanBullet(e: string)
    requires PlainEntry(e)
    ensures Strip("- " + e) != "" && CleanLine("- " + e) == e
  {
    StripByFrame("- ", e, "", IsBulletPad);
    assert "- " + e + "" == "- " + e;
    StripByNoop(e, IsSpace);
    var s := "- " + e;
    assert s[0] == '-' && s[|s| - 1] == e[|e| - 1];
    StripByNoop(s, IsSpace);
  }

  /** Entries written one per line as "- e" and joined by newlines are
      read back by the cleaning, in order. */
  lemma {:induction false} BulletsRoundTrip(es: seq<string>)
    requires es != []
    requires forall i :: 0 <= i < |es| ==> PlainEntry(es[i])
    ensures CleanEntries(Join(BulletLines(es), "\n")) == es
  {
    var lines := BulletLines(es);
    forall i | 0 <= i < |lines| ensures '\n' !in lines[i] {
      BulletLineAt(es, i);
      assert lines[i] == "- " + es[i];
      assert '\n' !in es[i];
    }
    assert "\n" == ['\n'];
    SplitJoin(lines, '\n');
    BulletsOfLines(es);
  }

  lemma {:induction false} BulletLineAt(es: seq<string>, i: nat)
    requires i < |es|
    ensures BulletLines(es)[i] == "- " + es[i]
    decreases i
  {
    if i > 0 {
      BulletLineAt(es[1..], i - 1);
    }
  }

  lemma {:induction false} BulletsOfLines(es: seq<string>)
    requires forall i :: 0 <= i < |es| ==> PlainEntry(es[i])
    ensures Bullets(BulletLines(es)) == es
    decreases |es|
  {
    if es != [] {
      CleanBullet(es[0]);
      BulletsOfLines(es[1..]);
      assert BulletLines(es)[1..] == BulletLines(es[1..]);
      ConsTail(es);
    }
  }

  /** A line holding only a dash is not blank, so it yields an empty entry. */
  lemma DashLineGivesEmptyEntry()
    ensures Bullets(["-"]) == [""]
  {
    var d := "-";
    assert d[0] == '-' && |d| == 1;
    assert !IsSpace(d[0]);
    StripByNoop(d, IsSpace);
    assert StripBy(d, IsBulletPad) == "" by {
      assert IsTrimOf(d, "", 1, IsBulletPad);
      StripByTrims(d, IsBulletPad);
      TrimUnique(d, StripBy(d, IsBulletPad), SkipLeft(d, IsBulletPad, 0), "", 1, IsBulletPad);
    }
    StripByNoop("", IsSpace);
  }

  // ---------------------------------------------------------------------
  // Survivability

  predicate IsPercent(c: char)
  {
    c == '%'
  }

  /** `float(text.strip("%").strip())`; `None` where `float` raises. */
  function ParseSurvivability(text: string): Option<real>
  {
    ParseFloat(Strip(StripBy(text, IsPercent)))
  }

  /** A whole percentage written as digits and '%' reads back as its value. */
  lemma PercentRoundTrip(n: nat)
    ensures ParseSurvivability(NatToDecimal(n) + "%") == Some(n as real)
  {
    var d := NatToDecimal(n);
    assert IsDigit(d[0]) && IsDigit(d[|d| - 1]);
    StripByFrame("", d, "%", IsPercent);
    assert "" + d + "%" == d + "%";
    StripByNoop(d, IsSpace);
    DecimalRoundTrip(n);
  }

  /** The '%' is stripped before the whitespace, so a padded percentage
      keeps its '%' and does not parse. */
  lemma PaddedPercentFails()
    ensures ParseSurvivability(" 20% ") == None
  {
    var t := " 20% ";
    assert t[0] == ' ' && t[4] == ' ' && |t| == 5;
    StripByNoop(t, IsPercent);
    var u := "20%";
    assert u[0] == '2' && u[2] == '%' && |u| == 3;
    StripByFrame(" ", u, " ", IsSpace);
    assert " " + u + " " == t;
    assert u[0] != '-' && u[0] != '+';
    assert u[..0] == "" && u[1..] == "0%";
    assert !AllDigits(u) by { assert !IsDigit(u[2]); }
    forall k | 0 <= k && k + 1 <= |u| ensures !OccursAt(u, ".", k) {
      assert u[k..k + 1][0] == u[k];
    }
  }

  // ---------------------------------------------------------------------
  // Records

  /** The record stored for one crop. */
  datatype CropInfo = CropInfo(description: string, survivability: real, reasons: seq<string>, challenges: seq<string>)

  /** The record of one match; `None` when its survivability does not parse. */
  function ToInfo(b: RawBlock): (r: Option<CropInfo>)
    ensures r.Some? <==> ParseSurvivability(b.survivability).Some?
  {
    match ParseSurvivability(b.survivability)
    case None => None
    case Some(v) =>
      Some(CropInfo(Strip(b.description), v, CleanEntries(b.reasons), CleanEntries(b.challenges)))
  }

  /** The groups of a run as the formatting prompt asks the model to write
      a record: the description as it is, each list entry on its own
      `- e` line, and the survivability as a whole percentage. */
  function Written(name: string, c: CropInfo, n: nat): RawBlock
  {
    RawBlock(name, c.description, Join(BulletLines(c.challenges), "\n"), NatToDecimal(n) + "%",
             Join(BulletLines(c.reasons), "\n"))
  }

  /** A record that survives being written: a stripped description, plain
      entries and a whole-percentage survivability. */
  predicate Recordable(c: CropInfo, n: nat)
  {
    && Strip(c.description) == c.description
    && c.survivability == n as real
    && (forall i :: 0 <= i < |c.reasons| ==> PlainEntry(c.reasons[i]))
    && (forall i :: 0 <= i < |c.challenges| ==> PlainEntry(c.challenges[i]))
  }

  /** Plain entries written one per line are read back, none from none. */
  lemma EntriesRoundTrip(es: seq<string>)
    requires forall i :: 0 <= i < |es| ==> PlainEntry(es[i])
    ensures CleanEntries(Join(BulletLines(es), "\n")) == es
  {
    if es == [] {
      assert Join(BulletLines(es), "\n") == "";
      assert Split("", '\n') == [""];
      StripByNoop("", IsSpace);
    } else {
      BulletsRoundTrip(es);
    }
  }

  /** A record written as a run is read back as that record: the stripped
      description, the parsed survivability, and the cleaned entries in
      order. */
  lemma RecordRoundTrip(name: string, c: CropInfo, n: nat)
    requires Recordable(c, n)
    ensures ToInfo(Written(name, c, n)) == Some(c)
  {
    PercentRoundTrip(n);
    EntriesRoundTrip(c.reasons);
    EntriesRoundTrip(c.challenges);
  }

  /** The key of one match. */
  function Name(b: RawBlock): string
  {
    Strip(b.name)
  }

  /** Each match as the key and the record the loop stores for it. */
  function Entries(bs: seq<RawBlock>): (r: seq<(string, Option<CropInfo>)>)
    ensures |r| == |bs|
    ensures forall i :: 0 <= i < |bs| ==> r[i] == (Name(bs[i]), ToInfo(bs[i]))
  {
    seq(|bs|, i requires 0 <= i < |bs| => (Name(bs[i]), ToInfo(bs[i])))
  }

  /** The dict a loop of `d[key] = value` builds, in order; `None` where a
      value could not be computed and the loop raised. */
  function Assemble<V>(es: seq<(string, Option<V>)>): (r: Option<map<string, V>>)
    ensures r.None? <==> exists i :: 0 <= i < |es| && es[i].1.None?
    decreases |es|
  {
    if es == [] then Some(map[])
    else
      var front := es[..|es| - 1];
      var last := es[|es| - 1];
      assert forall i :: 0 <= i < |front| ==> front[i] == es[i];
      match Assemble(front)
      case None => None
      case Some(m) =>
        match last.1
        case None => None
        case Some(v) => Some(m[last.0 := v])
  }

  /** The keys are those of the entries. */
  lemma {:induction false} AssembleKeys<V>(es: seq<(string, Option<V>)>)
    requires Assemble(es).Some?
    ensures forall key :: key in Assemble(es).value <==> exists i :: 0 <= i < |es| && es[i].0 == key
    decreases |es|
  {
    if es != [] {
      var front := es[..|es| - 1];
      assert forall i :: 0 <= i < |front| ==> front[i] == es[i];
      AssembleKeys(front);
    }
  }

  /** A repeated key keeps the value of its last entry. */
  lemma {:induction false} AssembleLastWins<V>(es: seq<(string, Option<V>)>, i: nat)
    requires Assemble(es).Some? && i < |es|
    requires forall j :: i < j < |es| ==> es[j].0 != es[i].0
    ensures es[i].0 in Assemble(es).value && es[i].1.Some?
    ensures Assemble(es).value[es[i].0] == es[i].1.value
    decreases |es|
  {
    var front := es[..|es| - 1];
    assert forall k :: 0 <= k < |front| ==> front[k] == es[k];
    if i < |es| - 1 {
      AssembleLastWins(front, i);
    }
  }

  lemma AssembleStep<V>(es: seq<(string, Option<V>)>, n: nat, acc: map<string, V>)
    requires n < |es| && Assemble(es[..n]) == Some(acc) && es[n].1.Some?
    ensures Assemble(es[..n + 1]) == Some(acc[es[n].0 := es[n].1.value])
  {
    assert es[..n + 1][..n] == es[..n];
  }

  lemma AssembleStops<V>(es: seq<(string, Option<V>)>, n: nat)
    requires n < |es| && es[n].1.None?
    ensures Assemble(es) == None
  {
  }

  /** The spec of `extractCropsInfo`: every match of the reply, collected. */
  function CropsOf(s: string): Option<map<string, CropInfo>>
  {
    Assemble(Entries(Blocks(s, 0)))
  }

  /** A reply without any `<crop>` gives the empty dict. */
  lemma NoCropNoEntries(s: string)
    requires forall k :: !OccursAt(s, Open("crop"), k)
    ensures Blocks(s, 0) == []
    ensures CropsOf(s) == Some(map[])
  {
    assert Scan(s, Open("crop"), Close("crop"), 0) == None;
  }

  /** Runs written by `RenderAll` are read back: one entry per distinct
      name, the last run of each name winning. */
  lemma RenderedCropsRead(bs: seq<RawBlock>)
    requires AllEncodable(bs)
    ensures CropsOf(RenderAll(bs)) == Assemble(Entries(bs))
  {
    var s := RenderAll(bs);
    assert s[0..] == s;
    WrittenIsFound(s, 0, bs);
    BlocksFound(s, 0, bs);
  }

  /** Records written as runs are read back by `extractCropsInfo`: the
      keys are the stripped names, and a crop whose name is not repeated
      later gets exactly its record. */
  lemma RenderedRecordsRead(bs: seq<RawBlock>, cs: seq<CropInfo>, ns: seq<nat>, i: nat)
    requires |cs| == |bs| && |ns| == |bs| && i < |bs|
    requires AllEncodable(bs)
    requires forall j :: 0 <= j < |bs| ==> bs[j] == Written(bs[j].name, cs[j], ns[j]) && Recordable(cs[j], ns[j])
    requires forall j :: i < j < |bs| ==> Name(bs[j]) != Name(bs[i])
    ensures CropsOf(RenderAll(bs)).Some?
    ensures forall key :: key in CropsOf(RenderAll(bs)).value <==> exists j :: 0 <= j < |bs| && Name(bs[j]) == key
    ensures Name(bs[i]) in CropsOf(RenderAll(bs)).value && CropsOf(RenderAll(bs)).value[Name(bs[i])] == cs[i]
  {
    RenderedCropsRead(bs);
    WrittenRecords(bs, cs, ns);
    KnownRecordsAssembled(bs, cs, i);
  }

  /** The dict of matches whose records are all known. */
  lemma KnownRecordsAssembled(bs: seq<RawBlock>, cs: seq<CropInfo>, i: nat)
    requires |cs| == |bs| && i < |bs|
    requires forall j :: 0 <= j < |bs| ==> Entries(bs)[j].1 == Some(cs[j])
    requires forall j :: i < j < |bs| ==> Name(bs[j]) != Name(bs[i])
    ensures Assemble(Entries(bs)).Some?
    ensures forall key :: key in Assemble(Entries(bs)).value <==> exists j :: 0 <= j < |bs| && Name(bs[j]) == key
    ensures Name(bs[i]) in Assemble(Entries(bs)).value && Assemble(Entries(bs)).value[Name(bs[i])] == cs[i]
  {
    var es := Entries(bs);
    forall j | i < j < |bs| ensures es[j].0 != es[i].0 {
      assert es[j].0 == Name(bs[j]) && es[i].0 == Name(bs[i]);
    }
    AssembleAllKnown(es, cs, i);
  }

  /** Every written run gives its record. */
  lemma WrittenRecords(bs: seq<RawBlock>, cs: seq<CropInfo>, ns: seq<nat>)
    requires |cs| == |bs| && |ns| == |bs|
    requires forall j :: 0 <= j < |bs| ==> bs[j] == Written(bs[j].name, cs[j], ns[j]) && Recordable(cs[j], ns[j])
    ensures forall j :: 0 <= j < |bs| ==> Entries(bs)[j].1 == Some(cs[j])
  {
    forall j | 0 <= j < |bs| ensures Entries(bs)[j].1 == Some(cs[j]) {
      RecordRoundTrip(bs[j].name, cs[j], ns[j]);
    }
  }

  /** A dict built from entries whose values are all known holds exactly
      their keys, and a key not repeated later maps to its value. */
  lemma AssembleAllKnown<V>(es: seq<(string, Option<V>)>, vs: seq<V>, i: nat)
    requires |vs| == |es| && i < |es|
    requires forall j :: 0 <= j < |es| ==> es[j].1 == Some(vs[j])
    requires forall j :: i < j < |es| ==> es[j].0 != es[i].0
    ensures Assemble(es).Some?
    ensures forall key :: key in Assemble(es).value <==> exists j :: 0 <= j < |es| && es[j].0 == key
    ensures es[i].0 in Assemble(es).value && Assemble(es).value[es[i].0] == vs[i]
  {
    AssembleKeys(es);
    AssembleLastWins(es, i);
  }

  /** `extractCropsInfo(tagged_response)`: the loop over the matches. */
  method ExtractCropsInfo(taggedResponse: string) returns (crops: Option<map<string, CropInfo>>)
    ensures crops == CropsOf(taggedResponse)
  {
    var matches := Blocks(taggedResponse, 0);
    ghost var es := Entries(matches);
    var acc: map<string, CropInfo> := map[];
    for n := 0 to |matches|
      invariant Assemble(es[..n]) == Some(acc)
    {
      var name := Name(matches[n]);
      var info := ToInfo(matches[n]);
      assert es[n] == (name, info);
      if info.None? {
        AssembleStops(es, n);
        return None;
      }
      AssembleStep(es, n, acc);
      acc := acc[name := info.value];
    }
    assert es[..|matches|] == es;
    crops := Some(acc);
  }
}
