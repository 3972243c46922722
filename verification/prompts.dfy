/** The prompt builders of the chat assistant: the context injector that
    prepares a transcript for the chat model (`processChats`), the fixed
    priming turns, the request and notice turns of the visuals generator,
    the two recommendation prompts and the dispatch of `string_to_dict`. */
module Prompts {
  import opened Basics
  import opened Text
  import opened Tags

  /** Python's `str(v)` as an f-string renders a request value. Lists and
      dicts are rendered by a placeholder (their Python rendering is not
      modelled). */
  function Display(v: Value): string
  {
    match v
    case Null => "None"
    case Bool(b) => if b then "True" else "False"
    case Num(n) => IntToDecimal(n)
    case Str(s) => s
    case List(_) => "[...]"
    case Dict(_) => "{...}"
  }

  // ---------------------------------------------------------------------
  // Priming turns

  /** The persona instructions of the chat model (abbreviated). */
  const FarmBot: string :=
    "You are **Oscar** ... (persona rules) ..."

  /** The model's acknowledgement of the persona (abbreviated). */
  const FarmBotAck: string :=
    "Ok uderstood . As Oscar ..."

  /** `startChats`: the two turns put in front of every non-empty transcript. */
  const StartChats: seq<Value> := [Turn("user", [Str(FarmBot)]), Turn("model", [Str(FarmBotAck)])]

  // ---------------------------------------------------------------------
  // Context clause

  /** The optional request fields the injector reports to the model. */
  datatype Context = Context(location: Value, npk: Value, date: Value)

  const NoContext: string := "No specific context provided."

  /** The labelled entries of the present (truthy) fields, in the fixed
      order location, NPK reading, date. */
  function ContextParts(ctx: Context): seq<string>
  {
    (if Truthy(ctx.location) then [Entry("Location: ", ctx.location)] else [])
    + (if Truthy(ctx.npk) then [Entry("NPK Reading: ", ctx.npk)] else [])
    + (if Truthy(ctx.date) then [Entry("Current Date: ", ctx.date)] else [])
  }

  function Entry(lab: string, v: Value): string
  {
    lab + Display(v)
  }

  /** The context clause: the present entries joined by ", ", or the
      sentinel text when no field is present. The sentinel cannot be
      produced by present fields, since every entry starts with a label
      that differs from it in the first two characters. */
  function ContextClause(ctx: Context): (r: string)
    ensures r == NoContext <==> !Truthy(ctx.location) && !Truthy(ctx.npk) && !Truthy(ctx.date)
  {
    var parts := ContextParts(ctx);
    if parts == [] then NoContext
    else
      ClauseIsNotSentinel(ctx);
      Join(parts, ", ")
  }

  /** Present fields never produce the sentinel: the first entry's label
      differs from it within the first two characters. */
  lemma ClauseIsNotSentinel(ctx: Context)
    requires ContextParts(ctx) != []
    ensures Join(ContextParts(ctx), ", ") != NoContext
  {
    var parts := ContextParts(ctx);
    var lab :=
      if Truthy(ctx.location) then "Location: "
      else if Truthy(ctx.npk) then "NPK Reading: "
      else "Current Date: ";
    assert parts[0] == Entry(lab, if Truthy(ctx.location) then ctx.location else if Truthy(ctx.npk) then ctx.npk else ctx.date);
    JoinHead(parts, ", ");
    var r := Join(parts, ", ");
    assert |lab| >= 2 && r[0] == lab[0] && r[1] == lab[1];
    assert NoContext[0] == 'N' && NoContext[1] == 'o';
    assert lab[0] != 'N' || lab[1] != 'o';
  }

  /** A join starts with its first piece. */
  lemma JoinHead(xs: seq<string>, sep: string)
    requires |xs| >= 1
    ensures |Join(xs, sep)| >= |xs[0]| && Join(xs, sep)[..|xs[0]|] == xs[0]
  {
    if |xs| > 1 {
      assert Join(xs, sep) == xs[0] + (sep + Join(xs[1..], sep));
    }
  }

  /** With every field present the clause lists all three, in order. */
  lemma {:induction false} ClauseOfAllFields(ctx: Context)
    requires Truthy(ctx.location) && Truthy(ctx.npk) && Truthy(ctx.date)
    ensures ContextClause(ctx)
            == Entry("Location: ", ctx.location) + ", " + Entry("NPK Reading: ", ctx.npk)
               + ", " + Entry("Current Date: ", ctx.date)
  {
    var l, n, d := Entry("Location: ", ctx.location), Entry("NPK Reading: ", ctx.npk),
                   Entry("Current Date: ", ctx.date);
    assert ContextParts(ctx) == [l, n, d];
    assert Join([l, n, d], ", ") == l + ", " + Join([n, d], ", ");
    assert [l, n, d][1..] == [n, d] && [n, d][1..] == [d];
    assert Join([n, d], ", ") == n + ", " + d;
  }

  // ---------------------------------------------------------------------
  // Context injection

  /** The `<g>` part carrying the context clause. */
  function ContextTag(ctx: Context): string
  {
    Open("g") + "System Context: " + ContextClause(ctx) + Close("g")
  }

  const ClassifyTag: string := "<g>Classify the overall chat direction at this point (FI/MF/GT).</g>"

  function ClassifyFor(classify: bool): string
  {
    if classify then ClassifyTag else ""
  }

  /** The rewritten first text part of the last user turn. */
  function WrapText(orig: string, ctx: Context, classify: bool): string
  {
    Open("p") + orig + Close("p") + ContextTag(ctx) + ClassifyFor(classify)
  }

  /** `chats[i].get('role') == 'user'`. */
  predicate IsUserTurn(v: Value)
  {
    v.Dict? && Get(v.fields, "role", Null) == Str("user")
  }

  /** Raised when the backward search meets an item that is not a dict. */
  const NotADictError: string := "AttributeError: a transcript item is not a dict"

  /** Raised when the parts of the last user turn are not a list (the
      search, the item assignment or the append fails). */
  const PartsError: string := "TypeError: the parts of the last user turn are not a list"

  /** The backward search for the last user turn: its index, -1 when the
      search runs off the front, or the error raised by the first non-dict
      item it meets. Items before the found turn are never inspected. */
  function LastUser(chats: seq<Value>): (r: Result<int, string>)
    ensures r.Ok? ==> -1 <= r.value < |chats|
    ensures r.Ok? && r.value >= 0 ==> IsUserTurn(chats[r.value])
    ensures r.Ok? ==> forall k :: r.value < k < |chats| ==> chats[k].Dict? && !IsUserTurn(chats[k])
    ensures r.Err? ==> r.error == NotADictError
    ensures r.Err? ==> exists k :: 0 <= k < |chats| && !chats[k].Dict?
                                  && forall j :: k < j < |chats| ==> chats[j].Dict? && !IsUserTurn(chats[j])
    decreases |chats|
  {
    if chats == [] then Ok(-1)
    else
      var last := chats[|chats| - 1];
      if !last.Dict? then Err(NotADictError)
      else if IsUserTurn(last) then Ok(|chats| - 1)
      else
        var front := chats[..|chats| - 1];
        var r := LastUser(front);
        assert forall k :: 0 <= k < |front| ==> front[k] == chats[k];
        r
  }

  /** The index of the first string part, or -1. */
  function FirstText(ps: seq<Value>): (r: int)
    ensures -1 <= r < |ps|
    ensures r >= 0 ==> ps[r].Str?
    ensures forall k :: 0 <= k < |ps| && (r == -1 || k < r) ==> !ps[k].Str?
  {
    if ps == [] then -1
    else if ps[0].Str? then 0
    else
      var r := FirstText(ps[1..]);
      if r == -1 then -1 else r + 1
  }

  /** What `processChats` returns for a transcript and the request context:
      the transcript unchanged when empty; otherwise the priming turns
      followed by a copy in which only the last user turn has its parts
      rewritten. */
  function Injected(chats: seq<Value>, ctx: Context): Result<seq<Value>, string>
  {
    if chats == [] then Ok(chats)
    else
      var u := LastUser(chats);
      if u.Err? then Err(u.error)
      else if u.value == -1 then Ok(StartChats + chats)
      else
        var msg := chats[u.value].fields;
        var parts := Get(msg, "parts", List([]));
        var classify := u.value == |chats| - 1;
        if !parts.List? then Err(PartsError)
        else
          Ok(StartChats + chats[u.value := Dict(msg["parts" := List(Rewritten(parts.items, ctx, classify))])])
  }

  /** The parts of the last user turn after the injection: the first text
      part wrapped, or the context appended when there is none. */
  function Rewritten(ps: seq<Value>, ctx: Context, classify: bool): seq<Value>
  {
    var j := FirstText(ps);
    if j >= 0 then ps[j := Str(WrapText(ps[j].s, ctx, classify))]
    else ps + [Str(ContextTag(ctx) + ClassifyFor(classify))]
  }

  /** An empty transcript is returned as it is; otherwise the result is the
      priming turns followed by the transcript, in which every turn but the
      last user turn is kept; the injection fails only on a non-dict turn
      met by the search or when there is a user turn to rewrite. */
  lemma InjectedShape(chats: seq<Value>, ctx: Context)
    ensures var r := Injected(chats, ctx);
      && (chats == [] ==> r == Ok([]))
      && (r.Ok? && chats != [] ==> |r.value| == |chats| + 2 && r.value[..2] == StartChats)
      && (r.Ok? && chats != [] ==>
            forall k :: 0 <= k < |chats| && LastUser(chats) != Ok(k) ==> r.value[k + 2] == chats[k])
      && (r.Err? ==> chats != [] && (LastUser(chats).Err? || LastUser(chats).value >= 0))
  {
  }

  /** `processChats(chats, npk, location, date)`: a backward loop finds the
      last user turn, a forward loop its first text part, and the copy is
      updated in place. */
  method ProcessChats(chats: seq<Value>, ctx: Context) returns (r: Result<seq<Value>, string>)
    ensures r == Injected(chats, ctx)
  {
    var l := |chats|;
    if l == 0 {
      return Ok(chats);
    }
    var last := -1;
    var i := l - 1;
    assert chats[..l] == chats;
    while i >= 0
      invariant -1 <= i < l
      invariant last == -1
      invariant LastUser(chats) == LastUser(chats[..i + 1])
    {
      assert chats[..i + 1][..i] == chats[..i];
      if !chats[i].Dict? {
        return Err(NotADictError);
      }
      if IsUserTurn(chats[i]) {
        last := i;
        break;
      }
      i := i - 1;
    }
    assert LastUser(chats) == Ok(last);
    var copy := chats;
    if last != -1 {
      var msg := copy[last].fields;
      var parts := Get(msg, "parts", List([]));
      if !parts.List? {
        return Err(PartsError);
      }
      var ps := RewriteParts(parts.items, ctx, last == l - 1);
      copy := copy[last := Dict(msg["parts" := List(ps)])];
    }
    return Ok(StartChats + copy);
  }

  /** The forward loop of `processChats` over the parts of the last user
      turn, and the rewrite of the part it finds. */
  method RewriteParts(parts: seq<Value>, ctx: Context, classify: bool) returns (ps: seq<Value>)
    ensures ps == Rewritten(parts, ctx, classify)
  {
    ps := parts;
    var textIndex := -1;
    var j := 0;
    while j < |ps|
      invariant 0 <= j <= |ps|
      invariant textIndex == -1
      invariant forall k :: 0 <= k < j ==> !ps[k].Str?
    {
      if ps[j].Str? {
        textIndex := j;
        break;
      }
      j := j + 1;
    }
    assert textIndex == FirstText(ps);
    var contextTag := Open("g") + "System Context: " + ContextClause(ctx) + Close("g");
    var classifyTag := "";
    if classify {
      classifyTag := ClassifyTag;
    }
    if textIndex != -1 {
      ps := ps[textIndex := Str(Open("p") + ps[textIndex].s + Close("p") + contextTag + classifyTag)];
    } else {
      ps := ps + [Str(contextTag + classifyTag)];
    }
  }

  /** The turn the chat route adds for the new message is the one rewritten:
      the injection of `history + [{role: user, parts: [m]}]` never fails,
      leaves `history` as it is, and asks for a classification. */
  lemma NewMessageInjected(history: seq<Value>, m: Value, ctx: Context)
    ensures Injected(history + [Turn("user", [m])], ctx)
            == Ok(StartChats + history
                  + [Turn("user", if m.Str? then [Str(WrapText(m.s, ctx, true))]
                                  else [m, Str(ContextTag(ctx) + ClassifyTag)])])
  {
    var chats := history + [Turn("user", [m])];
    assert LastUser(chats) == Ok(|history|);
    var msg := Turn("user", [m]).fields;
    assert chats[|history|].fields == msg;
    assert Get(msg, "parts", List([])) == List([m]);
    assert FirstText([m]) == if m.Str? then 0 else -1;
    var parts := if m.Str? then [Str(WrapText(m.s, ctx, true))] else [m, Str(ContextTag(ctx) + ClassifyTag)];
    assert m.Str? ==> [m][0 := Str(WrapText([m][0].s, ctx, true))] == parts;
    assert !m.Str? ==> [m] + [Str(ContextTag(ctx) + ClassifyFor(true))] == parts;
    assert msg["parts" := List(parts)] == Turn("user", parts).fields;
    assert chats[|history| := Turn("user", parts)] == history + [Turn("user", parts)];
    assert StartChats + (history + [Turn("user", parts)]) == StartChats + history + [Turn("user", parts)];
  }

  /** A last user turn followed by other turns gets no classification
      request: its first text part becomes `<p>text</p>` and the context
      tag alone, or the context tag is appended as a part of its own. */
  lemma EarlierUserTurnInjected(chats: seq<Value>, ctx: Context, k: int, ps: seq<Value>)
    requires 0 <= k < |chats| - 1 && LastUser(chats) == Ok(k)
    requires chats[k].Dict? && Get(chats[k].fields, "parts", List([])) == List(ps)
    ensures Injected(chats, ctx).Ok?
    ensures Injected(chats, ctx).value[k + 2] == Dict(chats[k].fields["parts" := List(Rewritten(ps, ctx, false))])
    ensures var j := FirstText(ps);
      j >= 0 ==> Rewritten(ps, ctx, false) == ps[j := Str(Open("p") + ps[j].s + Close("p") + ContextTag(ctx))]
    ensures FirstText(ps) == -1 ==> Rewritten(ps, ctx, false) == ps + [Str(ContextTag(ctx))]
  {
    assert ClassifyFor(false) == "";
    assert ContextTag(ctx) + ClassifyFor(false) == ContextTag(ctx);
    var j := FirstText(ps);
    if j >= 0 {
      assert WrapText(ps[j].s, ctx, false) == Open("p") + ps[j].s + Close("p") + ContextTag(ctx);
    }
  }

  /** The user's query is recovered from the rewritten part by decoding
      its `<p>` tag, whenever the query holds no `</p>` itself. */
  lemma InjectedQueryDecodes(orig: string, ctx: Context, classify: bool)
    requires forall k :: !OccursAt(orig, Close("p"), k)
    ensures ExtractTag(WrapText(orig, ctx, classify), "p") == Some(Strip(orig))
  {
    var post := ContextTag(ctx) + ClassifyFor(classify);
    RegroupTail(Open("p"), orig, Close("p"), ContextTag(ctx), ClassifyFor(classify));
    DecodeFirst("", "p", orig, post);
  }

  /** The wrapped query holds no `<g>` when the query has no '<'. */
  lemma WrappedQueryHasNoOpenG(orig: string)
    requires '<' !in orig
    ensures forall k :: !OccursAt(Open("p") + orig + Close("p"), Open("g"), k)
  {
    var pre := Open("p") + orig + Close("p");
    forall k | 0 <= k && k + 3 <= |pre| ensures !OccursAt(pre, Open("g"), k) {
      if k == 0 {
        assert pre[1] == 'p';
      } else if k == |orig| + 3 {
        assert pre[k + 1] == '/';
      } else if k < 3 {
        assert pre[k] != '<';
      } else if k < |orig| + 3 {
        assert pre[k] == orig[k - 3];
      } else {
        assert pre[k] != '<';
      }
      assert pre[k..k + 3][0] == pre[k] && pre[k..k + 3][1] == pre[k + 1];
    }
  }

  /** Prefixing a text free of '<' adds no occurrence of a closing tag. */
  lemma PrefixAddsNoClose(head: string, clause: string, t: string)
    requires '<' !in head
    requires forall k :: !OccursAt(clause, Close(t), k)
    ensures forall k :: !OccursAt(head + clause, Close(t), k)
  {
    var x := head + clause;
    var c := Close(t);
    forall k | 0 <= k && k + |c| <= |x| ensures !OccursAt(x, c, k) {
      if k < |head| {
        assert c[0] == '<' && head[k] in head;
        assert x[k..k + |c|][0] == head[k] != c[0];
      } else {
        assert x[k..k + |c|] == clause[k - |head|..k - |head| + |c|];
        assert !OccursAt(clause, c, k - |head|);
      }
    }
  }

  /** The context clause is recovered from the rewritten part by decoding
      its `<g>` tag, whenever the query has no '<' and the clause no `</g>`. */
  lemma InjectedContextDecodes(orig: string, ctx: Context, classify: bool)
    requires '<' !in orig
    requires forall k :: !OccursAt(ContextClause(ctx), Close("g"), k)
    ensures ExtractTag(WrapText(orig, ctx, classify), "g")
            == Some(Strip("System Context: " + ContextClause(ctx)))
  {
    var pre := Open("p") + orig + Close("p");
    var x := "System Context: " + ContextClause(ctx);
    WrappedQueryHasNoOpenG(orig);
    PrefixAddsNoClose("System Context: ", ContextClause(ctx), "g");
    WrapLayout(orig, ctx, classify);
    DecodeFirst(pre, "g", x, ClassifyFor(classify));
  }

  /** The rewritten part as query pair, context pair and classify request. */
  lemma WrapLayout(orig: string, ctx: Context, classify: bool)
    ensures WrapText(orig, ctx, classify)
            == (Open("p") + orig + Close("p")) + Open("g") + ("System Context: " + ContextClause(ctx))
               + Close("g") + ClassifyFor(classify)
  {
    RegroupMiddle(Open("p") + orig + Close("p"), Open("g"), "System Context: ", ContextClause(ctx), Close("g"),
                  ClassifyFor(classify));
  }

  // ---------------------------------------------------------------------
  // Visuals generator turns

  /** The instructions of the visuals generator (abbreviated). */
  const VisualsBot: string :=
    "You are a **Farming Data Generation AI** ..."

  const VisualsAck: string :=
    "Understood! ..."

  /** `processVisualBotQuery(crop)`: instructions, acknowledgement, then the
      request as the final user turn. */
  function ProcessVisualBotQuery(crop: string): (r: seq<Value>)
    ensures |r| == 3 && r[2] == Turn("user", [Str(crop)])
    ensures forall k :: 0 <= k < 3 ==> r[k].Dict? && "role" in r[k].fields && "parts" in r[k].fields
  {
    [Turn("user", [Str(VisualsBot)]), Turn("model", [Str(VisualsAck)]), Turn("user", [Str(crop)])]
  }

  const NoticeHead: string :=
    "<g>This is from the system. ... result ---"

  const NoticeTail: string := "--- <g>"

  const NoticeAck: string :=
    "<gr>Ok. ... reload the page</gr>"

  /** `formatVisualBotResponse(response)`: the user-side notice embedding
      the response, the model-side acknowledgement, and the response. An
      empty response leaves the locals unbound, which raises. */
  function FormatVisualBotResponse(response: string): (r: Result<(string, string, string), string>)
    ensures r.Ok? <==> response != ""
    ensures r.Ok? ==> r.value.2 == response && r.value.1 == NoticeAck
    ensures r.Ok? ==> OccursAt(r.value.0, response, |NoticeHead|)
  {
    if response != "" then
      var user := NoticeHead + response + NoticeTail;
      assert user[|NoticeHead|..|NoticeHead| + |response|] == response;
      Ok((user, NoticeAck, response))
    else Err("UnboundLocalError: the notice text was never assigned")
  }

  // ---------------------------------------------------------------------
  // Recommendation prompts

  const AnalysisHead: string := "\n    Conduct a comprehensive agricultural analysis for "

  const AnalysisTail: string :=
    ". Focus on:\n    ...\n    "

  /** `analyseLocation(location)`: the first-stage prompt, which names the
      location (the tail, which names it again, is abbreviated). */
  function AnalysisPrompt(location: string): (r: string)
    ensures OccursAt(r, location, |AnalysisHead|)
  {
    var r := AnalysisHead + location + AnalysisTail;
    assert r[|AnalysisHead|..|AnalysisHead| + |location|] == location;
    r
  }

  /** The template's first word. */
  const FormatLead: string := "Reformat"

  const FormatIntro: string :=
    FormatLead + " this analysis with these tags:\n    \n    "

  const FormatOutro: string :=
    "\n    \n    ...\n    </reasons>"

  /** `formatLocationInfo(previous)`: the second-stage prompt, the stripped
      template with the first-stage answer embedded. Stripping only removes
      the template's own leading and trailing layout. */
  function FormatPrompt(previous: string): (r: string)
    ensures r == FormatIntro + previous + FormatOutro
    ensures OccursAt(r, previous, |FormatIntro|)
  {
    var pad := "\n    ";
    var body := FormatIntro + previous + FormatOutro;
    assert body[0] == 'R' && body[|body| - 1] == '>';
    StripByFrame(pad, body, pad, IsSpace);
    assert body[|FormatIntro|..|FormatIntro| + |previous|] == previous;
    Strip(pad + body + pad)
  }

  // ---------------------------------------------------------------------
  // Structured parse dispatch

  /** The two literal parsers `string_to_dict` can use; each either yields a
      value or the text of the error it raises. */
  datatype Parsers = Parsers(literalEval: string -> Result<Value, string>, jsonLoads: string -> Result<Value, string>)

  const InvalidDictionary: string := "Invalid dictionary string: "

  const InvalidMethod: string := "Invalid method. Use 'ast' or 'json'"

  /** `string_to_dict(s, mode)`: dispatch on the method name; every error
      a parser reports (a `ValueError`, `SyntaxError` or `JSONDecodeError`),
      and an unknown method, is re-raised with the prefix
      "Invalid dictionary string: ". */
  function StringToDict(s: string, mode: string, parsers: Parsers): (r: Result<Value, string>)
    ensures r.Ok? <==> (mode == "ast" && parsers.literalEval(s).Ok?) || (mode == "json" && parsers.jsonLoads(s).Ok?)
    ensures r.Ok? ==> r.value == (if mode == "ast" then parsers.literalEval(s) else parsers.jsonLoads(s)).value
    ensures r.Err? ==> |InvalidDictionary| <= |r.error| && r.error[..|InvalidDictionary|] == InvalidDictionary
    ensures mode != "ast" && mode != "json" ==> r == Err(InvalidDictionary + InvalidMethod)
  {
    var parsed :=
      if mode == "ast" then parsers.literalEval(s)
      else if mode == "json" then parsers.jsonLoads(s)
      else Err(InvalidMethod);
    match parsed
    case Ok(v) => Ok(v)
    case Err(e) => Err(InvalidDictionary + e)
  }
}
