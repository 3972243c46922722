/** The service layer between the routes and the generative backend: the
    outbound content sanitiser of `call_ai_model`, the chat call, the
    visuals generator driven by a `<gen>` directive, and the two-stage crop
    recommendation pipeline.

    The backend itself (the SDK's configuration, token counting, content
    generation and the probing of its response object) is a parameter: for
    an API key, a model name and the content to send it yields either the
    generated text with its token counts or an error message. */
module AiService {
  import opened Basics
  import opened Text
  import opened Tags
  import opened Prompts
  import opened Crops

  /** The application settings the service reads (`None` when unset). */
  datatype Config = Config(
    paidModel: Option<string>,
    freeChatModel: Option<string>,
    freeAccessoryModel: Option<string>,
    paidKey: Option<string>,
    freeChatKey: Option<string>,
    freeAccessoryKey: Option<string>,
    recommendationsKey: Option<string>)

  /** `{'text', 'input_tokens', 'output_tokens'}` or `{'error'}`. */
  datatype AiReply = Reply(text: string, inputTokens: int, outputTokens: int) | Failure(error: string)

  /** The generative backend: API key, model name, content to send. */
  type Backend = (string, string, seq<Value>) -> AiReply

  // ---------------------------------------------------------------------
  // Filtering a sequence through a partial map

  function Kept<T>(o: Option<T>): seq<T>
  {
    if o.Some? then [o.value] else []
  }

  /** The images of the elements on which `f` is defined, in order (the
      shape of every "append the valid ones" loop below). */
  function FilterMap<A, B>(f: A -> Option<B>, xs: seq<A>): (r: seq<B>)
    ensures |r| <= |xs|
    decreases |xs|
  {
    if xs == [] then [] else FilterMap(f, xs[..|xs| - 1]) + Kept(f(xs[|xs| - 1]))
  }

  /** Exactly the images of the elements on which `f` is defined are kept:
      each kept element is such an image, and each such image is kept. */
  lemma {:induction false} FilterMapMembers<A, B>(f: A -> Option<B>, xs: seq<A>)
    ensures forall y :: y in FilterMap(f, xs) ==> exists x :: x in xs && f(x) == Some(y)
    ensures forall x :: x in xs && f(x).Some? ==> f(x).value in FilterMap(f, xs)
    decreases |xs|
  {
    if xs != [] {
      var front, last := xs[..|xs| - 1], xs[|xs| - 1];
      FilterMapMembers(f, front);
      assert xs == front + [last];
      assert forall x :: x in front ==> x in xs;
    }
  }

  lemma FilterMapSnoc<A, B>(f: A -> Option<B>, xs: seq<A>, x: A)
    ensures FilterMap(f, xs + [x]) == FilterMap(f, xs) + Kept(f(x))
  {
    assert (xs + [x])[..|xs|] == xs;
  }

  /** Filtering commutes with concatenation, so the relative order of the
      kept elements is the order of the input. */
  lemma {:induction false} FilterMapAppend<A, B>(f: A -> Option<B>, a: seq<A>, b: seq<A>)
    ensures FilterMap(f, a + b) == FilterMap(f, a) + FilterMap(f, b)
    decreases |b|
  {
    if b == [] {
      assert a + b == a;
    } else {
      var b', x := b[..|b| - 1], b[|b| - 1];
      assert b == b' + [x];
      assert a + b == (a + b') + [x];
      calc {
        FilterMap(f, a + b);
        { FilterMapSnoc(f, a + b', x); }
        FilterMap(f, a + b') + Kept(f(x));
        { FilterMapAppend(f, a, b'); }
        FilterMap(f, a) + FilterMap(f, b') + Kept(f(x));
        { FilterMapSnoc(f, b', x); }
        FilterMap(f, a) + FilterMap(f, b);
      }
    }
  }

  /** Every element kept satisfies what `f` guarantees of its results. */
  lemma {:induction false} FilterMapAll<A, B>(f: A -> Option<B>, xs: seq<A>, P: B -> bool)
    requires forall x :: f(x).Some? ==> P(f(x).value)
    ensures forall i :: 0 <= i < |FilterMap(f, xs)| ==> P(FilterMap(f, xs)[i])
    decreases |xs|
  {
    if xs != [] {
      FilterMapAll(f, xs[..|xs| - 1], P);
    }
  }

  /** Elements that `f` maps to themselves all pass through. */
  lemma {:induction false} FilterMapFixed<A>(f: A -> Option<A>, xs: seq<A>)
    requires forall i :: 0 <= i < |xs| ==> f(xs[i]) == Some(xs[i])
    ensures FilterMap(f, xs) == xs
    decreases |xs|
  {
    if xs != [] {
      var init, last := xs[..|xs| - 1], xs[|xs| - 1];
      assert forall i :: 0 <= i < |init| ==> init[i] == xs[i];
      FilterMapFixed(f, init);
      assert FilterMap(f, xs) == init + Kept(f(last));
      assert Kept(f(last)) == [last];
      assert init + [last] == xs;
    }
  }

  /** Filtering twice is filtering once, when `f` fixes its own results. */
  lemma {:induction false} FilterMapIdempotent<A>(f: A -> Option<A>, xs: seq<A>)
    requires forall x :: f(x).Some? ==> f(f(x).value) == f(x)
    ensures FilterMap(f, FilterMap(f, xs)) == FilterMap(f, xs)
    decreases |xs|
  {
    if xs != [] {
      var init, x := xs[..|xs| - 1], xs[|xs| - 1];
      FilterMapIdempotent(f, init);
      FilterMapAppend(f, FilterMap(f, init), Kept(f(x)));
      if f(x).Some? {
        assert FilterMap(f, [f(x).value]) == [] + Kept(f(f(x).value));
      } else {
        assert FilterMap(f, Kept(f(x))) == [];
      }
    }
  }

  // ---------------------------------------------------------------------
  // Sanitising parts

  /** A part the backend accepts: a text, or inline data holding exactly a
      MIME type and a payload. */
  predicate WellFormedPart(p: Value)
  {
    || p.Str?
    || (&& p.Dict? && p.fields.Keys == {"inline_data"}
        && p.fields["inline_data"].Dict?
        && p.fields["inline_data"].fields.Keys == {"mime_type", "data"})
  }

  /** `_sanitize_part(part)`: texts pass, inline data is rebuilt from its
      MIME type and payload only, anything else is dropped. */
  function SanitizePart(part: Value): (r: Option<Value>)
    ensures part.Str? ==> r == Some(part)
    ensures !part.Str? && !part.Dict? ==> r.None?
    ensures r.Some? ==> WellFormedPart(r.value)
    ensures r.Some? && !part.Str? ==>
              && part.Dict? && "inline_data" in part.fields && part.fields["inline_data"].Dict?
              && r.value.Dict? && "inline_data" in r.value.fields && r.value.fields["inline_data"].Dict?
              && var given, kept := part.fields["inline_data"].fields, r.value.fields["inline_data"].fields;
                 forall k :: k in kept ==> k in given && kept[k] == given[k]
    ensures WellFormedPart(part) ==> r == Some(part)
    ensures && part.Dict? && "inline_data" in part.fields && part.fields["inline_data"].Dict?
            && "mime_type" in part.fields["inline_data"].fields && "data" in part.fields["inline_data"].fields
            ==> r.Some?
  {
    if part.Str? then Some(part)
    else if && part.Dict? && "inline_data" in part.fields && part.fields["inline_data"].Dict?
            && "mime_type" in part.fields["inline_data"].fields
            && "data" in part.fields["inline_data"].fields then
      var given := part.fields["inline_data"].fields;
      var kept := map["mime_type" := given["mime_type"], "data" := given["data"]];
      assert given.Keys == {"mime_type", "data"} ==> kept == given;
      var outer := map["inline_data" := Dict(kept)];
      assert part.fields.Keys == {"inline_data"} && kept == given ==> outer == part.fields;
      Some(Dict(outer))
    else None
  }

  // ---------------------------------------------------------------------
  // Normalising the transcript

  /** A turn as it is sent: exactly a role and a non-empty list of
      well-formed parts. */
  predicate WellFormedTurn(t: Value)
  {
    && t.Dict? && t.fields.Keys == {"role", "parts"}
    && t.fields["parts"].List? && t.fields["parts"].items != []
    && forall i :: 0 <= i < |t.fields["parts"].items| ==> WellFormedPart(t.fields["parts"].items[i])
  }

  /** The kept parts of a transcript item's `parts`: a list is sanitised
      part by part, a single text is taken as the only part, and any other
      value gives none. */
  function KeptParts(parts: Value): seq<Value>
  {
    if parts.List? then FilterMap(SanitizePart, parts.items)
    else if parts.Str? then [parts]
    else []
  }

  /** What the normalisation loop of `call_ai_model` makes of one
      transcript item: a dict with `role` and `parts` whose kept parts are
      not empty becomes `{role, parts: kept}`; anything else is skipped. */
  function NormalizeTurn(m: Value): (r: Option<Value>)
    ensures r.Some? ==> m.Dict? && "role" in m.fields && "parts" in m.fields
    ensures r.Some? ==> r.value.Dict? && "role" in r.value.fields && r.value.fields["role"] == m.fields["role"]
    ensures m.Dict? && "role" in m.fields && "parts" in m.fields && m.fields["parts"].Str? ==>
              r == Some(Dict(map["role" := m.fields["role"], "parts" := List([m.fields["parts"]])]))
    ensures m.Dict? && "role" in m.fields && "parts" in m.fields && m.fields["parts"].List? ==>
              var ps := m.fields["parts"].items;
              && (r.Some? <==> exists i :: 0 <= i < |ps| && SanitizePart(ps[i]).Some?)
              && (r.Some? ==> r.value == Dict(map["role" := m.fields["role"], "parts" := List(FilterMap(SanitizePart, ps))]))
    ensures m.Dict? && "parts" in m.fields && !m.fields["parts"].List? && !m.fields["parts"].Str? ==> r.None?
  {
    if m.Dict? && "role" in m.fields && "parts" in m.fields then
      var kept := KeptParts(m.fields["parts"]);
      KeptSomePart(if m.fields["parts"].List? then m.fields["parts"].items else []);
      if kept == [] then None
      else Some(Dict(map["role" := m.fields["role"], "parts" := List(kept)]))
    else None
  }

  /** Some part is kept exactly when some part is valid. */
  lemma KeptSomePart(ps: seq<Value>)
    ensures FilterMap(SanitizePart, ps) != [] <==> exists i :: 0 <= i < |ps| && SanitizePart(ps[i]).Some?
  {
    FilterMapMembers(SanitizePart, ps);
    var kept := FilterMap(SanitizePart, ps);
    if kept != [] {
      assert kept[0] in kept;
      var x :| x in ps && SanitizePart(x) == Some(kept[0]);
      var i :| 0 <= i < |ps| && ps[i] == x;
    }
  }

  lemma KeptPartsWellFormed(parts: Value)
    ensures forall i :: 0 <= i < |KeptParts(parts)| ==> WellFormedPart(KeptParts(parts)[i])
  {
    if parts.List? {
      FilterMapAll(SanitizePart, parts.items, WellFormedPart);
    }
  }

  /** Every turn the loop keeps is well-formed. */
  lemma NormalizedTurnWellFormed(m: Value)
    requires NormalizeTurn(m).Some?
    ensures WellFormedTurn(NormalizeTurn(m).value)
  {
    KeptPartsWellFormed(m.fields["parts"]);
  }

  /** A well-formed turn is kept as it is. */
  lemma WellFormedTurnKept(t: Value)
    requires WellFormedTurn(t)
    ensures NormalizeTurn(t) == Some(t)
  {
    var ps := t.fields["parts"].items;
    FilterMapFixed(SanitizePart, ps);
    assert KeptParts(t.fields["parts"]) == ps;
    assert map["role" := t.fields["role"], "parts" := List(ps)] == t.fields;
  }

  /** `invalid prompt` error of `call_ai_model`. */
  const InvalidPrompt: string := "Invalid prompt format."

  /** The content `call_ai_model` builds: a text prompt becomes a one-item
      list, a transcript is normalised turn by turn in order, anything else
      is refused. */
  function Normalize(prompt: Value): (r: Result<seq<Value>, string>)
    ensures r.Err? <==> !prompt.Str? && !prompt.List?
    ensures r.Err? ==> r.error == InvalidPrompt
    ensures prompt.Str? ==> r.value == [prompt]
    ensures prompt.List? ==> |r.value| <= |prompt.items|
  {
    if prompt.Str? then Ok([prompt])
    else if prompt.List? then Ok(FilterMap(NormalizeTurn, prompt.items))
    else Err(InvalidPrompt)
  }

  /** Every turn of a normalised transcript is well-formed. */
  lemma NormalizedWellFormed(items: seq<Value>)
    ensures forall i :: 0 <= i < |Normalize(List(items)).value| ==> WellFormedTurn(Normalize(List(items)).value[i])
  {
    forall m | NormalizeTurn(m).Some? ensures WellFormedTurn(NormalizeTurn(m).value) {
      NormalizedTurnWellFormed(m);
    }
    FilterMapAll(NormalizeTurn, items, WellFormedTurn);
  }

  /** A transcript of well-formed turns is sent as it is. */
  lemma WellFormedSentAsIs(items: seq<Value>)
    requires forall i :: 0 <= i < |items| ==> WellFormedTurn(items[i])
    ensures Normalize(List(items)) == Ok(items)
  {
    forall i | 0 <= i < |items| ensures NormalizeTurn(items[i]) == Some(items[i]) {
      WellFormedTurnKept(items[i]);
    }
    FilterMapFixed(NormalizeTurn, items);
  }

  /** Normalising a normalised transcript changes nothing. */
  lemma NormalizeIdempotent(items: seq<Value>)
    ensures Normalize(List(Normalize(List(items)).value)) == Normalize(List(items))
  {
    NormalizedWellFormed(items);
    WellFormedSentAsIs(Normalize(List(items)).value);
  }

  /** Normalising a concatenation of transcripts normalises each. */
  lemma NormalizeAppend(a: seq<Value>, b: seq<Value>)
    ensures Normalize(List(a + b)).value == Normalize(List(a)).value + Normalize(List(b)).value
  {
    FilterMapAppend(NormalizeTurn, a, b);
  }

  /** The inner loop of `call_ai_model`: the sanitised parts of one item. */
  method SanitizeParts(parts: Value) returns (sanitized: seq<Value>)
    ensures sanitized == KeptParts(parts)
  {
    sanitized := [];
    if parts.List? {
      var ps := parts.items;
      for j := 0 to |ps|
        invariant sanitized == FilterMap(SanitizePart, ps[..j])
      {
        var part := ps[j];
        assert ps[..j + 1] == ps[..j] + [part];
        FilterMapSnoc(SanitizePart, ps[..j], part);
        var valid := SanitizePart(part);
        if valid.Some? {
          sanitized := sanitized + [valid.value];
        }
      }
      assert ps[..|ps|] == ps;
    } else if parts.Str? {
      sanitized := [parts];
    }
  }

  /** The outer loop of `call_ai_model` that builds `content_to_send`. */
  method BuildContent(prompt: Value) returns (r: Result<seq<Value>, string>)
    ensures r == Normalize(prompt)
  {
    if prompt.Str? {
      return Ok([prompt]);
    }
    if !prompt.List? {
      return Err(InvalidPrompt);
    }
    var items := prompt.items;
    var content: seq<Value> := [];
    for i := 0 to |items|
      invariant content == FilterMap(NormalizeTurn, items[..i])
    {
      var message := items[i];
      assert items[..i + 1] == items[..i] + [message];
      FilterMapSnoc(NormalizeTurn, items[..i], message);
      if message.Dict? && "role" in message.fields && "parts" in message.fields {
        var sanitized := SanitizeParts(message.fields["parts"]);
        if sanitized != [] {
          content := content + [Dict(map["role" := message.fields["role"], "parts" := List(sanitized)])];
        }
      }
    }
    assert items[..|items|] == items;
    return Ok(content);
  }

  // ---------------------------------------------------------------------
  // One model call

  const NoKey: string := "AI service API key not configured."
  const NoModel: string := "AI service model name not configured."
  const NoContent: string := "No valid content to send."
  const EmptyReply: string := "AI response was empty."

  /** What `call_ai_model(prompt, model_name, api_key)` returns. */
  function AiCall(prompt: Value, model: Option<string>, key: Option<string>, backend: Backend): (r: AiReply)
    ensures !Present(key) ==> r == Failure(NoKey)
    ensures Present(key) && !Present(model) ==> r == Failure(NoModel)
    ensures r.Reply? ==> r.text != ""
    ensures r.Reply? ==>
              && Present(key) && Present(model)
              && Normalize(prompt).Ok? && Normalize(prompt).value != []
              && r == backend(key.value, model.value, Normalize(prompt).value)
    ensures Present(key) && Present(model) && Normalize(prompt).Ok? && Normalize(prompt).value != [] ==>
              var b := backend(key.value, model.value, Normalize(prompt).value);
              && (b.Failure? ==> r == b)
              && (b.Reply? && b.text != "" ==> r == b)
              && (b.Reply? && b.text == "" ==> r == Failure(EmptyReply))
  {
    if !Present(key) then Failure(NoKey)
    else if !Present(model) then Failure(NoModel)
    else
      match Normalize(prompt)
      case Err(e) => Failure(e)
      case Ok(content) =>
        if content == [] then Failure(NoContent)
        else
          match backend(key.value, model.value, content)
          case Failure(e) => Failure(e)
          case Reply(text, i, o) => if text == "" then Failure(EmptyReply) else Reply(text, i, o)
  }

  /** The configuration checks come before anything else: a missing key or
      model name is reported whatever the prompt, and the backend is never
      consulted. */
  lemma ConfigCheckedFirst(p1: Value, p2: Value, model: Option<string>, key: Option<string>, b1: Backend, b2: Backend)
    requires !Present(key) || !Present(model)
    ensures AiCall(p1, model, key, b1) == AiCall(p2, model, key, b2)
    ensures AiCall(p1, model, key, b1).Failure?
  {
  }

  /** The content checks: a prompt of another type, or one whose turns
      are all dropped, is refused before the backend is consulted. */
  lemma ContentCheckedBeforeCall(prompt: Value, model: Option<string>, key: Option<string>, backend: Backend)
    requires Present(key) && Present(model)
    ensures !prompt.Str? && !prompt.List? ==> AiCall(prompt, model, key, backend) == Failure(InvalidPrompt)
    ensures prompt.List? && Normalize(prompt).value == [] ==> AiCall(prompt, model, key, backend) == Failure(NoContent)
  {
  }

  /** `call_ai_model`, non-streamed. */
  method CallAiModel(prompt: Value, model: Option<string>, key: Option<string>, backend: Backend)
    returns (r: AiReply)
    ensures r == AiCall(prompt, model, key, backend)
  {
    if !Present(key) {
      return Failure(NoKey);
    }
    if !Present(model) {
      return Failure(NoModel);
    }
    var content := BuildContent(prompt);
    if content.Err? {
      return Failure(content.error);
    }
    if content.value == [] {
      return Failure(NoContent);
    }
    var response := backend(key.value, model.value, content.value);
    if response.Failure? {
      return Failure(response.error);
    }
    if response.text == "" {
      return Failure(EmptyReply);
    }
    return Reply(response.text, response.inputTokens, response.outputTokens);
  }

  // ---------------------------------------------------------------------
  // The chat call

  const ChatNotConfigured: string := "AI service not configured for this chat request."

  /** The model name and key of the chat: the paid pair for the pro model,
      the free chat pair otherwise. */
  function ChatModel(usePro: bool, cfg: Config): (Option<string>, Option<string>)
  {
    if usePro then (cfg.paidModel, cfg.paidKey) else (cfg.freeChatModel, cfg.freeChatKey)
  }

  /** What `get_chat_response(history, use_pro_model)` returns. */
  function ChatCall(history: seq<Value>, usePro: bool, cfg: Config, backend: Backend): (r: AiReply)
  {
    var (model, key) := ChatModel(usePro, cfg);
    if !Present(key) || !Present(model) then Failure(ChatNotConfigured)
    else AiCall(List(history), model, key, backend)
  }

  /** A chat reply comes from the chosen model on the normalised
      transcript; a missing key or model name of the chosen pair is
      reported as such. */
  lemma ChatUsesChosenModel(history: seq<Value>, usePro: bool, cfg: Config, backend: Backend)
    ensures var (model, key) := ChatModel(usePro, cfg);
      && (!Present(key) || !Present(model) ==> ChatCall(history, usePro, cfg, backend) == Failure(ChatNotConfigured))
      && (ChatCall(history, usePro, cfg, backend).Reply? ==>
            && Present(key) && Present(model)
            && ChatCall(history, usePro, cfg, backend)
               == backend(key.value, model.value, Normalize(List(history)).value))
  {
  }

  /** `get_chat_response`. */
  method GetChatResponse(history: seq<Value>, usePro: bool, cfg: Config, backend: Backend) returns (r: AiReply)
    ensures r == ChatCall(history, usePro, cfg, backend)
  {
    var model, key;
    if usePro {
      model, key := cfg.paidModel, cfg.paidKey;
    } else {
      model, key := cfg.freeChatModel, cfg.freeChatKey;
    }
    if !Present(key) || !Present(model) {
      return Failure(ChatNotConfigured);
    }
    r := CallAiModel(List(history), model, key, backend);
  }

  // ---------------------------------------------------------------------
  // The visuals generator

  const BadDirective: string := "Internal error: Invalid format in AI's generation request."
  const ScheduleNotConfigured: string := "AI schedule generation service not configured."
  const NoSchedule: string := "AI failed to generate schedule structure."
  const NoDataTag: string := "AI response format error (missing <data> tag)."
  const BadData: string := "AI response format error (invalid JSON in <data> tag)."

  /** The five fields of a `<gen>` directive. */
  datatype Directive = Directive(crop: string, kind: string, location: string, date: string, npk: string)

  /** The `|`-split of a directive into exactly five stripped fields. */
  function ParseDirective(g: string): (r: Result<Directive, string>)
    ensures r.Ok? <==> CountChar(g, '|') == 4
    ensures r.Err? ==> r.error == BadDirective
    ensures r.Ok? ==> Stripped(r.value)
  {
    var parts := Split(g, '|');
    if |parts| != 5 then Err(BadDirective)
    else
      var d := Directive(Strip(parts[0]), Strip(parts[1]), Strip(parts[2]), Strip(parts[3]), Strip(parts[4]));
      StrippedFields(parts, d);
      Ok(d)
  }

  /** Every field of the directive is its own strip. */
  predicate Stripped(d: Directive)
  {
    && Strip(d.crop) == d.crop && Strip(d.kind) == d.kind && Strip(d.location) == d.location
    && Strip(d.date) == d.date && Strip(d.npk) == d.npk
  }

  lemma StrippedFields(parts: seq<string>, d: Directive)
    requires |parts| == 5
    requires d == Directive(Strip(parts[0]), Strip(parts[1]), Strip(parts[2]), Strip(parts[3]), Strip(parts[4]))
    ensures Stripped(d)
  {
    StripIdempotent(parts[0]);
    StripIdempotent(parts[1]);
    StripIdempotent(parts[2]);
    StripIdempotent(parts[3]);
    StripIdempotent(parts[4]);
  }

  lemma StripIdempotent(s: string)
    ensures Strip(Strip(s)) == Strip(s)
  {
    StripByIdempotent(s, IsSpace);
  }

  function DirectiveFields(d: Directive): seq<string>
  {
    [d.crop, d.kind, d.location, d.date, d.npk]
  }

  /** Five `|`-free fields written with `|` between them are read back as
      the directive of their stripped texts, whatever whitespace pads them. */
  lemma DirectiveRoundTrip(d: Directive, fs: seq<string>)
    requires |fs| == 5
    requires forall i :: 0 <= i < 5 ==> '|' !in fs[i] && Strip(fs[i]) == DirectiveFields(d)[i]
    ensures ParseDirective(Join(fs, "|")) == Ok(d)
  {
    SplitJoin(fs, '|');
  }

  /** The labelled lines of the visuals request, in order. */
  function RequestLines(d: Directive): seq<string>
  {
    ["Crop Name: " + d.crop, "Generation Type: " + d.kind, "Location: " + d.location,
     "Current Date: " + d.date, "NPK Readings: " + d.npk]
  }

  /** The visuals request: the labelled lines joined by newlines. */
  function ScheduleRequest(d: Directive): string
  {
    Join(RequestLines(d), "\n")
  }

  /** The request is five lines, each a label and its field. */
  lemma ScheduleRequestLines(d: Directive)
    requires forall i :: 0 <= i < 5 ==> '\n' !in DirectiveFields(d)[i]
    ensures Split(ScheduleRequest(d), '\n') == RequestLines(d)
  {
    var ls := RequestLines(d);
    forall i | 0 <= i < 5 ensures '\n' !in ls[i] {
      assert '\n' !in DirectiveFields(d)[i];
    }
    SplitJoin(ls, '\n');
  }

  /** The generator's three turns are well-formed, so they are sent as built. */
  lemma VisualsTurnsSentAsIs(request: string)
    ensures Normalize(List(ProcessVisualBotQuery(request))) == Ok(ProcessVisualBotQuery(request))
  {
    var ts := ProcessVisualBotQuery(request);
    forall i | 0 <= i < 3 ensures WellFormedTurn(ts[i]) {
      assert ts[i].fields["parts"].items[0].Str?;
    }
    WellFormedSentAsIs(ts);
  }

  function ErrorDict(msg: string): map<string, Value>
  {
    map["error" := Str(msg)]
  }

  /** The visuals call of a directive: the accessory model on the three
      generator turns. */
  function VisualsCall(d: Directive, cfg: Config, backend: Backend): AiReply
  {
    AiCall(List(ProcessVisualBotQuery(ScheduleRequest(d))), cfg.freeAccessoryModel, cfg.freeAccessoryKey, backend)
  }

  /** The dict parsed from the `<data>` tag of a visuals reply (with the
      `ast` parser), or which of the two format errors it gives. */
  function ScheduleDict(text: string, parsers: Parsers): (r: Result<map<string, Value>, string>)
    ensures r.Err? ==> r.error == NoDataTag || r.error == BadData
    ensures r.Err? && r.error == NoDataTag <==> ExtractTag(text, "data").None? || ExtractTag(text, "data").value == ""
    ensures r.Ok? ==> StringToDict(ExtractTag(text, "data").value, "ast", parsers) == Ok(Dict(r.value))
    ensures var data := ExtractTag(text, "data");
      data.Some? && data.value != "" && StringToDict(data.value, "ast", parsers).Ok?
      && StringToDict(data.value, "ast", parsers).value.Dict? ==>
        r == Ok(StringToDict(data.value, "ast", parsers).value.fields)
  {
    var data := ExtractTag(text, "data");
    if data.None? || data.value == "" then Err(NoDataTag)
    else
      match StringToDict(data.value, "ast", parsers)
      case Err(_) => Err(BadData)
      case Ok(v) => if v.Dict? then Ok(v.fields) else Err(BadData)
  }

  /** The schedule dict with the visuals call's token counts added. */
  function WithVisualsTokens(m: map<string, Value>, input: int, output: int): map<string, Value>
  {
    m["_visuals_input_tokens" := Num(input)]["_visuals_output_tokens" := Num(output)]
  }

  /** The result holds every key of the schedule dict and the two token
      counts, and nothing else; the token counts win over keys of the same
      name. */
  lemma WithVisualsTokensFields(m: map<string, Value>, input: int, output: int)
    ensures var r := WithVisualsTokens(m, input, output);
      && r.Keys == m.Keys + {"_visuals_input_tokens", "_visuals_output_tokens"}
      && r["_visuals_input_tokens"] == Num(input) && r["_visuals_output_tokens"] == Num(output)
      && forall k :: k in m && k != "_visuals_input_tokens" && k != "_visuals_output_tokens" ==> r[k] == m[k]
  {
  }

  /** What `generate_schedule_data(gen_tag_content)` returns: the parsed
      `<data>` dict with the visuals call's token counts added, or an error
      dict. */
  function ScheduleOutcome(g: string, cfg: Config, backend: Backend, parsers: Parsers): (r: map<string, Value>)
    ensures CountChar(g, '|') != 4 ==> r == ErrorDict(BadDirective)
  {
    match ParseDirective(g)
    case Err(e) => ErrorDict(e)
    case Ok(d) =>
      if !Present(cfg.freeAccessoryKey) || !Present(cfg.freeAccessoryModel) then ErrorDict(ScheduleNotConfigured)
      else AfterVisuals(VisualsCall(d, cfg, backend), parsers)
  }

  /** The outcome once the visuals call has returned. */
  function AfterVisuals(reply: AiReply, parsers: Parsers): map<string, Value>
  {
    if reply.Failure? then ErrorDict(reply.error)
    else if reply.text == "" then ErrorDict(NoSchedule)
    else
      match ScheduleDict(reply.text, parsers)
      case Err(e) => ErrorDict(e)
      case Ok(m) => WithVisualsTokens(m, reply.inputTokens, reply.outputTokens)
  }

  /** A dict holding one error message. */
  predicate OneError(r: map<string, Value>)
  {
    r.Keys == {"error"} && r["error"].Str?
  }

  /** Every failure is a dict holding one error message; every success
      carries the token keys. */
  lemma {:induction false} ScheduleFailureIsOneMessage(g: string, cfg: Config, backend: Backend, parsers: Parsers)
    ensures var r := ScheduleOutcome(g, cfg, backend, parsers);
      "_visuals_input_tokens" !in r ==> r.Keys == {"error"} && r["error"].Str?
  {
    var p := ParseDirective(g);
    if p.Err? {
      assert OneError(ErrorDict(p.error));
    } else if !Present(cfg.freeAccessoryKey) || !Present(cfg.freeAccessoryModel) {
      assert OneError(ErrorDict(ScheduleNotConfigured));
    } else {
      VisualsFailure(VisualsCall(p.value, cfg, backend), parsers);
    }
  }

  lemma VisualsFailure(reply: AiReply, parsers: Parsers)
    ensures var r := AfterVisuals(reply, parsers);
      "_visuals_input_tokens" !in r ==> OneError(r)
  {
    if reply.Reply? && reply.text != "" {
      var m := ScheduleDict(reply.text, parsers);
      if m.Ok? {
        WithVisualsTokensFields(m.value, reply.inputTokens, reply.outputTokens);
      }
    }
  }

  /** The errors of `generate_schedule_data`: a directive without five
      fields, a missing accessory key or model, an error of the visuals
      call (forwarded as it is), a reply without a non-empty `<data>` tag,
      and a `<data>` tag that does not parse into a dict. */
  lemma ScheduleErrors(g: string, cfg: Config, backend: Backend, parsers: Parsers)
    ensures ParseDirective(g).Err? ==> ScheduleOutcome(g, cfg, backend, parsers) == ErrorDict(BadDirective)
    ensures ParseDirective(g).Ok? && (!Present(cfg.freeAccessoryKey) || !Present(cfg.freeAccessoryModel)) ==>
              ScheduleOutcome(g, cfg, backend, parsers) == ErrorDict(ScheduleNotConfigured)
    ensures ParseDirective(g).Ok? && Present(cfg.freeAccessoryKey) && Present(cfg.freeAccessoryModel) ==>
              ScheduleOutcome(g, cfg, backend, parsers)
              == AfterVisuals(VisualsCall(ParseDirective(g).value, cfg, backend), parsers)
    ensures ParseDirective(g).Ok? && Present(cfg.freeAccessoryKey) && Present(cfg.freeAccessoryModel) ==>
              var reply := VisualsCall(ParseDirective(g).value, cfg, backend);
              reply.Failure? ==> ScheduleOutcome(g, cfg, backend, parsers) == ErrorDict(reply.error)
  {
  }

  /** The errors once the visuals call has returned: its error is
      forwarded; a reply without a non-empty `<data>` tag gives the
      missing-tag message; one whose `<data>` does not parse into a dict
      gives the invalid-data message. */
  lemma VisualsErrors(reply: AiReply, parsers: Parsers)
    ensures reply.Failure? ==> AfterVisuals(reply, parsers) == ErrorDict(reply.error)
    ensures reply.Reply? && reply.text != "" ==>
              var data := ExtractTag(reply.text, "data");
              && (data.None? || data.value == "" ==> AfterVisuals(reply, parsers) == ErrorDict(NoDataTag))
              && (data.Some? && data.value != "" && StringToDict(data.value, "ast", parsers).Err? ==>
                    AfterVisuals(reply, parsers) == ErrorDict(BadData))
              && (data.Some? && data.value != "" && StringToDict(data.value, "ast", parsers).Ok?
                  && !StringToDict(data.value, "ast", parsers).value.Dict? ==>
                    AfterVisuals(reply, parsers) == ErrorDict(BadData))
  {
  }

  /** A schedule is produced only from a well-formed directive and a
      configured accessory model, by a reply of the backend to the three
      generator turns built from it, sent as they are; it is that reply's
      `<data>` dict with the reply's token counts. */
  lemma ScheduleProduced(g: string, cfg: Config, backend: Backend, parsers: Parsers)
    requires "_visuals_input_tokens" in ScheduleOutcome(g, cfg, backend, parsers)
    ensures ParseDirective(g).Ok? && Present(cfg.freeAccessoryKey) && Present(cfg.freeAccessoryModel)
    ensures var reply := backend(cfg.freeAccessoryKey.value, cfg.freeAccessoryModel.value,
                                 ProcessVisualBotQuery(ScheduleRequest(ParseDirective(g).value)));
      && reply.Reply? && reply.text != ""
      && ScheduleDict(reply.text, parsers).Ok?
      && ScheduleOutcome(g, cfg, backend, parsers)
         == WithVisualsTokens(ScheduleDict(reply.text, parsers).value, reply.inputTokens, reply.outputTokens)
  {
    var d := ParseDirective(g).value;
    VisualsTurnsSentAsIs(ScheduleRequest(d));
    var reply := VisualsCall(d, cfg, backend);
    assert reply.Reply?;
  }

  /** `generate_schedule_data`: the directive, the configuration check and
      the visuals call; the reply is read by `ReadSchedule`. */
  method GenerateScheduleData(g: string, cfg: Config, backend: Backend, parsers: Parsers)
    returns (r: map<string, Value>)
    ensures r == ScheduleOutcome(g, cfg, backend, parsers)
  {
    var parsed := ParseDirective(g);
    if parsed.Err? {
      return ErrorDict(parsed.error);
    }
    var d := parsed.value;
    var model, key := cfg.freeAccessoryModel, cfg.freeAccessoryKey;
    if !Present(key) || !Present(model) {
      return ErrorDict(ScheduleNotConfigured);
    }
    var request := ScheduleRequest(d);
    var raw := CallAiModel(List(ProcessVisualBotQuery(request)), model, key, backend);
    r := ReadSchedule(raw, parsers);
  }

  /** The checks on the visuals reply and the parse of its `<data>` tag
      that end `generate_schedule_data`. */
  method ReadSchedule(raw: AiReply, parsers: Parsers) returns (r: map<string, Value>)
    ensures r == AfterVisuals(raw, parsers)
  {
    if raw.Failure? {
      return ErrorDict(raw.error);
    }
    if raw.text == "" {
      return ErrorDict(NoSchedule);
    }
    var data := ExtractTag(raw.text, "data");
    if data.None? || data.value == "" {
      return ErrorDict(NoDataTag);
    }
    var schedule := StringToDict(data.value, "ast", parsers);
    if schedule.Err? || !schedule.value.Dict? {
      return ErrorDict(BadData);
    }
    r := schedule.value.fields;
    r := r["_visuals_input_tokens" := Num(raw.inputTokens)];
    r := r["_visuals_output_tokens" := Num(raw.outputTokens)];
  }

  // ---------------------------------------------------------------------
  // Crop recommendations

  const RecNotConfigured: string := "AI recommendations service not configured."
  const NoAnalysis: string := "AI analysis failed to produce results."
  const NoFormatting: string := "AI formatting failed to produce results."
  const BadRecommendations: string := "Internal error processing AI recommendation results."

  /** A value of the dict `get_recommendations` returns: a crop record, a
      token count, or an error message. */
  datatype Field = CropField(info: CropInfo) | Count(n: int) | Message(text: string)

  function RecError(msg: string): map<string, Field>
  {
    map["error" := Message(msg)]
  }

  /** The crop records with the summed token counts of both stages. */
  function WithTotals(crops: map<string, CropInfo>, input: int, output: int): map<string, Field>
  {
    CropFields(crops)["_total_input_tokens" := Count(input)]["_total_output_tokens" := Count(output)]
  }

  /** The result holds every crop record and the two token counts, and
      nothing else. */
  lemma WithTotalsFields(crops: map<string, CropInfo>, input: int, output: int)
    ensures var r := WithTotals(crops, input, output);
      && r.Keys == crops.Keys + {"_total_input_tokens", "_total_output_tokens"}
      && r["_total_input_tokens"] == Count(input) && r["_total_output_tokens"] == Count(output)
      && forall k :: k in crops && k != "_total_input_tokens" && k != "_total_output_tokens" ==>
           r[k] == CropField(crops[k])
  {
  }

  /** The crop records of `extractCropsInfo` as values of the result dict. */
  function CropFields(crops: map<string, CropInfo>): map<string, Field>
  {
    map k | k in crops :: CropField(crops[k])
  }

  /** The first stage: the paid model, with the recommendations key, on the
      analysis prompt for the location. */
  function AnalysisCall(location: string, cfg: Config, backend: Backend): AiReply
  {
    AiCall(Str(AnalysisPrompt(location)), cfg.paidModel, cfg.recommendationsKey, backend)
  }

  /** The second stage: the accessory model on the formatting prompt that
      embeds the first stage's answer. */
  function FormattingCall(analysis: string, cfg: Config, backend: Backend): AiReply
  {
    AiCall(Str(FormatPrompt(analysis)), cfg.freeAccessoryModel, cfg.freeAccessoryKey, backend)
  }

  /** The outcome once both stages have answered. */
  function Extracted(first: AiReply, second: AiReply): (r: map<string, Field>)
    requires first.Reply? && second.Reply?
  {
    var crops := CropsOf(second.text);
    if crops.None? || crops.value == map[] then RecError(BadRecommendations)
    else WithTotals(crops.value, first.inputTokens + second.inputTokens, first.outputTokens + second.outputTokens)
  }

  /** Readable crop records end the pipeline with the totals added. */
  lemma ExtractedFromCrops(first: AiReply, second: AiReply, crops: map<string, CropInfo>)
    requires first.Reply? && second.Reply?
    requires CropsOf(second.text) == Some(crops) && crops != map[]
    ensures Extracted(first, second)
            == WithTotals(crops, first.inputTokens + second.inputTokens, first.outputTokens + second.outputTokens)
  {
  }

  /** What `get_recommendations(location)` returns. */
  function RecommendOutcome(location: string, cfg: Config, backend: Backend): (r: map<string, Field>)
    ensures !Present(cfg.recommendationsKey) || !Present(cfg.paidModel) ==> r == RecError(RecNotConfigured)
  {
    if !Present(cfg.recommendationsKey) || !Present(cfg.paidModel) then RecError(RecNotConfigured)
    else AfterAnalysis(AnalysisCall(location, cfg, backend), cfg, backend)
  }

  /** The outcome once the first stage has returned. */
  function AfterAnalysis(first: AiReply, cfg: Config, backend: Backend): map<string, Field>
  {
    if first.Failure? then RecError(first.error)
    else if first.text == "" then RecError(NoAnalysis)
    else AfterFormatting(first, FormattingCall(first.text, cfg, backend))
  }

  /** The outcome once the second stage has returned. */
  function AfterFormatting(first: AiReply, second: AiReply): map<string, Field>
    requires first.Reply?
  {
    if second.Failure? then RecError(second.error)
    else if second.text == "" then RecError(NoFormatting)
    else Extracted(first, second)
  }

  /** A dict holding one error message. */
  predicate OneMessage(r: map<string, Field>)
  {
    r.Keys == {"error"} && r["error"].Message?
  }

  /** Every failure is a dict holding one error message. */
  lemma {:induction false} RecommendFailureIsOneMessage(location: string, cfg: Config, backend: Backend)
    ensures var r := RecommendOutcome(location, cfg, backend);
      "_total_input_tokens" !in r ==> r.Keys == {"error"} && r["error"].Message?
  {
    if Present(cfg.recommendationsKey) && Present(cfg.paidModel) {
      AnalysisFailure(AnalysisCall(location, cfg, backend), cfg, backend);
    } else {
      assert OneMessage(RecError(RecNotConfigured));
    }
  }

  lemma AnalysisFailure(first: AiReply, cfg: Config, backend: Backend)
    ensures var r := AfterAnalysis(first, cfg, backend);
      "_total_input_tokens" !in r ==> OneMessage(r)
  {
    if first.Reply? && first.text != "" {
      FormattingFailure(first, FormattingCall(first.text, cfg, backend));
    }
  }

  lemma FormattingFailure(first: AiReply, second: AiReply)
    requires first.Reply?
    ensures var r := AfterFormatting(first, second);
      "_total_input_tokens" !in r ==> OneMessage(r)
  {
    if second.Reply? && second.text != "" {
      var crops := CropsOf(second.text);
      if crops.Some? && crops.value != map[] {
        WithTotalsFields(crops.value, first.inputTokens + second.inputTokens, first.outputTokens + second.outputTokens);
      }
    }
  }

  /** Recommendations are produced only when both stages answer, the
      second on the prompt built from the first answer, and the second
      answer holds at least one readable run; the result holds every crop
      read and the token counts summed over both stages. */
  lemma RecommendationsProduced(location: string, cfg: Config, backend: Backend)
    requires "_total_input_tokens" in RecommendOutcome(location, cfg, backend)
    ensures AnalysisCall(location, cfg, backend).Reply?
    ensures var first := AnalysisCall(location, cfg, backend);
      var second := FormattingCall(first.text, cfg, backend);
      && second.Reply?
      && CropsOf(second.text).Some? && CropsOf(second.text).value != map[]
      && RecommendOutcome(location, cfg, backend)
         == WithTotals(CropsOf(second.text).value, first.inputTokens + second.inputTokens,
                       first.outputTokens + second.outputTokens)
  {
  }

  /** A failed stage is reported with its own message, and the second
      stage is only run on a first answer. */
  lemma StageFailuresForwarded(location: string, cfg: Config, backend: Backend)
    requires Present(cfg.recommendationsKey) && Present(cfg.paidModel)
    ensures AnalysisCall(location, cfg, backend).Failure? ==>
              RecommendOutcome(location, cfg, backend) == RecError(AnalysisCall(location, cfg, backend).error)
    ensures var first := AnalysisCall(location, cfg, backend);
      first.Reply? && FormattingCall(first.text, cfg, backend).Failure? ==>
        RecommendOutcome(location, cfg, backend) == RecError(FormattingCall(first.text, cfg, backend).error)
  {
  }

  /** A second answer without any readable run, or with a survivability
      that does not parse, is one error. */
  lemma UnreadableRecommendations(location: string, cfg: Config, backend: Backend)
    requires Present(cfg.recommendationsKey) && Present(cfg.paidModel)
    requires AnalysisCall(location, cfg, backend).Reply?
    requires FormattingCall(AnalysisCall(location, cfg, backend).text, cfg, backend).Reply?
    requires var t := FormattingCall(AnalysisCall(location, cfg, backend).text, cfg, backend).text;
      CropsOf(t).None? || CropsOf(t).value == map[]
    ensures RecommendOutcome(location, cfg, backend) == RecError(BadRecommendations)
  {
  }

  /** `get_recommendations`: the configuration check and the first stage;
      the rest is carried on by `FormatAnalysis`. */
  method GetRecommendations(location: string, cfg: Config, backend: Backend) returns (r: map<string, Field>)
    ensures r == RecommendOutcome(location, cfg, backend)
  {
    var model, key := cfg.paidModel, cfg.recommendationsKey;
    if !Present(key) || !Present(model) {
      return RecError(RecNotConfigured);
    }
    var analysis := CallAiModel(Str(AnalysisPrompt(location)), model, key, backend);
    r := FormatAnalysis(analysis, cfg, backend);
  }

  /** The checks on the first answer and the second stage of
      `get_recommendations`. */
  method FormatAnalysis(analysis: AiReply, cfg: Config, backend: Backend) returns (r: map<string, Field>)
    ensures r == AfterAnalysis(analysis, cfg, backend)
  {
    if analysis.Failure? {
      return RecError(analysis.error);
    }
    if analysis.text == "" {
      return RecError(NoAnalysis);
    }
    var formattingPrompt := FormatPrompt(analysis.text);
    var model, key := cfg.freeAccessoryModel, cfg.freeAccessoryKey;
    var formatting := CallAiModel(Str(formattingPrompt), model, key, backend);
    r := ReadRecommendations(analysis, formatting);
  }

  /** The checks on the second answer and the extraction of the crop
      records that ends `get_recommendations`. */
  method ReadRecommendations(analysis: AiReply, formatting: AiReply) returns (r: map<string, Field>)
    requires analysis.Reply?
    ensures r == AfterFormatting(analysis, formatting)
  {
    if formatting.Failure? {
      return RecError(formatting.error);
    }
    if formatting.text == "" {
      return RecError(NoFormatting);
    }
    var parsed := ExtractCropsInfo(formatting.text);
    if parsed.None? || parsed.value == map[] {
      return RecError(BadRecommendations);
    }
    ExtractedFromCrops(analysis, formatting, parsed.value);
    r := WithTotals(parsed.value, analysis.inputTokens + formatting.inputTokens,
                    analysis.outputTokens + formatting.outputTokens);
  }
}
