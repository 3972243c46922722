/** The chat endpoint: it validates the request, appends the new message to
    the caller's transcript, sends the context-injected transcript to the
    chat model, reads the tags of the reply, runs the visuals generator on a
    `<gen>` directive, and answers with the extended transcript, the `<r>`
    text, the `<cls>` classification, the visuals data and the token counts.

    The HTTP layer is reduced to its data: the decoded JSON body (`None`
    when there is none) in, a status and an error or a payload out. */
module ChatRoutes {
  import opened Basics
  import opened Text
  import opened Tags
  import opened Prompts
  import opened AiService

  const NoBody: string := "Invalid request: No JSON body found"
  const NoMessage: string := "Invalid request: 'message' field is required"
  const HistoryNotList: string := "Invalid request: 'history' must be a list"
  const BadHistory: string := "Internal server error processing chat history"
  const AiFailed: string := "Failed to get response from AI service."
  const AiEmpty: string := "AI service returned an empty response."

  /** The `response` field when the reply has no `<r>` text. */
  const Fallback: string := "..."

  const SuccessNotice: string :=
    "<g>System: Visual data generated successfully. ...</g>"

  /** The notice added to the transcript when the visuals generator reports
      an error. */
  function FailureNotice(err: Value): string
  {
    "<g>System: Failed to generate ... Error: " + Display(err) + ". ...</g>"
  }

  /** The JSON object of a successful answer. `visualsTokens` holds the two
      `_visuals_*_tokens` fields, present only when visuals data was
      returned. */
  datatype ChatPayload = ChatPayload(
    response: string,
    history: seq<Value>,
    classification: Option<string>,
    visuals: Option<map<string, Value>>,
    inputTokens: int,
    outputTokens: int,
    visualsTokens: Option<(Value, Value)>)

  /** A status with an error message, or a 200 with the payload. */
  datatype ChatResponse = Refused(status: int, error: string) | Answered(payload: ChatPayload)

  /** The fields `handle_chat` reads from a valid request. */
  datatype ChatInput = ChatInput(message: Value, history: seq<Value>, usePro: bool, ctx: Context)

  // ---------------------------------------------------------------------
  // Specification

  /** The request checks, in the order the route makes them. */
  function ReadRequest(body: Option<map<string, Value>>): Result<ChatInput, ChatResponse>
  {
    if body.None? || body.value == map[] then Err(Refused(400, NoBody))
    else
      var d := body.value;
      var message := Get(d, "message", Null);
      var history := Get(d, "history", List([]));
      if !Truthy(message) then Err(Refused(400, NoMessage))
      else if !history.List? then Err(Refused(400, HistoryNotList))
      else
        Ok(ChatInput(message, history.items, Truthy(Get(d, "use_pro_model", Bool(false))),
                     Context(Get(d, "location", Null), Get(d, "npk", Null), Get(d, "date", Null))))
  }

  /** The caller's transcript with the new message as an untagged user turn. */
  function Extended(input: ChatInput): seq<Value>
  {
    input.history + [Turn("user", [input.message])]
  }

  /** The turns appended after the model's reply `raw`, and the visuals
      data, for the `<gen>` content `gen` of that reply. */
  function Appended(raw: string, gen: Option<string>, cfg: Config, backend: Backend, parsers: Parsers)
    : (seq<Value>, Option<map<string, Value>>)
  {
    if gen.None? || gen.value == "" then ([Turn("model", [Str(raw)])], None)
    else GenTurns(raw, ScheduleOutcome(gen.value, cfg, backend, parsers))
  }

  /** The raw reply, the notice about the generator's `schedule` framed as
      a user turn, the acknowledgement, and the visuals data unless the
      schedule reports an error. */
  function GenTurns(raw: string, schedule: map<string, Value>): (seq<Value>, Option<map<string, Value>>)
  {
    var failed := "error" in schedule;
    var notice := if failed then FailureNotice(schedule["error"]) else SuccessNotice;
    var framed := NoticeFrame(notice);
    ([Turn("model", [Str(raw)]), Turn("user", [Str(framed.0)]), Turn("model", [Str(framed.1)])],
     if failed then None else Some(schedule))
  }

  /** The user and model texts `formatVisualBotResponse` makes of a notice. */
  function NoticeFrame(notice: string): (string, string)
    requires notice != ""
  {
    var f := FormatVisualBotResponse(notice).value;
    (f.0, f.1)
  }

  /** The visuals data with its token keys popped, and the popped values
      (0 when absent); only a non-empty dict is popped. */
  function Popped(visuals: Option<map<string, Value>>): (Option<map<string, Value>>, Option<(Value, Value)>)
  {
    if visuals.None? || visuals.value == map[] then (visuals, None)
    else
      var v := visuals.value;
      (Some(v - {"_visuals_input_tokens", "_visuals_output_tokens"}),
       Some((Get(v, "_visuals_input_tokens", Num(0)), Get(v, "_visuals_output_tokens", Num(0)))))
  }

  /** The answer built from a non-empty reply of the chat model. */
  function Answer(history: seq<Value>, reply: AiReply, cfg: Config, backend: Backend, parsers: Parsers): ChatPayload
    requires reply.Reply?
  {
    var raw := reply.text;
    var r := ExtractTag(raw, "r");
    var appended := Appended(raw, ExtractTag(raw, "gen"), cfg, backend, parsers);
    var popped := Popped(appended.1);
    ChatPayload(if r.Some? && r.value != "" then r.value else Fallback,
                history + appended.0, ExtractTag(raw, "cls"), popped.0,
                reply.inputTokens, reply.outputTokens, popped.1)
  }

  /** What the route answers to a valid request. */
  function Respond(input: ChatInput, cfg: Config, backend: Backend, parsers: Parsers): ChatResponse
  {
    var history := Extended(input);
    match Injected(history, input.ctx)
    case Err(_) => Refused(500, BadHistory)
    case Ok(processed) =>
      AfterChat(history, ChatCall(processed, input.usePro, cfg, backend), cfg, backend, parsers)
  }

  /** What the route answers once the chat model has returned. */
  function AfterChat(history: seq<Value>, reply: AiReply, cfg: Config, backend: Backend, parsers: Parsers)
    : ChatResponse
  {
    if reply.Failure? then Refused(500, AiFailed)
    else if reply.text == "" then Refused(500, AiEmpty)
    else Answered(Answer(history, reply, cfg, backend, parsers))
  }

  /** What `handle_chat` answers to a request body. */
  function ChatOutcome(body: Option<map<string, Value>>, cfg: Config, backend: Backend, parsers: Parsers)
    : ChatResponse
  {
    match ReadRequest(body)
    case Err(refusal) => refusal
    case Ok(input) => Respond(input, cfg, backend, parsers)
  }

  // ---------------------------------------------------------------------
  // Properties

  /** A missing or empty body is refused first, then a missing or falsy
      message (whatever the history), then a history that is not a list;
      every refusal is a 400. */
  lemma RequestChecksInOrder(body: Option<map<string, Value>>)
    ensures body.None? || body.value == map[] ==> ReadRequest(body) == Err(Refused(400, NoBody))
    ensures body.Some? && body.value != map[] && !Truthy(Get(body.value, "message", Null)) ==>
              ReadRequest(body) == Err(Refused(400, NoMessage))
    ensures body.Some? && body.value != map[] && Truthy(Get(body.value, "message", Null))
            && !Get(body.value, "history", List([])).List? ==>
              ReadRequest(body) == Err(Refused(400, HistoryNotList))
    ensures ReadRequest(body).Err? ==> ReadRequest(body).error.Refused? && ReadRequest(body).error.status == 400
  {
  }

  /** A valid request is read field by field: the message, the history
      (empty when absent), the model choice (free when absent) and the
      three optional context fields. */
  lemma RequestRead(body: Option<map<string, Value>>)
    requires ReadRequest(body).Ok?
    ensures var d, input := body.value, ReadRequest(body).value;
      && Truthy(input.message) && input.message == d["message"]
      && List(input.history) == Get(d, "history", List([]))
      && input.usePro == Truthy(Get(d, "use_pro_model", Bool(false)))
      && input.ctx == Context(Get(d, "location", Null), Get(d, "npk", Null), Get(d, "date", Null))
  {
  }

  /** Injecting the context into the extended transcript never fails, so
      the history-processing error is never answered. */
  lemma {:induction false} InjectionNeverFails(input: ChatInput, cfg: Config, backend: Backend, parsers: Parsers)
    ensures Respond(input, cfg, backend, parsers) != Refused(500, BadHistory)
    ensures Injected(Extended(input), input.ctx).Ok?
  {
    NewMessageInjected(input.history, input.message, input.ctx);
  }

  /** An error from the chat model, or an empty reply, is a 500 that
      returns no transcript. */
  lemma ChatFailureIs500(history: seq<Value>, reply: AiReply, cfg: Config, backend: Backend, parsers: Parsers)
    ensures reply.Failure? ==> AfterChat(history, reply, cfg, backend, parsers) == Refused(500, AiFailed)
    ensures reply.Reply? && reply.text == "" ==> AfterChat(history, reply, cfg, backend, parsers) == Refused(500, AiEmpty)
    ensures AfterChat(history, reply, cfg, backend, parsers).Answered? <==> reply.Reply? && reply.text != ""
  {
  }

  /** The transcript sent to the model is the injected one, and an answer
      comes only from a non-empty reply to it. */
  lemma {:induction false} AnsweredFromReply(input: ChatInput, cfg: Config, backend: Backend, parsers: Parsers)
    requires Respond(input, cfg, backend, parsers).Answered?
    ensures var reply := ChatCall(Injected(Extended(input), input.ctx).value, input.usePro, cfg, backend);
      && reply.Reply? && reply.text != ""
      && Respond(input, cfg, backend, parsers) == Answered(Answer(Extended(input), reply, cfg, backend, parsers))
  {
    InjectionNeverFails(input, cfg, backend, parsers);
  }

  /** The returned transcript is the caller's, then the untagged new
      message, then one model turn holding the raw reply, then, for a
      `<gen>` directive, the framed notice and its acknowledgement; neither
      the injected tags nor the priming turns appear in it. */
  lemma AnswerHistory(history: seq<Value>, reply: AiReply, cfg: Config, backend: Backend, parsers: Parsers)
    requires reply.Reply?
    ensures var p, gen := Answer(history, reply, cfg, backend, parsers), ExtractTag(reply.text, "gen");
      && |p.history| == |history| + (if gen.None? || gen.value == "" then 1 else 3)
      && p.history[..|history|] == history
      && p.history[|history|] == Turn("model", [Str(reply.text)])
  {
    var appended := Appended(reply.text, ExtractTag(reply.text, "gen"), cfg, backend, parsers);
    assert (history + appended.0)[..|history|] == history;
  }

  /** The two turns after a `<gen>` reply: the notice framed as a user turn
      (success or the generator's error) and the fixed acknowledgement. */
  lemma GenNoticeTurns(raw: string, gen: string, cfg: Config, backend: Backend, parsers: Parsers)
    requires gen != ""
    ensures var turns := Appended(raw, Some(gen), cfg, backend, parsers).0;
      var schedule := ScheduleOutcome(gen, cfg, backend, parsers);
      var notice := if "error" in schedule then FailureNotice(schedule["error"]) else SuccessNotice;
      && |turns| == 3
      && turns[1] == Turn("user", [Str(NoticeFrame(notice).0)])
      && OccursAt(NoticeFrame(notice).0, notice, |NoticeHead|)
      && turns[2] == Turn("model", [Str(NoticeAck)])
  {
    var schedule := ScheduleOutcome(gen, cfg, backend, parsers);
    var notice := if "error" in schedule then FailureNotice(schedule["error"]) else SuccessNotice;
    assert notice != "" by {
      if "error" in schedule {
        assert FailureNotice(schedule["error"])[0] == '<';
      }
    }
  }

  /** Visuals data is returned only for a `<gen>` directive the generator
      answered without an error, and then it is the generator's dict
      without its token keys, whose values are reported beside it. */
  lemma VisualsOnlyOnSuccess(history: seq<Value>, reply: AiReply, cfg: Config, backend: Backend, parsers: Parsers)
    requires reply.Reply?
    ensures var p, gen := Answer(history, reply, cfg, backend, parsers), ExtractTag(reply.text, "gen");
      p.visuals.Some? <==>
        gen.Some? && gen.value != "" && "error" !in ScheduleOutcome(gen.value, cfg, backend, parsers)
    ensures var p, gen := Answer(history, reply, cfg, backend, parsers), ExtractTag(reply.text, "gen");
      p.visuals.Some? ==>
        var schedule := ScheduleOutcome(gen.value, cfg, backend, parsers);
        && p.visuals.value == schedule - {"_visuals_input_tokens", "_visuals_output_tokens"}
        && p.visualsTokens == Some((Get(schedule, "_visuals_input_tokens", Num(0)),
                                    Get(schedule, "_visuals_output_tokens", Num(0))))
  {
    var gen := ExtractTag(reply.text, "gen");
    if gen.Some? && gen.value != "" {
      var schedule := ScheduleOutcome(gen.value, cfg, backend, parsers);
      ScheduleFailureIsOneMessage(gen.value, cfg, backend, parsers);
      GenVisuals(reply.text, schedule);
    }
  }

  /** For a generator result that is an error or carries the token keys,
      visuals data is returned exactly when there is no error, popped. */
  lemma GenVisuals(raw: string, schedule: map<string, Value>)
    requires "error" in schedule || "_visuals_input_tokens" in schedule
    ensures var p := Popped(GenTurns(raw, schedule).1);
      && (p.0.Some? <==> "error" !in schedule)
      && (p.0.Some? ==> p.0.value == schedule - {"_visuals_input_tokens", "_visuals_output_tokens"}
                        && p.1 == Some((Get(schedule, "_visuals_input_tokens", Num(0)),
                                        Get(schedule, "_visuals_output_tokens", Num(0)))))
  {
    if "error" !in schedule {
      assert schedule != map[] by {
        assert "_visuals_input_tokens" in schedule;
      }
    }
  }

  /** The `response` field is the `<r>` text, or "..." when the reply has
      none; `classification` is the `<cls>` text or null; the token counts
      are those of the chat reply. */
  lemma AnswerFields(history: seq<Value>, reply: AiReply, cfg: Config, backend: Backend, parsers: Parsers)
    requires reply.Reply?
    ensures var p, r := Answer(history, reply, cfg, backend, parsers), ExtractTag(reply.text, "r");
      && (r.Some? && r.value != "" ==> p.response == r.value)
      && (r.None? || r.value == "" ==> p.response == Fallback)
      && p.classification == ExtractTag(reply.text, "cls")
      && p.inputTokens == reply.inputTokens && p.outputTokens == reply.outputTokens
  {
  }

  /** Popping leaves no token key in the returned visuals data and keeps
      every other key. */
  lemma PoppedKeys(visuals: Option<map<string, Value>>)
    ensures var p := Popped(visuals);
      && p.0.Some? == visuals.Some?
      && (p.0.Some? ==> "_visuals_input_tokens" !in p.0.value && "_visuals_output_tokens" !in p.0.value)
      && (p.0.Some? ==> forall k :: (k in visuals.value && k != "_visuals_input_tokens" && k != "_visuals_output_tokens")
                                    ==> k in p.0.value && p.0.value[k] == visuals.value[k])
  {
  }

  // ---------------------------------------------------------------------
  // The route

  /** `handle_chat`: the checks, the append of the new message, the
      injection and the chat call; the reply is handled by `HandleReply`. */
  method HandleChat(body: Option<map<string, Value>>, cfg: Config, backend: Backend, parsers: Parsers)
    returns (r: ChatResponse)
    ensures r == ChatOutcome(body, cfg, backend, parsers)
  {
    if body.None? || body.value == map[] {
      return Refused(400, NoBody);
    }
    var data := body.value;
    var userMessage := Get(data, "message", Null);
    var history := Get(data, "history", List([]));
    var useProModel := Get(data, "use_pro_model", Bool(false));
    var ctx := Context(Get(data, "location", Null), Get(data, "npk", Null), Get(data, "date", Null));
    if !Truthy(userMessage) {
      return Refused(400, NoMessage);
    }
    if !history.List? {
      return Refused(400, HistoryNotList);
    }
    var transcript := history.items;
    transcript := transcript + [Turn("user", [userMessage])];
    var processed := ProcessChats(transcript, ctx);
    if processed.Err? {
      return Refused(500, BadHistory);
    }
    var aiResult := GetChatResponse(processed.value, Truthy(useProModel), cfg, backend);
    r := HandleReply(transcript, aiResult, cfg, backend, parsers);
  }

  /** The rest of `handle_chat`: the checks on the reply, its tags, the
      visuals generator, the appended turns and the payload. */
  method HandleReply(history: seq<Value>, aiResult: AiReply, cfg: Config, backend: Backend, parsers: Parsers)
    returns (r: ChatResponse)
    ensures r == AfterChat(history, aiResult, cfg, backend, parsers)
  {
    if aiResult.Failure? {
      return Refused(500, AiFailed);
    }
    var aiRawText := aiResult.text;
    if aiRawText == "" {
      return Refused(500, AiEmpty);
    }
    var extracted := ExtractTags(aiRawText, DefaultTags);
    assert "r" in DefaultTags && "gen" in DefaultTags && "cls" in DefaultTags;
    var aiResponseText := extracted["r"];
    var genTagContent := extracted["gen"];
    var classification := extracted["cls"];
    var transcript, visualsData := AppendReply(history, aiRawText, genTagContent, cfg, backend, parsers);
    var response := if aiResponseText.Some? && aiResponseText.value != "" then aiResponseText.value else Fallback;
    var visualsTokens;
    visualsData, visualsTokens := PopVisualsTokens(visualsData);
    r := Answered(ChatPayload(response, transcript, classification, visualsData,
                              aiResult.inputTokens, aiResult.outputTokens, visualsTokens));
  }

  /** The turns `handle_chat` appends after the model's reply, calling the
      visuals generator for a non-empty `<gen>` directive. */
  method AppendReply(history: seq<Value>, aiRawText: string, genTagContent: Option<string>,
                     cfg: Config, backend: Backend, parsers: Parsers)
    returns (transcript: seq<Value>, visualsData: Option<map<string, Value>>)
    ensures transcript == history + Appended(aiRawText, genTagContent, cfg, backend, parsers).0
    ensures visualsData == Appended(aiRawText, genTagContent, cfg, backend, parsers).1
  {
    if genTagContent.Some? && genTagContent.value != "" {
      var scheduleResult := GenerateScheduleData(genTagContent.value, cfg, backend, parsers);
      transcript, visualsData := AppendNotice(history, aiRawText, scheduleResult);
    } else {
      transcript, visualsData := history + [Turn("model", [Str(aiRawText)])], None;
    }
  }

  /** The raw reply and the framed notice about the generator's result. */
  method AppendNotice(history: seq<Value>, aiRawText: string, scheduleResult: map<string, Value>)
    returns (transcript: seq<Value>, visualsData: Option<map<string, Value>>)
    ensures transcript == history + GenTurns(aiRawText, scheduleResult).0
    ensures visualsData == GenTurns(aiRawText, scheduleResult).1
  {
    var modelFullResponsePart := Turn("model", [Str(aiRawText)]);
    transcript := history;
    visualsData := None;
    var notice;
    if "error" in scheduleResult {
      notice := FailureNotice(scheduleResult["error"]);
      assert notice[0] == '<';
    } else {
      visualsData := Some(scheduleResult);
      notice := SuccessNotice;
    }
    var framed := FormatVisualBotResponse(notice);
    var userMsgPart, botMsgPart := framed.value.0, framed.value.1;
    transcript := transcript + [modelFullResponsePart];
    transcript := transcript + [Turn("user", [Str(userMsgPart)])];
    transcript := transcript + [Turn("model", [Str(botMsgPart)])];
  }

  /** The two pops of the token keys from a non-empty visuals dict. */
  method PopVisualsTokens(visualsData: Option<map<string, Value>>)
    returns (visuals: Option<map<string, Value>>, tokens: Option<(Value, Value)>)
    ensures visuals == Popped(visualsData).0 && tokens == Popped(visualsData).1
  {
    visuals, tokens := visualsData, None;
    if visualsData.Some? && visualsData.value != map[] {
      var v := visualsData.value;
      var input := Get(v, "_visuals_input_tokens", Num(0));
      v := v - {"_visuals_input_tokens"};
      var output := Get(v, "_visuals_output_tokens", Num(0));
      v := v - {"_visuals_output_tokens"};
      assert v == visualsData.value - {"_visuals_input_tokens", "_visuals_output_tokens"};
      visuals := Some(v);
      tokens := Some((input, output));
    }
  }
}
