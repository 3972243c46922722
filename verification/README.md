# Kapricorn chat and recommendation core, in Dafny

Kapricorn is a Flask service for farmers. The model covers its two endpoints and the code beneath them:

- **Chat endpoint** (`POST /api/chat/`):
  - checks the request and appends the user's message to the transcript;
  - injects a `<g>System Context: …</g>` tag and puts the two priming turns in front (`processChats`);
  - asks the chat model for a reply;
  - reads back the reply's pseudo-XML tags (`<r>`, `<cls>`, `<gen>`, … — `extract_tags`);
  - for a `<gen>` directive, calls the visuals generator and frames its outcome as a notice turn;
  - returns the transcript, the visuals data and the token counts.
- **Crop recommendation endpoint** (`POST /api/recommend/crops`):
  - checks the location;
  - runs the two-stage pipeline: an analysis prompt, then a formatting prompt around the analysis;
  - parses the tagged crop runs into records (`extractCropsInfo`);
  - maps a reported error to a 500 or 503, or pops the token totals from a result.

Layout, one module per file:

- `basics.dfy`: JSON values, Python truthiness, generic sequence facts.
- `text.dfy`: the Python string operations used: `find`, `in`, `strip`, `split`, `join`, `str(int)`, decimal `float`.
- `tags.dfy`: `extract_tags`.
- `crops.dfy`: `extractCropsInfo`.
- `prompts.dfy`: the rest of `prompts.py`.
- `ai_service.dfy`: `ai_service.py`.
- `chat_routes.dfy` and `recommendation_routes.dfy`: the two routes.

How each part is modelled:

- **Loops become methods.** Each loop of the source is a `method` whose `ensures` ties its result to a specification function. The properties are proved about that function:
  - `ExtractTags` against `ExtractTag`;
  - `ProcessChats`/`RewriteParts` against `Injected`;
  - `BuildContent`/`SanitizeParts` against `Normalize`;
  - `ExtractCropsInfo` against `CropsOf`.
- **Branch chains.** Straight-line chains that return early are methods proved equal to stage functions:
  - `handle_chat`;
  - `crop_recommendations`;
  - `generate_schedule_data`;
  - `get_recommendations`;
  - `call_ai_model`.
- **Stage methods.** Long bodies are split at the points where the source's control flow meets. One source function may therefore be two or three methods, e.g. `HandleChat` + `HandleReply` + `AppendReply`.
- **The backend is a parameter.** The generative backend (SDK configuration, token counting, generation, response probing) is a function parameter from (API key, model name, content) to a reply or an error message.
- **Configuration and parsers are data.** The app configuration is a record of optional strings. `ast.literal_eval` and `json.loads` are function parameters.

## Model

| member | source | states |
|---|---|---|
| `Text.FindFrom` | kapricorn/prompts.py:436-437 | the first occurrence of a pattern at or after a start index; none before it; none at all when absent |
| `Text.Contains` | kapricorn/routes/recommendation_routes.py:32 | Python's substring test holds exactly when the pattern occurs somewhere |
| `Text.StripByTrims` | kapricorn/prompts.py:441 | stripping removes a run of the stripped characters at each end and nothing else |
| `Text.TrimUnique` | kapricorn/prompts.py:441 | there is only one such trim of a string |
| `Text.StripByIdempotent` | kapricorn/routes/recommendation_routes.py:20-26 | stripping twice is stripping once |
| `Text.StripByFrame` | kapricorn/prompts.py:127 | stripping a text framed by whitespace gives the text back |
| `Text.Split` | kapricorn/ai_service.py:210-211 | a split has one more piece than separators, and no piece holds the separator |
| `Text.JoinSplit` | kapricorn/ai_service.py:210 | joining a split with its separator gives the string back |
| `Text.SplitJoin` | kapricorn/ai_service.py:229 | splitting a join of separator-free pieces gives the pieces back |
| `Text.NatToDecimal` | kapricorn/prompts.py:377-379 | `str(n)` is a non-empty string of digits |
| `Text.DigitsValueOfDecimal` | kapricorn/prompts.py:377-379 | the digits of `str(n)` read back as `n` |
| `Text.DecimalRoundTrip` | kapricorn/prompts.py:150 | `float(str(n)) == n` for every natural number |
| `Tags.TagsAreTagShaped` | kapricorn/prompts.py:436 | `<t>` and `</t>` have a single `<`, at their start, for every tag name |
| `Tags.Scan` | kapricorn/prompts.py:436-437 | a lazy match exists exactly when an opening and then a closing tag are found; it is the text between the first opening and the first closing tag after it |
| `Tags.ScanAt` | kapricorn/prompts.py:436-437 | a pair written after text free of the opening tag, around text free of the closing tag, is what the match returns |
| `Tags.ExtractTag` | kapricorn/prompts.py:436-443 | the value stored for a tag is the stripped text of its first pair, and none when no pair exists |
| `Tags.ExtractTags` | kapricorn/prompts.py:430-445 | the loop builds one entry per requested tag, equal to `ExtractTag` |
| `Tags.DecodeFirst` | kapricorn/prompts.py:436-441 | encoding then decoding: `pre <t>x</t> post` reads back as `strip(x)` when `pre` has no `<t>` and `x` has no `</t>` |
| `Crops.Chain` | kapricorn/prompts.py:137-143 | the lazy five-group match is a chain of first-occurrence searches; it reads one group per tag and moves forward |
| `Crops.NextBlockChain` | kapricorn/prompts.py:137-146 | a match from a position exists exactly when the chain succeeds, and its groups are the chain's, in the pattern's order |
| `Crops.NoBlockAtEnd` | kapricorn/prompts.py:146 | no match starts at the end of the reply, so `findall` stops |
| `Crops.ChainRendered` | kapricorn/prompts.py:137-143 | a chain of pairs written one after another is read back by the searches, ending where the writing ends |
| `Crops.BlocksFound` | kapricorn/prompts.py:146 | `findall` returns exactly the runs the successive searches find, in order |
| `Crops.WrittenIsFound` | kapricorn/prompts.py:146 | runs written back to back are found one after the other |
| `Crops.NextRendered` | kapricorn/prompts.py:137-146 | one written run is the next match, and the search resumes right after it |
| `Crops.GroupsInjective` | kapricorn/prompts.py:146-151 | a match is determined by its five groups |
| `Crops.BlocksStep` | kapricorn/prompts.py:146 | `findall` takes the first match and resumes after it |
| `Crops.Bullets` | kapricorn/prompts.py:149 | the list comprehension keeps at most one entry per line |
| `Crops.BulletsAppend` | kapricorn/prompts.py:149 | the comprehension keeps the order of the lines |
| `Crops.BulletsRoundTrip` | kapricorn/prompts.py:149 | entries written one per line as `- e` and joined by newlines are read back unchanged |
| `Crops.BulletsOfLines` | kapricorn/prompts.py:149 | each `- e` line gives back its entry `e` |
| `Crops.CleanBullet` | kapricorn/prompts.py:149 | `line.strip("- ").strip()` undoes the `- ` prefix of a plain entry |
| `Crops.DashLineGivesEmptyEntry` | kapricorn/prompts.py:149 | a line holding only `-` is not blank, so it yields an empty entry |
| `Crops.PercentRoundTrip` | kapricorn/prompts.py:150 | a whole percentage written as digits and `%` parses to its value |
| `Crops.PaddedPercentFails` | kapricorn/prompts.py:150 | `" 20% "` does not parse, because `%` is stripped before the whitespace |
| `Crops.ToInfo` | kapricorn/prompts.py:147-158 | a record exists exactly when the survivability parses |
| `Crops.EntriesRoundTrip` | kapricorn/prompts.py:149-151 | plain entries written one per line as `- e` are read back in order; an empty list is written as nothing and read back empty |
| `Crops.RecordRoundTrip` | kapricorn/prompts.py:147-158 | a record written as a run is read back as that record: the stripped description, the survivability parsed from its whole percentage, the reasons and challenges cleaned from their bullet lines, in order |
| `Crops.Entries` | kapricorn/prompts.py:146-158 | one (name, record) entry per match, in order |
| `Crops.Assemble` | kapricorn/prompts.py:145-160 | the dict fails exactly when some record could not be computed |
| `Crops.AssembleKeys` | kapricorn/prompts.py:153 | the keys are exactly the names of the matches |
| `Crops.AssembleLastWins` | kapricorn/prompts.py:153 | a repeated name keeps the record of its last match |
| `Crops.NoCropNoEntries` | kapricorn/prompts.py:145-160 | a reply without `<crop>` gives the empty dict |
| `Crops.RenderedCropsRead` | kapricorn/prompts.py:130-160 | runs written back to back are read into one record per name, the last of each name winning |
| `Crops.RenderedRecordsRead` | kapricorn/prompts.py:130-160 | records written as runs are read back by `extractCropsInfo`: the keys are exactly the stripped names, and a crop whose name is not repeated later gets exactly its record |
| `Crops.KnownRecordsAssembled` | kapricorn/prompts.py:145-158 | when every match gives a record, the dict holds exactly the stripped names, each mapped to the record of its last match |
| `Crops.AssembleAllKnown` | kapricorn/prompts.py:145-158 | `d[key] = value` over entries whose values are all known builds a dict of exactly their keys, a key not repeated later mapping to its value |
| `Crops.ExtractCropsInfo` | kapricorn/prompts.py:130-160 | the loop over the matches returns `CropsOf` of the reply |
| `Prompts.ContextClause` | kapricorn/prompts.py:375-380 | the placeholder text appears exactly when none of location, NPK and date is truthy |
| `Prompts.ClauseOfAllFields` | kapricorn/prompts.py:376-380 | with all three fields present the clause lists location, NPK reading and date, joined by `", "` |
| `Prompts.LastUser` | kapricorn/prompts.py:383-387 | the backward search returns the last user turn, -1 when there is none, or fails on a non-dict item it meets; the items after the result are dicts that are not user turns; a failure comes from a non-dict with only non-user dicts after it, so one that sits before the last user turn is never reached |
| `Prompts.FirstText` | kapricorn/prompts.py:397-401 | the index of the first string part, or -1; no string part comes before it |
| `Prompts.InjectedShape` | kapricorn/prompts.py:370-428 | empty in, empty out; otherwise the two priming turns, then the transcript with only the last user turn changed; fails only on a bad turn |
| `Prompts.ProcessChats` | kapricorn/prompts.py:370-428 | the two loops and the update return `Injected` of the transcript |
| `Prompts.RewriteParts` | kapricorn/prompts.py:397-425 | the forward loop and the rewrite return `Rewritten` of the parts |
| `Prompts.EarlierUserTurnInjected` | kapricorn/prompts.py:393-428 | a last user turn that is not the last item gets no classification request: its first text part becomes `<p>text</p>` and the context tag, or the context tag is appended as its own part |
| `Prompts.NewMessageInjected` | kapricorn/prompts.py:393-428 | the appended user message is the turn rewritten: `<p>m</p>`, the context tag and the classification request |
| `Prompts.InjectedQueryDecodes` | kapricorn/prompts.py:418 | decoding `<p>` from the rewritten part gives back the stripped query |
| `Prompts.InjectedContextDecodes` | kapricorn/prompts.py:404-418 | decoding `<g>` from the rewritten part gives back the stripped context clause |
| `Prompts.WrapLayout` | kapricorn/prompts.py:404-418 | the rewritten part is the query pair, then the context pair, then the classification request |
| `Prompts.ProcessVisualBotQuery` | kapricorn/prompts.py:349-362 | three well-formed turns, the last one being the request from the user |
| `Prompts.FormatVisualBotResponse` | kapricorn/prompts.py:364-368 | an empty response raises; otherwise the user text embeds the response after the fixed head, the model text is the fixed acknowledgement, and the response is returned |
| `Prompts.AnalysisPrompt` | kapricorn/prompts.py:23-69 | the analysis prompt names the location right after its head |
| `Prompts.FormatPrompt` | kapricorn/prompts.py:72-127 | the stripped formatting prompt is the template with the first answer embedded intact |
| `Prompts.StringToDict` | kapricorn/prompts.py:8-20 | dispatch on `ast`/`json`; succeeds exactly when the chosen parser does; every error a parser reports, and an unknown method, carries the `Invalid dictionary string: ` prefix |
| `AiService.FilterMap` | kapricorn/ai_service.py:81-84 | filtering through a partial map keeps at most as many elements |
| `AiService.FilterMapMembers` | kapricorn/ai_service.py:81-84 | exactly the images of the elements on which the map is defined are kept |
| `AiService.FilterMapAppend` | kapricorn/ai_service.py:77-99 | filtering commutes with concatenation, so relative order is kept |
| `AiService.FilterMapFixed` | kapricorn/ai_service.py:81-84 | elements the map fixes all pass through |
| `AiService.FilterMapIdempotent` | kapricorn/ai_service.py:81-84 | filtering twice is filtering once |
| `AiService.SanitizePart` | kapricorn/ai_service.py:39-53 | texts pass; a dict whose `inline_data` is a dict holding `mime_type` and `data` is kept, rebuilt from those two only, whatever other keys it has; other values are dropped; a well-formed part is kept |
| `AiService.NormalizeTurn` | kapricorn/ai_service.py:78-97 | a kept turn came from a dict with role and parts, and keeps its role; a text `parts` becomes a one-part list; a list `parts` is kept exactly when some part is valid, with exactly its sanitised parts in order; `parts` of any other type skips the turn |
| `AiService.KeptSomePart` | kapricorn/ai_service.py:82-93 | some part is kept exactly when some part of the list is valid |
| `AiService.NormalizedTurnWellFormed` | kapricorn/ai_service.py:78-97 | every kept turn has a role and a non-empty list of well-formed parts |
| `AiService.WellFormedTurnKept` | kapricorn/ai_service.py:78-97 | a well-formed turn is kept as it is |
| `AiService.Normalize` | kapricorn/ai_service.py:71-102 | a text prompt becomes a single item; a list is filtered turn by turn; anything else is the invalid-prompt error |
| `AiService.NormalizedWellFormed` | kapricorn/ai_service.py:71-99 | every turn sent is well-formed |
| `AiService.WellFormedSentAsIs` | kapricorn/ai_service.py:71-99 | a transcript of well-formed turns is sent unchanged |
| `AiService.NormalizeIdempotent` | kapricorn/ai_service.py:71-99 | normalising twice is normalising once |
| `AiService.NormalizeAppend` | kapricorn/ai_service.py:77-99 | normalising a concatenation normalises each part |
| `AiService.SanitizeParts` | kapricorn/ai_service.py:79-89 | the inner loop returns the kept parts of one item |
| `AiService.BuildContent` | kapricorn/ai_service.py:71-102 | the outer loop returns `Normalize` of the prompt |
| `AiService.AiCall` | kapricorn/ai_service.py:57-176 | key, then model, are checked first; a reply comes from the backend on the non-empty normalised content and its text is never empty; once the content is sent, the backend's error or non-empty reply is returned as it is, and an empty text is the empty-response error |
| `AiService.ConfigCheckedFirst` | kapricorn/ai_service.py:59-64 | with the key or model missing, the prompt and the backend make no difference |
| `AiService.ContentCheckedBeforeCall` | kapricorn/ai_service.py:100-106 | an invalid prompt type or empty content fails before the backend is called |
| `AiService.CallAiModel` | kapricorn/ai_service.py:57-176 | the method returns `AiCall` |
| `AiService.ChatUsesChosenModel` | kapricorn/ai_service.py:179-201 | the pro flag chooses the paid pair, otherwise the free chat pair; a missing one is the not-configured error; a reply comes from that model |
| `AiService.GetChatResponse` | kapricorn/ai_service.py:179-201 | the method returns `ChatCall` |
| `AiService.ParseDirective` | kapricorn/ai_service.py:209-216 | a directive parses exactly when it has four pipe separators, otherwise the invalid-format error; every field of a parsed directive is stripped |
| `AiService.DirectiveRoundTrip` | kapricorn/ai_service.py:210-213 | five pipe-free fields, padded with any whitespace, joined by pipes parse back to their stripped texts |
| `AiService.ScheduleRequestLines` | kapricorn/ai_service.py:229 | the visuals request is five labelled lines, one per field |
| `AiService.VisualsTurnsSentAsIs` | kapricorn/ai_service.py:230-239 | the generator's three turns are sent as built |
| `AiService.ScheduleDict` | kapricorn/ai_service.py:250-267 | a missing or empty `<data>` tag and an unparsable one are distinguished; a result is the dict `string_to_dict` parsed, and a present `<data>` that parses into a dict always gives that dict |
| `AiService.WithVisualsTokensFields` | kapricorn/ai_service.py:262-263 | the schedule keeps its keys and gains the two visuals token counts |
| `AiService.ScheduleOutcome` | kapricorn/ai_service.py:209-216 | a directive without four separators gives the invalid-format error |
| `AiService.ScheduleErrors` | kapricorn/ai_service.py:209-239 | a bad directive gives the invalid-format error, a missing accessory key or model the not-configured error, and an error of the visuals call is forwarded as it is |
| `AiService.VisualsErrors` | kapricorn/ai_service.py:241-267 | the visuals call's error is forwarded; a missing or empty `<data>` tag gives the missing-tag error; `<data>` that does not parse, or parses into something other than a dict, gives the invalid-JSON error |
| `AiService.ScheduleFailureIsOneMessage` | kapricorn/ai_service.py:204-267 | every result without token keys is a dict with one error message |
| `AiService.VisualsFailure` | kapricorn/ai_service.py:241-267 | the same, once the visuals call has returned |
| `AiService.ScheduleProduced` | kapricorn/ai_service.py:204-267 | a schedule comes only from a valid directive, a configured accessory model, and a non-empty reply with a parsable `<data>` tag; it is that dict plus the token counts |
| `AiService.GenerateScheduleData` | kapricorn/ai_service.py:204-224 | the method returns `ScheduleOutcome` |
| `AiService.ReadSchedule` | kapricorn/ai_service.py:241-267 | the checks on the visuals reply return `AfterVisuals` |
| `AiService.WithTotalsFields` | kapricorn/ai_service.py:369-370 | the crops are kept and the two summed token counts are added |
| `AiService.ExtractedFromCrops` | kapricorn/ai_service.py:360-372 | readable, non-empty crop records end the pipeline with the totals added |
| `AiService.RecommendOutcome` | kapricorn/ai_service.py:286-292 | a missing recommendations key or paid model gives the not-configured error |
| `AiService.RecommendFailureIsOneMessage` | kapricorn/ai_service.py:271-375 | every result without the token totals is a dict with one error message |
| `AiService.AnalysisFailure` | kapricorn/ai_service.py:312-322 | the same, once the first stage has returned |
| `AiService.FormattingFailure` | kapricorn/ai_service.py:346-375 | the same, once the second stage has returned |
| `AiService.RecommendationsProduced` | kapricorn/ai_service.py:305-372 | a result comes only from two replies whose second parses into non-empty records; it is those records plus the summed token counts |
| `AiService.StageFailuresForwarded` | kapricorn/ai_service.py:312-348 | a failed call is reported with its own message, and the second stage runs only on a first answer |
| `AiService.UnreadableRecommendations` | kapricorn/ai_service.py:360-375 | an unparsable or empty crop list gives the internal-error message |
| `AiService.GetRecommendations` | kapricorn/ai_service.py:271-310 | the method returns `RecommendOutcome` |
| `AiService.FormatAnalysis` | kapricorn/ai_service.py:312-344 | the stage after the analysis call returns `AfterAnalysis` |
| `AiService.ReadRecommendations` | kapricorn/ai_service.py:346-375 | the stage after the formatting call returns `AfterFormatting` |
| `ChatRoutes.RequestChecksInOrder` | kapricorn/routes/chat_routes.py:14-28 | missing body, then falsy message, then non-list history; every refusal is a 400 |
| `ChatRoutes.RequestRead` | kapricorn/routes/chat_routes.py:18-23 | a valid request is read field by field, with history `[]` and model choice `False` as defaults |
| `ChatRoutes.InjectionNeverFails` | kapricorn/routes/chat_routes.py:32-41 | with the message appended, `processChats` never fails, so the history-error 500 is never sent |
| `ChatRoutes.ChatFailureIs500` | kapricorn/routes/chat_routes.py:46-54 | an AI error or an empty text gives a 500; an answer comes exactly from a non-empty reply |
| `ChatRoutes.AnsweredFromReply` | kapricorn/routes/chat_routes.py:32-54 | the model is sent the injected transcript, and an answer is built from its non-empty reply |
| `ChatRoutes.AnswerHistory` | kapricorn/routes/chat_routes.py:32-108 | the returned history is the caller's, the untagged message, the raw reply, and two notice turns after a `<gen>` |
| `ChatRoutes.GenNoticeTurns` | kapricorn/routes/chat_routes.py:83-104 | after a `<gen>`, the notice is framed as a user turn, followed by the fixed acknowledgement |
| `ChatRoutes.VisualsOnlyOnSuccess` | kapricorn/routes/chat_routes.py:78-124 | visuals data is returned exactly for a `<gen>` the generator answered without an error; its token keys are popped and reported |
| `ChatRoutes.GenVisuals` | kapricorn/routes/chat_routes.py:83-124 | the same, for one generator result |
| `ChatRoutes.AnswerFields` | kapricorn/routes/chat_routes.py:113-121 | `response` is the `<r>` text or `"..."`; `classification` is the `<cls>` text; the token counts are the chat reply's |
| `ChatRoutes.PoppedKeys` | kapricorn/routes/chat_routes.py:122-124 | popping removes the two token keys and keeps every other key |
| `ChatRoutes.HandleChat` | kapricorn/routes/chat_routes.py:11-44 | the route returns `ChatOutcome` of the body |
| `ChatRoutes.HandleReply` | kapricorn/routes/chat_routes.py:46-126 | the handling of the chat reply returns `AfterChat` |
| `ChatRoutes.AppendReply` | kapricorn/routes/chat_routes.py:77-108 | the appended turns and the visuals data are `Appended` |
| `ChatRoutes.AppendNotice` | kapricorn/routes/chat_routes.py:83-104 | the two branches on the generator's result build `GenTurns` |
| `ChatRoutes.PopVisualsTokens` | kapricorn/routes/chat_routes.py:122-124 | the two pops give `Popped` |
| `RecommendationRoutes.LocationChecks` | kapricorn/routes/recommendation_routes.py:15-26 | missing body, then a location that is absent, not a string or blank, each a 400; a valid request passes the stripped, non-empty location |
| `RecommendationRoutes.ErrorMessageStatus` | kapricorn/routes/recommendation_routes.py:28-34 | a reported message is a 503 exactly when it contains "not configured", else a 500, and is passed on; the service's own message is a 503 |
| `RecommendationRoutes.UnconfiguredIs503` | kapricorn/routes/recommendation_routes.py:26-34 | a missing recommendations key or paid model makes every valid request a 503 |
| `RecommendationRoutes.FailuresPassedOn` | kapricorn/routes/recommendation_routes.py:28-34 | every service failure is answered with its message, and with 503 or 500 by the "not configured" test |
| `RecommendationRoutes.RecommendationsServed` | kapricorn/routes/recommendation_routes.py:36-46 | a success is a 200 with every crop and the summed token counts; a crop named "error" makes it a 500 reporting that crop |
| `RecommendationRoutes.TotalsServed` | kapricorn/routes/recommendation_routes.py:28-46 | the same, for any crop records with their totals |
| `RecommendationRoutes.StatusesOfAnswers` | kapricorn/routes/recommendation_routes.py:15-46 | every refusal is a 400, 500 or 503, and a 400 comes only from the request checks |
| `RecommendationRoutes.ServedStatuses` | kapricorn/routes/recommendation_routes.py:28-46 | a service result is refused exactly when it has an `error` key, and never with a 400 |
| `RecommendationRoutes.CropRecommendations` | kapricorn/routes/recommendation_routes.py:12-26 | the route returns `RecommendResponse` of the body |
| `RecommendationRoutes.ServeResult` | kapricorn/routes/recommendation_routes.py:28-46 | the error branch and the two pops return `Served` |

## Left out

Outside the model:
- **I/O and framework code.** Flask request and response objects and the logging calls are left out. So are the SDK calls (configuration, `count_tokens`, `generate_content`, the probing of the response object); together they are the backend parameter.
- **Streaming.** The `stream=True` path of `call_ai_model` is never used by the core.
- **`estimate_tokens`.** It uses float division and rounding, and nothing in the core calls it.
- **`except Exception` branches:**
  - those of `call_ai_model`, which the backend's error replies stand for;
  - the tag-parsing branch of `handle_chat`, which cannot be reached because `extract_tags` does not raise on a string;
  - `get_recommendations`'s prompt-building branches, which cannot raise.
- **The generic 500 of `crop_recommendations`.** It is modelled only for the one raising path that can be named, the `in` test on a count. Other exceptions from the backend are not modelled.
- **Non-dict JSON bodies.** A list or number as body makes `data.get` raise inside Flask.

How the model differs from the source:
- **Abbreviated prompts.** The prompt and notice texts are shortened to their first words and their tag structure:
  - `farmBot` and its acknowledgement;
  - `visualsBot` and its acknowledgement;
  - the body of the analysis and formatting templates;
  - the notice head and acknowledgement of `formatVisualBotResponse`;
  - the success and failure notices of `handle_chat`.

  The properties proved use only where the embedded texts sit. Error messages are kept verbatim.
- **Numbers.** JSON numbers are integers. Survivability is parsed as an exact decimal: sign, digits and an optional fraction. Exponents, `inf`, `nan` and underscores of Python's `float` are not modelled.
- **Containers in f-strings.** `Display` writes lists and dicts inside f-strings as placeholders instead of Python's `repr`.
- **Parsers.** `ast.literal_eval` and `json.loads` are parameters, so their internals are not modelled.
- `Prompts.StringToDict`: an `Err` of a parser stands only for the `ValueError`, `SyntaxError` and `JSONDecodeError` that `string_to_dict` re-raises with its prefix. Other exceptions, such as the `TypeError` of an unhashable key, escape without the prefix and are not modelled. In the core the difference is invisible, because `generate_schedule_data` turns any exception into its invalid-JSON error.
- **`re.findall`.** It is modelled for the fixed patterns the source uses: lazy groups between literal tags, first match, resuming after each match. Regular-expression metacharacters inside tag names are not modelled.
- **Empty-text checks.** The checks of `handle_chat` (chat_routes.py line 52), of `generate_schedule_data` (ai_service.py line 246, the no-schedule error) and of the two stages of `get_recommendations` (ai_service.py lines 320 and 354) are modelled but cannot fire, because `call_ai_model` turns an empty text into an error.
- **Exceptions of `processChats`.** `parts` that is not a list makes the source raise: a `KeyError` at `parts[0]` for a non-empty dict, a `TypeError` on the item assignment for a non-empty string, an `AttributeError` on `append` for an empty dict or string. The model reports all of them as one error value, the parts error. Likewise, a non-dict item met by the backward search is the not-a-dict error.
- **Values instead of mutation.** Transcripts and dicts are values. The in-place `append` and `pop` and the `deepcopy` of `processChats` are reassignments of a local variable, so aliasing between the caller's list and the returned history is not captured.
- **The route's response.** It is a datatype: the `error` JSON field, or the payload fields. The token fields are absent when the source leaves them out.
- `AiService.ReadRecommendations` builds its result with `WithTotals` rather than with two dict-update statements. The resulting dict is the same.
