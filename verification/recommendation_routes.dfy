/** The crop recommendation endpoint (`POST /api/recommend/crops`): the
    request checks, the call of the recommendation service on the stripped
    location, the status chosen for a reported error, and the token counts
    popped from a successful result. */
module RecommendationRoutes {
  import opened Basics
  import opened Text
  import opened Crops
  import opened AiService

  const NoBody: string := "Invalid request: No JSON body found"
  const NoLocation: string := "Invalid request: 'location' field (string) is required"
  const Unexpected: string := "An unexpected internal server error occurred."

  /** The phrase that turns a reported error into a 503. */
  const NotConfigured: string := "not configured"

  /** An error status with the JSON value of its `error` field, or a 200
      with the recommendations and the two popped token counts. */
  datatype RecResponse =
    | Rejected(status: int, error: Field)
    | Recommended(recommendations: map<string, Field>, inputTokens: Field, outputTokens: Field)

  /** `d.pop(key, default)`'s value on a result dict. */
  function FieldOr(m: map<string, Field>, key: string, default: Field): Field
  {
    if key in m then m[key] else default
  }

  // ---------------------------------------------------------------------
  // Specification

  /** The body and location checks; a valid request yields the stripped
      location. */
  function ReadLocation(body: Option<map<string, Value>>): Result<string, RecResponse>
  {
    if body.None? || body.value == map[] then Err(Rejected(400, Message(NoBody)))
    else
      var location := Get(body.value, "location", Null);
      if !Truthy(location) || !location.Str? || Strip(location.s) == "" then
        Err(Rejected(400, Message(NoLocation)))
      else Ok(Strip(location.s))
  }

  /** The answer made of the service's result. The status of a reported
      error comes from `"not configured" in result['error']`: a substring
      test on a message, a key test on a crop's dict (whose keys are the
      four field names, so never a 503), and a `TypeError` on a number,
      which the handler answers with its generic 500. */
  function Served(result: map<string, Field>): RecResponse
  {
    if "error" in result then
      match result["error"]
      case Count(_) => Rejected(500, Message(Unexpected))
      case CropField(_) => Rejected(500, result["error"])
      case Message(text) => Rejected(if Contains(text, NotConfigured) then 503 else 500, result["error"])
    else
      Recommended(result - {"_total_input_tokens", "_total_output_tokens"},
                  FieldOr(result, "_total_input_tokens", Count(0)),
                  FieldOr(result, "_total_output_tokens", Count(0)))
  }

  /** What `crop_recommendations` answers to a request body. */
  function RecommendResponse(body: Option<map<string, Value>>, cfg: Config, backend: Backend): RecResponse
  {
    match ReadLocation(body)
    case Err(refusal) => refusal
    case Ok(location) => Served(RecommendOutcome(location, cfg, backend))
  }

  // ---------------------------------------------------------------------
  // Properties

  /** A missing or empty body is refused first; then a location that is
      absent, not a string or blank; both are 400s, and a valid request
      passes the service the location without surrounding whitespace. */
  lemma LocationChecks(body: Option<map<string, Value>>)
    ensures body.None? || body.value == map[] ==> ReadLocation(body) == Err(Rejected(400, Message(NoBody)))
    ensures body.Some? && body.value != map[] ==>
              var location := Get(body.value, "location", Null);
              (ReadLocation(body).Ok? <==> location.Str? && Strip(location.s) != "")
              && (ReadLocation(body).Err? ==> ReadLocation(body) == Err(Rejected(400, Message(NoLocation))))
              && (ReadLocation(body).Ok? ==> ReadLocation(body).value == Strip(location.s))
    ensures ReadLocation(body).Ok? ==> ReadLocation(body).value != "" && Strip(ReadLocation(body).value) == ReadLocation(body).value
  {
    if ReadLocation(body).Ok? {
      StripByIdempotent(Get(body.value, "location", Null).s, IsSpace);
    }
  }

  /** The service's own "not configured" message is answered with a 503;
      so is any other error message naming it, and every other message is
      a 500; the message is passed on unchanged. */
  lemma ErrorMessageStatus(result: map<string, Field>)
    requires "error" in result && result["error"].Message?
    ensures Served(result) == Rejected(if Contains(result["error"].text, NotConfigured) then 503 else 500,
                                       result["error"])
    ensures result["error"] == Message(RecNotConfigured) ==> Served(result).status == 503
  {
    assert OccursAt(RecNotConfigured, NotConfigured, 27);
  }

  /** A missing recommendations key or paid model makes every valid
      request a 503 with the service's message. */
  lemma UnconfiguredIs503(body: Option<map<string, Value>>, cfg: Config, backend: Backend)
    requires ReadLocation(body).Ok?
    requires !Present(cfg.recommendationsKey) || !Present(cfg.paidModel)
    ensures RecommendResponse(body, cfg, backend) == Rejected(503, Message(RecNotConfigured))
  {
    ErrorMessageStatus(RecError(RecNotConfigured));
  }

  /** A failure of either model call, or a reply that holds no crop, is
      answered with the service's message and a 500 or 503; nothing else
      is an error. */
  lemma {:induction false} FailuresPassedOn(location: string, cfg: Config, backend: Backend)
    ensures var result := RecommendOutcome(location, cfg, backend);
      "_total_input_tokens" !in result ==>
        && Served(result).Rejected?
        && Served(result).error == result["error"] && result["error"].Message?
        && (Served(result).status == 503 <==> Contains(result["error"].text, NotConfigured))
        && (Served(result).status == 500 <==> !Contains(result["error"].text, NotConfigured))
  {
    RecommendFailureIsOneMessage(location, cfg, backend);
  }

  /** A successful result is answered with a 200 carrying every crop
      except one named like a token key, and the summed token counts of
      the two calls; a crop named "error" turns it into a 500 reporting
      that crop. */
  lemma {:induction false} RecommendationsServed(first: AiReply, second: AiReply)
    requires first.Reply? && "_total_input_tokens" in AfterFormatting(first, second)
    ensures second.Reply? && CropsOf(second.text).Some?
    ensures var crops, r := CropsOf(second.text).value, Served(AfterFormatting(first, second));
      && ("error" in crops ==> r == Rejected(500, CropField(crops["error"])))
      && ("error" !in crops ==>
            && r.Recommended?
            && r.recommendations.Keys == crops.Keys - {"_total_input_tokens", "_total_output_tokens"}
            && (forall k :: k in r.recommendations ==> r.recommendations[k] == CropField(crops[k]))
            && r.inputTokens == Count(first.inputTokens + second.inputTokens)
            && r.outputTokens == Count(first.outputTokens + second.outputTokens))
  {
    assert second.Reply? && second.text != "";
    var crops := CropsOf(second.text);
    assert crops.Some? && crops.value != map[];
    ExtractedFromCrops(first, second, crops.value);
    TotalsServed(crops.value, first.inputTokens + second.inputTokens, first.outputTokens + second.outputTokens);
  }

  /** Serving the crops with their totals added. */
  lemma TotalsServed(crops: map<string, CropInfo>, input: int, output: int)
    ensures var r := Served(WithTotals(crops, input, output));
      && ("error" in crops ==> r == Rejected(500, CropField(crops["error"])))
      && ("error" !in crops ==>
            && r.Recommended?
            && r.recommendations.Keys == crops.Keys - {"_total_input_tokens", "_total_output_tokens"}
            && (forall k :: k in r.recommendations ==> r.recommendations[k] == CropField(crops[k]))
            && r.inputTokens == Count(input) && r.outputTokens == Count(output))
  {
    WithTotalsFields(crops, input, output);
  }

  /** Every answer is a 200 with recommendations, or a 400, 500 or 503
      carrying an error. */
  lemma StatusesOfAnswers(body: Option<map<string, Value>>, cfg: Config, backend: Backend)
    ensures var r := RecommendResponse(body, cfg, backend);
      r.Rejected? ==> r.status == 400 || r.status == 500 || r.status == 503
    ensures var r := RecommendResponse(body, cfg, backend);
      r.Rejected? && r.status == 400 ==> ReadLocation(body).Err?
  {
    var read := ReadLocation(body);
    if read.Ok? {
      ServedStatuses(RecommendOutcome(read.value, cfg, backend));
    }
  }

  /** The service's result is never answered with a 400. */
  lemma ServedStatuses(result: map<string, Field>)
    ensures Served(result).Rejected? ==> Served(result).status == 500 || Served(result).status == 503
    ensures Served(result).Rejected? <==> "error" in result
  {
  }

  // ---------------------------------------------------------------------
  // The route

  /** `crop_recommendations`: the checks, the service call and the
      answer. */
  method CropRecommendations(body: Option<map<string, Value>>, cfg: Config, backend: Backend)
    returns (r: RecResponse)
    ensures r == RecommendResponse(body, cfg, backend)
  {
    if body.None? || body.value == map[] {
      return Rejected(400, Message(NoBody));
    }
    var data := body.value;
    var location := Get(data, "location", Null);
    if !Truthy(location) || !location.Str? || Strip(location.s) == "" {
      return Rejected(400, Message(NoLocation));
    }
    var result := GetRecommendations(Strip(location.s), cfg, backend);
    r := ServeResult(result);
  }

  /** The error branch and the two pops of the success branch. */
  method ServeResult(result: map<string, Field>) returns (r: RecResponse)
    ensures r == Served(result)
  {
    if "error" in result {
      var err := result["error"];
      if err.Count? {
        return Rejected(500, Message(Unexpected));
      }
      var statusCode := 500;
      if err.Message? && Contains(err.text, NotConfigured) {
        statusCode := 503;
      }
      return Rejected(statusCode, err);
    }
    var rest := result;
    var inputTokens := FieldOr(rest, "_total_input_tokens", Count(0));
    rest := rest - {"_total_input_tokens"};
    var outputTokens := FieldOr(rest, "_total_output_tokens", Count(0));
    rest := rest - {"_total_output_tokens"};
    assert rest == result - {"_total_input_tokens", "_total_output_tokens"};
    r := Recommended(rest, inputTokens, outputTokens);
  }
}
