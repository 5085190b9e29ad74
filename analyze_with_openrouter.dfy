/** The `analyze-with-openrouter` edge function for a POST request: it reads the
    JSON body, checks for an image and for the OpenRouter key, forwards the image
    (with the chosen preset's specialty) to the chat-completion endpoint, relays
    an upstream failure, and otherwise answers 200 with the normalised analysis.
    Every exception lands in one outer handler that answers 500.

    The environment enters as parameters: the parsed request body (`None` when
    `req.json()` rejects), the `OPENROUTER_API_KEY` secret (`None` when unset),
    `fetch` (`None` when the call rejects) and `JSON.parse`. */
module AnalyzeWithOpenRouter {
  import opened Wrappers
  import opened JsStrings
  import opened JsValues
  import opened Catalog
  import opened ReplyNormalizer

  // ---- responses ----

  /** The JSON bodies the function sends. `ThrownErrorBody` is `{ error:
      error.message }` from the outer handler; the message of a runtime
      exception is not modelled. */
  datatype ResponseBody =
    | ErrorBody(error: string)
    | ThrownErrorBody
    | UpstreamErrorBody(error: string, details: JSValue)
    | AnalysisBody(record: AnalysisRecord, message: string)

  datatype Response = Response(status: int, body: ResponseBody)

  const MissingImageMessage := "Image URL (base64) is required."
  const MissingKeyMessage := "OpenRouter API Key not configured as a Supabase secret."
  const UpstreamFailureMessage := "Failed to analyze image with OpenRouter API."
  const SuccessMessage := "Análise detalhada via OpenRouter API."
  const ThrownResponse := Response(500, ThrownErrorBody)

  // ---- the upstream call ----

  const UpstreamModel := "openai/gpt-4o"
  const BearerPrefix := "Bearer "
  const DataUrlPrefix := "data:image/jpeg;base64,"
  const SpecialtyPrefix := "Foque sua análise na especialidade de \""
  const SpecialtySuffix := "\"."

  /** What the function sends upstream, reduced to the parts that vary: the
      Authorization header, the model, the specialty sentence spliced into the
      instructions and the image data URL. */
  datatype UpstreamRequest = UpstreamRequest(
    authorization: string, model: string, specialtyPrompt: string, imageDataUrl: string)

  /** The upstream answer: its status and its body read by `.json()` (`None` when
      that rejects). */
  datatype UpstreamReply = UpstreamReply(status: int, data: Option<JSValue>)

  /** `Response.ok`: a status in the range 200 to 299. */
  predicate Ok(reply: UpstreamReply) {
    200 <= reply.status <= 299
  }

  /** After the guards: either an answer right away, or a request to send. */
  datatype Step = Respond(response: Response) | Forward(request: UpstreamRequest)

  /** `imageUrl.split(',')[1]` inside a template literal: the text between the
      first and the second comma, or "undefined" when there is no comma. */
  function ImagePayload(imageUrl: string): (r: string)
    ensures ',' !in r
    ensures ',' !in imageUrl ==> r == "undefined"
  {
    var parts := Split(imageUrl, ',');
    if |parts| > 1 then parts[1]
    else
      assert "undefined"[0] != ',';
      "undefined"
  }

  /** The specialty sentence: empty unless `selectedAI` is a string equal to a
      preset's id (`===` never matches a value of another type). */
  function SpecialtyPrompt(selectedAI: JSValue): (r: string)
    ensures r != "" <==> selectedAI.Str? && FindById(AIOptions, selectedAI.s).Some?
    ensures r != "" ==> r == SpecialtyPrefix + FindById(AIOptions, selectedAI.s).value.specialty + SpecialtySuffix
  {
    if Truthy(selectedAI) && selectedAI.Str? then
      match FindById(AIOptions, selectedAI.s)
      case Some(option) => SpecialtyPrefix + option.specialty + SpecialtySuffix
      case None => ""
    else if selectedAI.Str? then
      assert FindById(AIOptions, "").None? by {
        EmptyIdIsNoPreset();
      }
      ""
    else ""
  }

  /** No preset has the empty id, so the truthiness test on `selectedAI` decides
      nothing that the lookup would not. */
  lemma EmptyIdIsNoPreset()
    ensures FindById(AIOptions, "").None?
  {
    assert forall i :: 0 <= i < |AIOptions| ==> AIOptions[i].id != "";
  }

  // ---- the handler ----

  /** Reading the body and the guards, in the source's order: a body that is not
      JSON, or is `null`, throws when destructured; a falsy `imageUrl` is a 400;
      a missing or empty key a 500; an `imageUrl` that is not a string has no
      `split` and throws. */
  function Dispatch(body: Option<JSValue>, apiKey: Option<string>): (step: Step)
    ensures step.Forward? ==> apiKey.Some? && step.request.authorization == BearerPrefix + apiKey.value
    ensures step.Forward? ==> step.request.model == UpstreamModel
    ensures step.Forward? ==> StartsWith(step.request.imageDataUrl, DataUrlPrefix)
    ensures step.Respond? ==> step.response.status == 400 || step.response.status == 500
  {
    match body
    case None => Respond(ThrownResponse)
    case Some(b) =>
      if IsNullish(b) then Respond(ThrownResponse)
      else
        var imageUrl := Member(b, "imageUrl");
        if !Truthy(imageUrl) then Respond(Response(400, ErrorBody(MissingImageMessage)))
        else if apiKey.None? || apiKey.value == "" then Respond(Response(500, ErrorBody(MissingKeyMessage)))
        else if !imageUrl.Str? then Respond(ThrownResponse)
        else
          Forward(UpstreamRequest(
            BearerPrefix + apiKey.value, UpstreamModel,
            SpecialtyPrompt(Member(b, "selectedAI")),
            DataUrlPrefix + ImagePayload(imageUrl.s)))
  }

  /** What the function answers once the upstream call has been made. The body is
      read before `ok` is tested, so a failing status whose body is not JSON ends
      in the outer handler. */
  function AnswerUpstream(reply: Option<UpstreamReply>, parse: string -> Option<JSValue>): (r: Response)
    ensures r.body.UpstreamErrorBody? ==>
      reply.Some? && !Ok(reply.value) && reply.value.data == Some(r.body.details) && r.status == reply.value.status
    ensures r.body.AnalysisBody? ==> r.status == 200 && r.body.message == SuccessMessage && IsFilled(r.body.record)
    ensures !r.body.ErrorBody?
    ensures r.body.ThrownErrorBody? ==> r == ThrownResponse
  {
    match reply
    case None => ThrownResponse
    case Some(rep) =>
      match rep.data
      case None => ThrownResponse
      case Some(data) =>
        if !Ok(rep) then Response(rep.status, UpstreamErrorBody(UpstreamFailureMessage, data))
        else
          match NormalizeReply(data, parse)
          case Throw => ThrownResponse
          case Normal(record) => Response(200, AnalysisBody(record, SuccessMessage))
  }

  /** The function for a POST request. */
  function Handle(body: Option<JSValue>, apiKey: Option<string>,
                  fetch: UpstreamRequest -> Option<UpstreamReply>,
                  parse: string -> Option<JSValue>): (r: Response)
    ensures 200 <= r.status <= 299 <==> r.body.AnalysisBody?
    ensures r.body.AnalysisBody? ==>
      r.status == 200 && r.body.message == SuccessMessage && r.body.record.confidence != 0
    ensures r.body.ErrorBody? ==>
      || (r.status == 400 && r.body.error == MissingImageMessage)
      || (r.status == 500 && r.body.error == MissingKeyMessage)
    ensures r.body.ThrownErrorBody? ==> r.status == 500
    ensures r.body.UpstreamErrorBody? ==> r.body.error == UpstreamFailureMessage
  {
    match Dispatch(body, apiKey)
    case Respond(response) => response
    case Forward(request) =>
      var reply := fetch(request);
      var r := AnswerUpstream(reply, parse);
      assert r.body.AnalysisBody? ==> r.body.record.confidence != 0 by {
        if reply.Some? && reply.value.data.Some? && Ok(reply.value) {
          NormalizedConfidenceNonZero(reply.value.data.value, parse);
        }
      }
      r
  }

  /** Every record the normaliser produces has a non-zero confidence. */
  lemma NormalizedConfidenceNonZero(data: JSValue, parse: string -> Option<JSValue>)
    ensures NormalizeReply(data, parse).Normal? ==> NormalizeReply(data, parse).value.confidence != 0
  {
  }

  // ---- properties ----

  /** A body without a truthy `imageUrl` is refused with 400 before the key is
      read or anything is sent, whatever the key and the upstream would do. */
  lemma MissingImageRejected(b: JSValue, apiKey: Option<string>,
                             fetch: UpstreamRequest -> Option<UpstreamReply>,
                             parse: string -> Option<JSValue>)
    requires !IsNullish(b) && !Truthy(Member(b, "imageUrl"))
    ensures Dispatch(Some(b), apiKey).Respond?
    ensures Handle(Some(b), apiKey, fetch, parse) == Response(400, ErrorBody(MissingImageMessage))
  {
  }

  /** With an image but no key (unset or empty) the answer is the 500 naming the
      secret, and nothing is sent. */
  lemma MissingKeyRejected(b: JSValue, apiKey: Option<string>,
                           fetch: UpstreamRequest -> Option<UpstreamReply>,
                           parse: string -> Option<JSValue>)
    requires !IsNullish(b) && Truthy(Member(b, "imageUrl"))
    requires apiKey == None || apiKey == Some("")
    ensures Dispatch(Some(b), apiKey).Respond?
    ensures Handle(Some(b), apiKey, fetch, parse) == Response(500, ErrorBody(MissingKeyMessage))
  {
  }

  /** A body that is not JSON, or is `null`, or an image that is not a string,
      ends in the outer handler. */
  lemma MalformedRequestsThrow(b: JSValue, key: string,
                               fetch: UpstreamRequest -> Option<UpstreamReply>,
                               parse: string -> Option<JSValue>)
    requires !IsNullish(b) && Truthy(Member(b, "imageUrl")) && !Member(b, "imageUrl").Str?
    requires key != ""
    ensures Handle(None, Some(key), fetch, parse) == ThrownResponse
    ensures Handle(Some(Null), Some(key), fetch, parse) == ThrownResponse
    ensures Handle(Some(b), Some(key), fetch, parse) == ThrownResponse
  {
  }

  /** A data URL `header,data` with one comma is re-labelled as a JPEG data URL
      carrying the same data, whatever type its header named. */
  lemma {:induction false} DataUrlRelabelled(header: string, data: string)
    requires ',' !in header && ',' !in data
    ensures ImagePayload(header + "," + data) == data
  {
    assert header + "," + data == header + [','] + data;
    SplitAtOnlySeparator(header, ',', data);
  }

  /** In general the payload is the text after the first comma up to the next
      comma, or to the end. */
  lemma {:induction false} ImagePayloadIsSecondSegment(header: string, rest: string)
    requires ',' !in header
    ensures ImagePayload(header + [','] + rest) == rest[..IndexOfChar(rest, ',')]
  {
    SplitAtFirstSeparator(header, ',', rest);
    SplitHead(rest, ',');
  }

  /** A well-formed request with a key is forwarded: the key as a bearer token,
      the model, the selected preset's specialty and the re-labelled image. */
  lemma WellFormedRequestForwarded(header: string, data: string, selectedAI: JSValue, key: string)
    requires ',' !in header && ',' !in data
    requires key != ""
    ensures var b := Obj(map["imageUrl" := Str(header + "," + data), "selectedAI" := selectedAI]);
      Dispatch(Some(b), Some(key))
        == Forward(UpstreamRequest("Bearer " + key, "openai/gpt-4o", SpecialtyPrompt(selectedAI),
                                   "data:image/jpeg;base64," + data))
  {
    DataUrlRelabelled(header, data);
    var b := Obj(map["imageUrl" := Str(header + "," + data), "selectedAI" := selectedAI]);
    assert Member(b, "imageUrl") == Str(header + "," + data);
    assert Member(b, "selectedAI") == selectedAI;
  }

  /** A preset's id selects that preset's specialty sentence. */
  lemma PresetSpecialtyPrompted(i: nat)
    requires i < |AIOptions|
    ensures SpecialtyPrompt(Str(AIOptions[i].id))
      == "Foque sua análise na especialidade de \"" + AIOptions[i].specialty + "\"."
  {
    FindByIdFindsPreset(i);
  }

  /** An id that names no preset, or a selection that is not a string, adds no
      sentence. */
  lemma UnknownSelectionNotPrompted(selectedAI: JSValue)
    requires selectedAI.Str? ==> forall i :: 0 <= i < |AIOptions| ==> AIOptions[i].id != selectedAI.s
    ensures SpecialtyPrompt(selectedAI) == ""
  {
  }

  /** A failing upstream status with a JSON body is relayed with that status and
      that body as details, without looking at the body's contents. */
  lemma UpstreamFailureRelayed(status: int, data: JSValue, parse: string -> Option<JSValue>)
    requires !(200 <= status <= 299)
    ensures AnswerUpstream(Some(UpstreamReply(status, Some(data))), parse)
      == Response(status, UpstreamErrorBody(UpstreamFailureMessage, data))
  {
  }

  /** A failing upstream status whose body is not JSON, or a rejected call, ends
      in the outer handler. */
  lemma UnreadableUpstreamThrows(status: int, parse: string -> Option<JSValue>)
    ensures AnswerUpstream(Some(UpstreamReply(status, None)), parse) == ThrownResponse
    ensures AnswerUpstream(None, parse) == ThrownResponse
  {
  }

  /** A successful upstream call is answered 200 with the normalised record of its
      body, when normalising does not throw. */
  lemma UpstreamSuccessAnswered(status: int, data: JSValue, parse: string -> Option<JSValue>)
    requires 200 <= status <= 299
    requires NormalizeReply(data, parse).Normal?
    ensures AnswerUpstream(Some(UpstreamReply(status, Some(data))), parse)
      == Response(200, AnalysisBody(NormalizeReply(data, parse).value, "Análise detalhada via OpenRouter API."))
  {
  }

  /** End to end: an upstream that answers a fenced JSON analysis yields that
      analysis, when every field is truthy and the confidence is a non-zero
      number. */
  lemma FencedAnalysisAnswered(status: int, text: string, fields: map<string, JSValue>, n: int,
                               parse: string -> Option<JSValue>)
    requires 200 <= status <= 299 && text != ""
    requires parse(ExtractJsonText(text)) == Some(Obj(fields))
    requires "asset" in fields && Truthy(fields["asset"])
    requires "direction" in fields && Truthy(fields["direction"])
    requires "reasoning" in fields && Truthy(fields["reasoning"])
    requires "pattern" in fields && Truthy(fields["pattern"])
    requires "confidence" in fields && fields["confidence"] == Num(n) && n != 0
    ensures var data := Obj(map["choices" := Arr([Obj(map["message" := Obj(map["content" := Str(text)])])])]);
      AnswerUpstream(Some(UpstreamReply(status, Some(data))), parse)
        == Response(200, AnalysisBody(
             AnalysisRecord(fields["asset"], fields["direction"], n, fields["reasoning"], fields["pattern"]),
             SuccessMessage))
  {
    var data := Obj(map["choices" := Arr([Obj(map["message" := Obj(map["content" := Str(text)])])])]);
    var record := AnalysisRecord(fields["asset"], fields["direction"], n, fields["reasoning"], fields["pattern"]);
    assert NormalizeReply(data, parse) == Normal(record) by {
      FirstChoiceContentIsNormalized(text, [], parse);
      assert [Obj(map["message" := Obj(map["content" := Str(text)])])] + []
        == [Obj(map["message" := Obj(map["content" := Str(text)])])];
      WellShapedReplyReproduced(text, fields, n, parse);
    }
    UpstreamSuccessAnswered(status, data, parse);
  }
}
