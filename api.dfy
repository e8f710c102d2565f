/** The `/analyze` handler: request validation, the call into the service, and
    the mapping of exceptions to HTTP error responses. */
module Api {
  import opened PyStr
  import opened Outcomes
  import opened Models
  import Services

  const MaxTextLength: nat := 10000

  const EmptyTextDetail: string := "Text cannot be empty"
  const TooLongDetail: string := "Text too long. Maximum 10000 characters allowed."
  const FailurePrefix: string := "Analysis failed: "

  /** What the handler produces: the analysis, or an `HTTPException`'s status and detail. */
  datatype Response = Ok(body: Services.AnalysisResult) | Error(status: nat, detail: string)

  /** `request.target_tone.value if request.target_tone else None` */
  function ToneArgument(tone: Option<ToneType>): (r: Option<string>)
    ensures tone.None? <==> r.None?
    ensures tone.Some? ==> r.value == tone.value.Value() && r.value != []
  {
    match tone
    case None => None
    case Some(t) => Some(t.Value())
  }

  /** The service as the handler sees it: called with the text and the tone
      string, it returns the result dictionary or raises. */
  type ServiceCall = (string, Option<string>) -> Outcome<Services.AnalysisResult>

  /** The handler body: the blank check, then the length check on the raw
      text, then the service call on the raw text; an `HTTPException` passes
      through unchanged and any other exception becomes a 500. */
  function Handle(text: string, targetTone: Option<ToneType>, service: ServiceCall): (r: Response)
    ensures AllSpace(text) ==> r == Error(400, EmptyTextDetail)
    ensures !AllSpace(text) && |text| > MaxTextLength ==> r == Error(400, TooLongDetail)
    ensures !AllSpace(text) && |text| <= MaxTextLength ==>
              var out := service(text, ToneArgument(targetTone));
              && (out.Returned? ==> r == Ok(out.value))
              && (out.Raised? && out.error.HttpException? ==>
                    r == Error(out.error.status, out.error.detail))
              && (out.Raised? && out.error.OtherException? ==>
                    r == Error(500, FailurePrefix + out.error.message))
  {
    StripEmptyIffBlank(text);
    if Strip(text) == [] then Error(400, EmptyTextDetail)
    else if |text| > MaxTextLength then Error(400, TooLongDetail)
    else
      match service(text, ToneArgument(targetTone))
      case Returned(result) => Ok(result)
      case Raised(HttpException(status, detail)) => Error(status, detail)
      case Raised(OtherException(message)) => Error(500, FailurePrefix + message)
  }

  /** The endpoint wired to the real service. */
  function AnalyzeEndpoint(svc: Services.TextAnalysisService, text: string, targetTone: Option<ToneType>,
                           caps: Services.Capabilities): (r: Response)
    ensures r.Ok? <==> !AllSpace(text) && |text| <= MaxTextLength
    ensures r.Ok? ==> r.body == svc.AnalyzeText(text, ToneArgument(targetTone), caps)
    ensures r.Error? ==> r.status == 400
  {
    Handle(text, targetTone, (t, tone) => Returned(svc.AnalyzeText(t, tone, caps)))
  }

  /** The blank check comes first: text of only whitespace is reported as empty
      even when it is also too long. */
  lemma BlankCheckedBeforeLength(service: ServiceCall, targetTone: Option<ToneType>)
    ensures var text := seq(MaxTextLength + 1, _ => ' ');
            Handle(text, targetTone, service) == Error(400, EmptyTextDetail)
  {
    var text := seq(MaxTextLength + 1, _ => ' ');
    assert AllSpace(text);
  }

  /** The length is measured on the untrimmed text: 10000 characters reach the
      service, and 10000 characters plus one trailing space are rejected even
      though trimming would bring them under the bound. */
  lemma LengthBoundOnRawText(result: Services.AnalysisResult, targetTone: Option<ToneType>)
    ensures var service: ServiceCall := (t, tone) => Returned(result);
            && Handle(seq(MaxTextLength, _ => 'a'), targetTone, service) == Ok(result)
            && Handle(seq(MaxTextLength, _ => 'a') + " ", targetTone, service) == Error(400, TooLongDetail)
  {
    var ok := seq(MaxTextLength, _ => 'a');
    assert !IsSpace(ok[0]);
    assert (ok + " ")[0] == 'a';
  }

  /** A valid request never ends in a 500: the service absorbs every
      capability failure, and every tone the API accepts yields a
      transformation. */
  lemma ValidRequestSucceeds(svc: Services.TextAnalysisService, text: string, tone: ToneType,
                             caps: Services.Capabilities)
    requires !AllSpace(text) && |text| <= MaxTextLength
    ensures var r := AnalyzeEndpoint(svc, text, Some(tone), caps);
            r.Ok? && r.body.transformedText.Some? && r.body.targetTone == Some(tone.Value())
  {
  }

  /** Every tone the API accepts has its own tag and instruction, so the
      service's defaults are never used for a request that passed validation. */
  lemma ToneTablesCoverApiTones(tone: ToneType)
    ensures tone.Value() in Services.TonePrefixes
    ensures tone.Value() in Services.ToneInstructions
    ensures Services.TonePrefix(tone.Value()) != Services.DefaultPrefix
  {
  }
}
