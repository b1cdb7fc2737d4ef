/**
 * The `/analyze-audio` route handler: reads the form, checks that the key,
 * the audio and the requirements are there, transcribes the audio and
 * analyses the transcript, answering with the analysis as parsed.
 */
module AnalyzeAudioRoute {
  import opened Options
  import opened Strings
  import opened Json
  import opened Http
  import opened Providers
  import TranscriptionService
  import AnalysisService

  /** The fields `formData.get` reads; a missing field is None. */
  datatype Form = Form(
    audio: Option<FormEntry>,
    platform: Option<FormEntry>,
    apiKey: Option<FormEntry>,
    requirements: Option<FormEntry>)

  const MissingFieldsMessage: string := "Faltan parámetros"
  const FailureMessage: string := "Error en el procesamiento"

  /** The handler's guard: key, audio and requirements all truthy. Nothing else is checked. */
  predicate Present(form: Form, requirements: Json) {
    FieldTruthy(form.apiKey) && FieldTruthy(form.audio) && Truthy(requirements)
  }

  /**
   * What `process` does once the guard has passed: transcribe, then analyse
   * the transcript with the same requirements and platform.
   */
  function Process(audio: FormEntry, requirements: Json, platform: Option<string>, svc: Services): (o: Outcome<Json>)
    ensures TranscriptionService.Transcribe(audio, platform, svc).Fail? ==> o == Fail(ProviderError)
    ensures TranscriptionService.Transcribe(audio, platform, svc).Ok? ==>
      o == AnalysisService.Analyze(TranscriptionService.Transcribe(audio, platform, svc).value, requirements, platform, svc)
  {
    match TranscriptionService.Transcribe(audio, platform, svc)
    case Fail(f) => Fail(f)
    case Ok(transcription) => AnalysisService.Analyze(transcription, requirements, platform, svc)
  }

  /** `POST /analyze-audio`, given the external calls. */
  function Post(form: Form, svc: Services): (r: Response)
    ensures r.status == 200 || r.status == 400 || r.status == 500
    ensures r.status == 400 <==> svc.parse(FieldText(form.requirements)).Some? && !Present(form, svc.parse(FieldText(form.requirements)).value)
    ensures r.status == 400 ==> r == ErrorResponse(400, MissingFieldsMessage)
    ensures r.status == 500 ==> r == ErrorResponse(500, FailureMessage)
    ensures r.status == 500 <==>
      || svc.parse(FieldText(form.requirements)).None?
      || (Present(form, svc.parse(FieldText(form.requirements)).value)
          && Process(form.audio.value, svc.parse(FieldText(form.requirements)).value, PlatformValue(form.platform), svc).Fail?)
  {
    match svc.parse(FieldText(form.requirements))
    case None => ErrorResponse(500, FailureMessage)
    case Some(requirements) =>
      if !Present(form, requirements) then ErrorResponse(400, MissingFieldsMessage)
      else
        match Process(form.audio.value, requirements, PlatformValue(form.platform), svc)
        case Fail(_) => ErrorResponse(500, FailureMessage)
        case Ok(result) => Response(200, result)
  }

  /**
   * A 200 answer carries what the analysis step parsed from the reply to a
   * prompt built from the transcript of this very audio.
   */
  lemma SuccessComposes(form: Form, svc: Services)
    requires Post(form, svc).status == 200
    ensures form.audio.Some? && svc.parse(FieldText(form.requirements)).Some?
    ensures var platform := PlatformValue(form.platform);
            var t := TranscriptionService.Transcribe(form.audio.value, platform, svc);
            && t.Ok?
            && AnalysisService.Analyze(t.value, svc.parse(FieldText(form.requirements)).value, platform, svc) == Ok(Post(form, svc).body)
  {
  }

  /**
   * A request that passes the guard is answered from `process`: 200 with
   * its value when it succeeds, 500 when it fails.
   */
  lemma PassedGuardAnswered(form: Form, svc: Services)
    requires svc.parse(FieldText(form.requirements)).Some?
    requires Present(form, svc.parse(FieldText(form.requirements)).value)
    ensures var o := Process(form.audio.value, svc.parse(FieldText(form.requirements)).value, PlatformValue(form.platform), svc);
            && (o.Ok? ==> Post(form, svc) == Response(200, o.value))
            && (o.Fail? ==> Post(form, svc) == ErrorResponse(500, FailureMessage))
  {
  }

  /** Requirements text that is not JSON is answered with 500 before the guard runs: no provider is called. */
  lemma MalformedRequirementsFail(form: Form, svc: Services)
    requires svc.parse(FieldText(form.requirements)).None?
    ensures Post(form, svc) == ErrorResponse(500, FailureMessage)
  {
  }

  /**
   * The guard only tests truthiness: requirements that parse to a non-empty
   * string, a non-zero number, `true` or an object pass it, the audio is
   * transcribed, and the analysis then fails on `map`, so the answer is 500,
   * not 400.
   */
  lemma NonArrayRequirementsFailLate(form: Form, svc: Services)
    requires FieldTruthy(form.apiKey) && FieldTruthy(form.audio)
    requires svc.parse(FieldText(form.requirements)).Some?
    requires var j := svc.parse(FieldText(form.requirements)).value; Truthy(j) && !j.JArray?
    ensures Post(form, svc) == ErrorResponse(500, FailureMessage)
  {
  }

  /**
   * A requirement object with its own "toString" entry passes the guard but
   * cannot be rendered in the analysis prompt: whether or not the
   * transcription succeeds, the answer is 500.
   */
  lemma OwnToStringRequirementFails(form: Form, svc: Services, k: nat)
    requires FieldTruthy(form.apiKey) && FieldTruthy(form.audio)
    requires svc.parse(FieldText(form.requirements)).Some?
    requires var j := svc.parse(FieldText(form.requirements)).value;
             j.JArray? && k < |j.items| && j.items[k].JObject? && "toString" in j.items[k].fields
    ensures Post(form, svc) == ErrorResponse(500, FailureMessage)
  {
    OwnToStringThrows(svc.parse(FieldText(form.requirements)).value.items, k);
  }

  /** An empty requirement list is truthy and passes the guard. */
  lemma EmptyRequirementsAccepted(form: Form, svc: Services)
    requires FieldTruthy(form.apiKey) && FieldTruthy(form.audio)
    requires svc.parse(FieldText(form.requirements)) == Some(JArray([]))
    ensures Post(form, svc).status != 400
  {
  }

  /**
   * The handler does not look at the audio's size: with the other fields
   * unchanged, replacing the uploaded file by one of any other size does
   * not change whether the request is rejected with 400.
   */
  lemma NoSizeCheck(form: Form, bytes: seq<Byte>, svc: Services)
    requires form.audio.Some? && form.audio.value.File?
    ensures Post(form, svc).status == 400 <==> Post(form.(audio := Some(File(bytes))), svc).status == 400
  {
  }
}
