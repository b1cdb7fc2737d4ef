/**
 * The `/reanalyze` route handler: re-runs the analysis of a transcript the
 * client already has, with a prompt of its own that numbers the
 * requirements, and answers with the spread of the parsed chat reply.
 */
module ReanalyzeRoute {
  import opened Options
  import opened Strings
  import opened Json
  import opened Http
  import opened Providers
  import AnalysisService

  /** The fields `formData.get` reads; a missing field is None. */
  datatype Form = Form(apiKey: Option<FormEntry>, transcription: Option<FormEntry>, requirements: Option<FormEntry>)

  const MissingFieldsMessage: string := "apiKey, transcription y requirements son obligatorios"
  const FailureMessage: string := "Error procesando la solicitud"

  /** The prompt up to the quoted transcript. */
  const ReanalyzeOpening: string :=
    "\n"
    + "      Tienes la siguiente transcripción de una llamada telefónica en español:\n"
    + "      \""

  /** The prompt between the transcript and the numbered requirements: the Markdown rules. */
  const ReanalyzeMiddle: string :=
    "\"\n"
    + "\n"
    + "      **Formato requerido para la transcripción en Markdown**:\n"
    + "      - Cada línea debe indicar quién habla, usando \"**Agente:**\" o \"**Cliente:**\".\n"
    + "      - Usa doble salto de línea (\n\n) para separar los turnos de conversación.\n"
    + "      - No agregues información adicional, solo la transcripción formateada.\n"
    + "\n"
    + "      **Análisis de la llamada según los siguientes requisitos**:\n"
    + "      "

  /** The prompt after the numbered requirements: the expected JSON and the closing reminder. */
  const ReanalyzeClosing: string :=
    "\n"
    + "\n"
    + "      **Salida esperada en JSON**:\n"
    + "\n"
    + "      {\n"
    + "        \"transcription\": \"<transcripción en Markdown>\",\n"
    + "        \"analysis\": {\n"
    + "          \"prohibitedWords\": [\"<palabra1>\", \"<palabra2>\"],\n"
    + "          \"mentionedClientName\": <true | false>,\n"
    + "          \"clientObjections\": [\"<objeción1>\", \"<objeción2>\"],\n"
    + "          \"offeredDiscount\": <true | false>,\n"
    + "          \"emotionalTone\": \"<tono general>\",\n"
    + "          \"customAnalysis\": [\n"
    + "            {\n"
    + "              \"requirement\": \"<nombre del requisito>\",\n"
    + "              \"result\": \"<resultado del análisis en español>\"\n"
    + "            }\n"
    + "          ]\n"
    + "        },\n"
    + "        \"summary\": \"<resumen en español>\"\n"
    + "      }\n"
    + "\n"
    + "      **Importante**: Asegúrate de que la clave \"transcription\" contenga el diálogo en formato Markdown y que las demás claves sean devueltas tal como se especifica.\n"
    + "    "

  /** The fixed text around the two slots of the prompt. */
  datatype Template = Template(opening: string, middle: string, closing: string)

  const ReanalyzeTemplate := Template(ReanalyzeOpening, ReanalyzeMiddle, ReanalyzeClosing)

  /** `${index + 1}. ${req}`: a requirement behind its number. */
  function Line(number: nat, req: string): string {
    NatToString(number) + ". " + req
  }

  /** Every requirement numbered from 1. */
  function NumberedLines(reqs: seq<string>): (r: seq<string>)
    ensures |r| == |reqs| && forall i | 0 <= i < |reqs| :: r[i] == Line(i + 1, reqs[i])
  {
    seq(|reqs|, i requires 0 <= i < |reqs| => Line(i + 1, reqs[i]))
  }

  /** The numbered lines joined with newlines. */
  function NumberedList(reqs: seq<string>): string {
    Join("\n", NumberedLines(reqs))
  }

  /**
   * Appending a requirement appends one line numbered with the new length:
   * with the empty list as the base case, line i carries number i + 1 and
   * the i-th requirement.
   */
  lemma NumberedListSnoc(reqs: seq<string>, req: string)
    ensures NumberedList([]) == ""
    ensures var line := Line(|reqs| + 1, req);
            NumberedList(reqs + [req]) == if reqs == [] then line else NumberedList(reqs) + "\n" + line
  {
    var line := Line(|reqs| + 1, req);
    NumberedLinesSnoc(reqs, req);
    if reqs != [] {
      JoinAppend("\n", NumberedLines(reqs), [line]);
    }
  }

  lemma NumberedLinesSnoc(reqs: seq<string>, req: string)
    ensures NumberedLines(reqs + [req]) == NumberedLines(reqs) + [Line(|reqs| + 1, req)]
  {
    var xs, ys := NumberedLines(reqs + [req]), NumberedLines(reqs) + [Line(|reqs| + 1, req)];
    forall i | 0 <= i < |xs|
      ensures xs[i] == ys[i]
    {
      if i < |reqs| {
        assert (reqs + [req])[i] == reqs[i];
      }
    }
  }

  /** A template filled with the transcript and the numbered list. */
  function Fill(tpl: Template, transcription: string, reqs: seq<string>): string {
    tpl.opening + transcription + tpl.middle + NumberedList(reqs) + tpl.closing
  }

  /** The reanalysis prompt: the transcript and the numbered list in the reanalysis template. */
  function ReanalyzePrompt(transcription: string, reqs: seq<string>): string {
    Fill(ReanalyzeTemplate, transcription, reqs)
  }

  /** The transcript sits verbatim right after the opening, and the numbered list right before the closing. */
  lemma PromptLayout(tpl: Template, transcription: string, reqs: seq<string>)
    ensures var p := Fill(tpl, transcription, reqs);
            var n := |tpl.opening| + |transcription|;
            var m := |p| - |tpl.closing|;
            && p[..|tpl.opening|] == tpl.opening
            && p[|tpl.opening|..n] == transcription
            && p[n..n + |tpl.middle|] == tpl.middle
            && p[m - |NumberedList(reqs)|..m] == NumberedList(reqs)
            && p[m..] == tpl.closing
  {
    var p := Fill(tpl, transcription, reqs);
    var a := tpl.opening + transcription;
    var b := a + tpl.middle;
    var c := b + NumberedList(reqs);
    assert p == c + tpl.closing;
    assert p[..|tpl.opening|] == a[..|tpl.opening|];
    assert p[|tpl.opening|..|a|] == a[|tpl.opening|..];
    assert p[|a|..|b|] == b[|a|..];
    assert p[|b|..|c|] == c[|b|..];
  }

  /** The handler's guard: every field present and truthy, and the requirements an array. */
  predicate Valid(form: Form, requirements: Json) {
    FieldTruthy(form.apiKey) && FieldTruthy(form.transcription) && Truthy(requirements) && requirements.JArray?
  }

  /** `POST /reanalyze`, given the chat-completion call and `JSON.parse`. */
  function Post(form: Form, chat: string -> Outcome<Option<string>>, parse: Parser): (r: Response)
    ensures r.status == 200 || r.status == 400 || r.status == 500
    ensures r.status == 400 <==> parse(FieldText(form.requirements)).Some? && !Valid(form, parse(FieldText(form.requirements)).value)
    ensures r.status == 400 ==> r == ErrorResponse(400, MissingFieldsMessage)
    ensures r.status == 500 ==> r == ErrorResponse(500, FailureMessage)
    ensures r.status == 200 ==> r.body.JObject?
  {
    match parse(FieldText(form.requirements))
    case None => ErrorResponse(500, FailureMessage)
    case Some(requirements) =>
      if !Valid(form, requirements) then ErrorResponse(400, MissingFieldsMessage)
      else
        match DisplayAll(requirements.items)
        case None => ErrorResponse(500, FailureMessage)
        case Some(reqs) => Answer(chat(ReanalyzePrompt(FieldText(form.transcription), reqs)), parse)
  }

  /** The response built from the outcome of the chat call: its cleaned content, parsed and spread. */
  function Answer(reply: Outcome<Option<string>>, parse: Parser): Response {
    match reply
    case Fail(_) => ErrorResponse(500, FailureMessage)
    case Ok(content) =>
      match parse(AnalysisService.Cleanup(AnalysisService.ContentOrDefault(content)))
      case None => ErrorResponse(500, FailureMessage)
      case Some(result) => Response(200, JObject(Spread(result)))
  }

  /**
   * The requirements are parsed before anything is checked: text that is not
   * JSON is answered with 500, not 400, even when every other field is
   * missing, and the chat is never reached.
   */
  lemma MalformedRequirementsFail(form: Form, chat: string -> Outcome<Option<string>>, parse: Parser)
    requires parse(FieldText(form.requirements)).None?
    ensures Post(form, chat, parse) == ErrorResponse(500, FailureMessage)
  {
  }

  /**
   * A missing requirements field reads as the text "null", which parses to
   * null and fails the guard: the answer is 400.
   */
  lemma MissingRequirementsRejected(form: Form, chat: string -> Outcome<Option<string>>, parse: Parser)
    requires form.requirements.None? && parse("null") == Some(JNull)
    ensures Post(form, chat, parse) == ErrorResponse(400, MissingFieldsMessage)
  {
  }

  /**
   * The guard does not look at the array's length: with an API key and a
   * transcript, an empty requirement list reaches the chat call with an
   * empty numbered list, and the answer is built from its reply.
   */
  lemma EmptyRequirementsAccepted(form: Form, chat: string -> Outcome<Option<string>>, parse: Parser)
    requires FieldTruthy(form.apiKey) && FieldTruthy(form.transcription)
    requires parse(FieldText(form.requirements)) == Some(JArray([]))
    ensures Post(form, chat, parse) == Answer(chat(ReanalyzePrompt(FieldText(form.transcription), [])), parse)
    ensures Post(form, chat, parse).status != 400
  {
    assert DisplayAll([]) == Some([]);
  }

  /**
   * A request that passes the guard sends the prompt to the chat and is
   * answered from its reply, unless a requirement cannot be rendered in the
   * prompt: then the template literal throws, the chat is not called, and
   * the answer is 500.
   */
  lemma ValidRequestReachesChat(form: Form, chat: string -> Outcome<Option<string>>, parse: Parser)
    requires parse(FieldText(form.requirements)).Some?
    requires Valid(form, parse(FieldText(form.requirements)).value)
    ensures var requirements := parse(FieldText(form.requirements)).value;
            DisplayAll(requirements.items).Some? ==>
              Post(form, chat, parse) == Answer(chat(ReanalyzePrompt(FieldText(form.transcription), DisplayAll(requirements.items).value)), parse)
    ensures var requirements := parse(FieldText(form.requirements)).value;
            DisplayAll(requirements.items).None? ==> Post(form, chat, parse) == ErrorResponse(500, FailureMessage)
  {
  }

  /**
   * A requirement object with its own "toString" entry, such as
   * `[{"toString": 0}]`, passes the guard but makes the prompt throw: the
   * answer is 500 and the chat is never called, whatever it would return.
   */
  lemma OwnToStringRequirementFails(form: Form, chat: string -> Outcome<Option<string>>, other: string -> Outcome<Option<string>>, parse: Parser, k: nat)
    requires parse(FieldText(form.requirements)).Some?
    requires var requirements := parse(FieldText(form.requirements)).value;
             && Valid(form, requirements)
             && k < |requirements.items| && requirements.items[k].JObject? && "toString" in requirements.items[k].fields
    ensures Post(form, chat, parse) == ErrorResponse(500, FailureMessage)
    ensures Post(form, chat, parse) == Post(form, other, parse)
  {
    OwnToStringThrows(parse(FieldText(form.requirements)).value.items, k);
  }

  /**
   * A reply without content, or with empty content, is read as "{}": the
   * answer is 200 with an empty object.
   */
  lemma EmptyReplyGivesEmptyObject(reply: Outcome<Option<string>>, parse: Parser)
    requires reply == Ok(None) || reply == Ok(Some(""))
    requires parse("{}") == Some(JObject(map[]))
    ensures Answer(reply, parse) == Response(200, JObject(map[]))
  {
    var text := AnalysisService.Cleanup(AnalysisService.ContentOrDefault(reply.value));
    AnalysisService.DefaultContentCleanup(reply.value);
    assert parse(text) == Some(JObject(map[]));
    assert Spread(JObject(map[])) == map[];
  }

  /**
   * A 200 answer comes from a successful chat call on the prompt for this
   * transcript and these requirements, and its body is the spread of the
   * value parsed from the cleaned reply: an object keeps its keys, an
   * array or a string is spread into index keys, and any other value gives
   * an empty object.
   */
  lemma SuccessIsSpread(form: Form, chat: string -> Outcome<Option<string>>, parse: Parser)
    requires Post(form, chat, parse).status == 200
    ensures parse(FieldText(form.requirements)).Some?
    ensures Valid(form, parse(FieldText(form.requirements)).value)
    ensures DisplayAll(parse(FieldText(form.requirements)).value.items).Some?
    ensures var requirements := parse(FieldText(form.requirements)).value;
            var reply := chat(ReanalyzePrompt(FieldText(form.transcription), DisplayAll(requirements.items).value));
            && reply.Ok?
            && parse(AnalysisService.Cleanup(AnalysisService.ContentOrDefault(reply.value))).Some?
            && Post(form, chat, parse).body == JObject(Spread(parse(AnalysisService.Cleanup(AnalysisService.ContentOrDefault(reply.value))).value))
  {
  }
}
