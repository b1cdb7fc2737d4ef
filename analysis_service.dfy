/**
 * `AIAnalysisService.analyze`: builds one instruction prompt from the
 * transcript and the requirement list, sends it to the selected provider,
 * and turns the provider's text into the string handed to `JSON.parse`:
 * fences stripped and trimmed on the OpenAI path, the `{`…`}` slice on the
 * Replicate path. Also the result shape the OpenAI call is told to follow.
 */
module AnalysisService {
  import opened Options
  import opened Strings
  import opened Json
  import opened Providers

  /** The prompt up to the slot of the requirement bullets. */
  const PromptIntro: string :=
    "Eres un asistente de análisis de llamadas. Tu tarea es procesar la siguiente transcripción y devolver un JSON válido con el análisis correspondiente.\n"
    + "\n"
    + "### Tareas:\n"
    + "1. Reformatea la transcripción en estilo diálogo entre \"Agente\" y \"Cliente\" en formato Markdown.\n"
    + "2. Realiza un análisis según los siguientes requisitos:\n"
    + "    "

  /** The prompt between the requirement bullets and the quoted transcript: the output format and the rules. */
  const PromptInstructions: string :=
    "\n"
    + "3. Escribe un resumen de la llamada.\n"
    + "\n"
    + "### Formato de salida esperado (estrictamente JSON válido):\n"
    + "\n"
    + "```json\n"
    + "{\n"
    + "  \"transcription\": \"### Conversación\\n**Agente:** Hola, ¿cómo estás?\\n**Cliente:** Bien, gracias.\",\n"
    + "  \"analysis\": {\n"
    + "    \"customAnalysis\": [\n"
    + "      {\n"
    + "        \"requirement\": \"<nombre del requisito>\",\n"
    + "        \"result\": \"<resultado del análisis>\"\n"
    + "      }\n"
    + "    ]\n"
    + "  },\n"
    + "  \"summary\": \"<resumen>\"\n"
    + "}\n"
    + "```\n"
    + "\n"
    + "**IMPORTANTE:**\n"
    + "- **Devuelve únicamente el JSON sin texto antes o después.**\n"
    + "- **Si algún dato no se encuentra en la transcripción, usa `null` en su lugar.**\n"
    + "- **Todos los valores deben estar bien formateados para que el JSON pueda ser parseado correctamente en JavaScript.**\n"
    + "- **No incluyas comentarios en el JSON.**\n"
    + "- **No incluyas espacios adicionales en el JSON.**\n"
    + "- **No incluyas saltos de línea en los valores de las propiedades.**\n"
    + "- **No incluyas caracteres especiales en los valores de las propiedades.**\n"
    + "- **No incluyas valores booleanos en mayúsculas.**\n"
    + "- **No incluyas comas al final de los objetos o arrays.**\n"
    + "- **No incluyas espacios antes o después de los corchetes o llaves.**\n"
    + "- **No incluyas espacios antes o después de los dos puntos.**\n"
    + "\n"
    + "Ahora, aquí tienes la transcripción de la llamada para analizar:\n"
    + "\n"

  /** Opens the quoted block that holds the transcript. */
  const TranscriptOpening: string := "\"Transcripción de llamada telefónica:\n\n "

  /** Closes the quoted block and ends the prompt. */
  const PromptClosing: string := "\"\n"

  /** What goes between two requirement bullets. */
  const BulletSeparator: string := "\n    "

  /** Each requirement as a Markdown bullet `- <req>`. */
  function Bullets(reqs: seq<string>): (r: seq<string>)
    ensures |r| == |reqs| && forall i | 0 <= i < |reqs| :: r[i] == "- " + reqs[i]
  {
    seq(|reqs|, i requires 0 <= i < |reqs| => "- " + reqs[i])
  }

  /** `requirements.map((req) => `- ${req}`).join("\n    ")`. */
  function BulletList(reqs: seq<string>): string {
    Join(BulletSeparator, Bullets(reqs))
  }

  /**
   * The bullet list grows at the end, one separator and one bullet per added
   * requirement; with the empty list as the base case this fixes every
   * bullet's place and the input order.
   */
  lemma BulletListSnoc(reqs: seq<string>, req: string)
    ensures BulletList([]) == ""
    ensures BulletList(reqs + [req]) ==
      if reqs == [] then "- " + req else BulletList(reqs) + BulletSeparator + "- " + req
  {
    assert Bullets(reqs + [req]) == Bullets(reqs) + ["- " + req];
    if reqs != [] {
      JoinAppend(BulletSeparator, Bullets(reqs), ["- " + req]);
    }
  }

  /** The fixed text of a prompt template, around its two slots. */
  datatype Template = Template(intro: string, instructions: string, opening: string, closing: string)

  /** The analysis prompt template: the fixed text around the bullet list and the transcript. */
  const AnalysisTemplate := Template(PromptIntro, PromptInstructions, TranscriptOpening, PromptClosing)

  /** A template filled with the bullet list and the transcript. */
  function Fill(tpl: Template, transcription: string, reqs: seq<string>): string {
    tpl.intro + BulletList(reqs) + tpl.instructions + tpl.opening + transcription + tpl.closing
  }

  /** The prompt sent to either provider. */
  function Prompt(transcription: string, reqs: seq<string>): string {
    Fill(AnalysisTemplate, transcription, reqs)
  }

  /**
   * Where each part sits in the prompt: the bullet list right after the
   * intro, and the transcript verbatim between the quote that opens the
   * closing block and the quote that ends the prompt.
   */
  lemma PromptLayout(tpl: Template, transcription: string, reqs: seq<string>)
    ensures var p := Fill(tpl, transcription, reqs);
            var n := |tpl.intro| + |BulletList(reqs)|;
            var m := |p| - |tpl.closing|;
            && p[..|tpl.intro|] == tpl.intro
            && p[|tpl.intro|..n] == BulletList(reqs)
            && p[n..n + |tpl.instructions|] == tpl.instructions
            && p[m - |transcription| - |tpl.opening|..m - |transcription|] == tpl.opening
            && p[m - |transcription|..m] == transcription
            && p[m..] == tpl.closing
  {
    PromptHead(tpl, transcription, reqs);
    PromptTail(tpl, transcription, reqs);
  }

  lemma PromptHead(tpl: Template, transcription: string, reqs: seq<string>)
    ensures var p := Fill(tpl, transcription, reqs);
            var n := |tpl.intro| + |BulletList(reqs)|;
            && n + |tpl.instructions| <= |p|
            && p[..|tpl.intro|] == tpl.intro
            && p[|tpl.intro|..n] == BulletList(reqs)
            && p[n..n + |tpl.instructions|] == tpl.instructions
  {
    var a, b, c := tpl.intro, BulletList(reqs), tpl.instructions;
    var rest := tpl.opening + transcription + tpl.closing;
    var p := Fill(tpl, transcription, reqs);
    assert p == a + b + c + rest;
    SliceOfLeft(a + b + c, rest, 0, |a|);
    SliceOfLeft(a + b, c, 0, |a|);
    SliceOfLeft(a, b, 0, |a|);
    SliceOfLeft(a + b + c, rest, |a|, |a + b|);
    SliceOfLeft(a + b, c, |a|, |a + b|);
    SliceOfRight(a, b, |a|, |a + b|);
    SliceOfLeft(a + b + c, rest, |a + b|, |a + b + c|);
    SliceOfRight(a + b, c, |a + b|, |a + b + c|);
  }

  lemma PromptTail(tpl: Template, transcription: string, reqs: seq<string>)
    ensures var p := Fill(tpl, transcription, reqs);
            var m := |p| - |tpl.closing|;
            && |tpl.opening| + |transcription| <= m
            && p[m - |transcription| - |tpl.opening|..m - |transcription|] == tpl.opening
            && p[m - |transcription|..m] == transcription
            && p[m..] == tpl.closing
  {
    var head := tpl.intro + BulletList(reqs) + tpl.instructions;
    var d, e, f := tpl.opening, transcription, tpl.closing;
    var p := Fill(tpl, transcription, reqs);
    var h := |head|;
    assert p == head + d + e + f;
    SliceOfLeft(head + d + e, f, h, h + |d|);
    SliceOfLeft(head + d, e, h, h + |d|);
    SliceOfRight(head, d, h, h + |d|);
    SliceOfLeft(head + d + e, f, h + |d|, h + |d| + |e|);
    SliceOfRight(head + d, e, h + |d|, h + |d| + |e|);
    SliceOfRight(head + d + e, f, |p| - |f|, |p|);
  }

  /** `content || "{}"`: a missing or empty reply becomes the empty JSON object. */
  function ContentOrDefault(content: Option<string>): (r: string)
    ensures r != ""
    ensures content.Some? && content.value != "" ==> r == content.value
    ensures content.None? || content.value == "" ==> r == "{}"
  {
    match content
    case Some(c) => if c != "" then c else "{}"
    case None => "{}"
  }

  const Fence: string := "```"
  const JsonFence: string := "```json"

  /**
   * `s.replace(/```json|```/g, "")`: the text is scanned from the left; at
   * each position "```json" is tried before "```", a match is dropped and
   * the scan resumes after it, and any other character is kept.
   */
  function StripFences(s: string): (r: string)
    ensures |r| <= |s|
    decreases |s|
  {
    if s == [] then []
    else if StartsWith(s, JsonFence) then StripFences(s[|JsonFence|..])
    else if StartsWith(s, Fence) then StripFences(s[|Fence|..])
    else [s[0]] + StripFences(s[1..])
  }

  /** A text that does not start with a backtick keeps its first character in front. */
  lemma StripFencesHead(s: string)
    requires s != [] && s[0] != '`'
    ensures StripFences(s) != [] && StripFences(s)[0] == s[0]
  {
    assert !StartsWith(s, JsonFence) && !StartsWith(s, Fence) by {
      assert JsonFence[0] == Fence[0] == '`';
    }
  }

  /** After stripping, no "```" is left, not even one formed by joining the pieces around a removed fence. */
  lemma {:induction false} StripFencesLeavesNoFence(s: string)
    ensures !Occurs(Fence, StripFences(s))
    decreases |s|
  {
    if s == [] {
    } else if StartsWith(s, JsonFence) {
      StripFencesLeavesNoFence(s[|JsonFence|..]);
    } else if StartsWith(s, Fence) {
      StripFencesLeavesNoFence(s[|Fence|..]);
    } else {
      var rest := StripFences(s[1..]);
      var r := [s[0]] + rest;
      assert StripFences(s) == r;
      StripFencesLeavesNoFence(s[1..]);
      KeptHeadNoFence(s);
      forall i | 1 <= i <= |r|
        ensures !StartsWith(r[i..], Fence)
      {
        assert r[i..] == rest[i - 1..];
      }
    }
  }

  /**
   * When the text does not start with a fence, its first character is kept,
   * and no fence starts there once the rest is stripped.
   */
  lemma KeptHeadNoFence(s: string)
    requires s != [] && !StartsWith(s, Fence)
    ensures !StartsWith([s[0]] + StripFences(s[1..]), Fence)
  {
    var rest := StripFences(s[1..]);
    var r := [s[0]] + rest;
    if s[0] != '`' {
      NoFenceAt(r, 0);
    } else if |s| == 1 {
      assert rest == [];
    } else if s[1] != '`' {
      StripFencesHead(s[1..]);
      NoFenceAt(r, 1);
    } else if |s| == 2 {
      assert StripFences(s[1..]) == [s[1]];
    } else {
      // s starts with exactly two backticks: the second one is kept too, and what follows is not a backtick.
      var t := s[1..];
      assert s[..3][2] == s[2];
      NoFenceAt(t, 1);
      assert rest == [t[0]] + StripFences(t[1..]);
      StripFencesHead(t[1..]);
      NoFenceAt(r, 2);
    }
  }

  /** A character other than a backtick among the first three rules out a leading fence. */
  lemma NoFenceAt(r: string, k: nat)
    requires k < 3
    requires k >= |r| || r[k] != '`'
    ensures !StartsWith(r, Fence) && !StartsWith(r, JsonFence)
  {
    if |r| >= 3 {
      assert r[..3][k] == r[k];
    }
    if |r| >= 7 {
      assert r[..7][k] == r[k];
    }
  }

  /** A text without "```" comes back unchanged. */
  lemma {:induction false} StripFencesPlain(s: string)
    requires !Occurs(Fence, s)
    ensures StripFences(s) == s
    decreases |s|
  {
    if s != [] {
      assert !StartsWith(s[0..], Fence);
      assert s[0..] == s;
      assert !StartsWith(s, JsonFence);
      forall i | 0 <= i <= |s| - 1
        ensures !StartsWith(s[1..][i..], Fence)
      {
        assert s[1..][i..] == s[i + 1..];
      }
      StripFencesPlain(s[1..]);
    }
  }

  /** Stripping twice is stripping once. */
  lemma StripFencesIdempotent(s: string)
    ensures StripFences(StripFences(s)) == StripFences(s)
  {
    StripFencesLeavesNoFence(s);
    StripFencesPlain(StripFences(s));
  }

  /** A first character other than a backtick is kept, and the rest is stripped on its own. */
  lemma StripFencesKeepsHead(s: string)
    requires s != [] && s[0] != '`'
    ensures StripFences(s) == [s[0]] + StripFences(s[1..])
  {
    NoFenceAt(s, 0);
  }

  /** A run without backticks is kept as it is, in front of whatever the rest strips to. */
  lemma {:induction false} StripFencesKeepsPlainRun(x: string, y: string)
    requires forall k | 0 <= k < |x| :: x[k] != '`'
    ensures StripFences(x + y) == x + StripFences(y)
    decreases |x|
  {
    if x != [] {
      var s, tail, a := x + y, x[1..], StripFences(y);
      assert s[0] == x[0];
      StripFencesKeepsHead(s);
      assert s[1..] == tail + y;
      forall k | 0 <= k < |tail|
        ensures tail[k] != '`'
      {
        assert tail[k] == x[k + 1];
      }
      StripFencesKeepsPlainRun(tail, y);
      assert StripFences(s) == [x[0]] + (tail + a);
      HeadTailAppend(x, a);
    } else {
      assert x + y == y;
    }
  }

  /** A leading "```json" is removed and the rest is stripped on its own. */
  lemma StripFencesDropsJsonFence(y: string)
    ensures StripFences(JsonFence + y) == StripFences(y)
  {
    var s := JsonFence + y;
    assert s[..|JsonFence|] == JsonFence;
    assert s[|JsonFence|..] == y;
  }

  /**
   * A leading "```" is removed and the rest is stripped on its own, unless
   * the rest starts with "json", in which case "```json" is removed whole.
   */
  lemma StripFencesDropsFence(y: string)
    requires !StartsWith(y, "json")
    ensures StripFences(Fence + y) == StripFences(y)
  {
    var s := Fence + y;
    if |y| >= 4 {
      assert s[3..7] == y[..4];
      assert JsonFence[3..7] == "json";
    }
    assert !StartsWith(s, JsonFence);
    assert s[..|Fence|] == Fence;
    assert s[|Fence|..] == y;
  }

  /**
   * A reply wrapped in a "```json" fence, a bare "```" fence or none at all
   * is cleaned to the trimmed text between the fences, as long as that text
   * holds no backtick (and, for the bare fence, does not start with "json").
   */
  lemma FencedReply(s: string)
    requires '`' !in s
    ensures Cleanup(JsonFence + s + Fence) == Trim(s)
    ensures !StartsWith(s, "json") ==> Cleanup(Fence + s + Fence) == Trim(s)
    ensures Cleanup(s) == Trim(s)
  {
    ClosingFenceDropped(s);
    assert JsonFence + s + Fence == JsonFence + (s + Fence);
    StripFencesDropsJsonFence(s + Fence);
    if !StartsWith(s, "json") {
      assert Fence + s + Fence == Fence + (s + Fence);
      NoJsonBeforeFence(s);
      StripFencesDropsFence(s + Fence);
    }
    StripFencesKeepsPlainRun(s, []);
    assert s + [] == s;
  }

  /** A closing fence after a run without backticks is removed. */
  lemma ClosingFenceDropped(s: string)
    requires '`' !in s
    ensures StripFences(s + Fence) == s
  {
    StripFencesKeepsPlainRun(s, Fence);
    StripFencesDropsFence([]);
    assert Fence + [] == Fence;
  }

  /** Appending a fence to a run without backticks does not make it start with "json". */
  lemma NoJsonBeforeFence(s: string)
    requires '`' !in s && !StartsWith(s, "json")
    ensures !StartsWith(s + Fence, "json")
  {
    if |s| >= 4 {
      assert (s + Fence)[..4] == s[..4];
    } else {
      assert (s + Fence)[|s|] == '`';
    }
  }

  /** `result.replace(/```json|```/g, "").trim()`: the OpenAI reply as handed to `JSON.parse`. */
  function Cleanup(s: string): string {
    Trim(StripFences(s))
  }

  /** The cleaned text contains no fence and no whitespace at either end. */
  lemma CleanupResult(s: string)
    ensures !Occurs(Fence, Cleanup(s))
    ensures Cleanup(s) == [] || (!IsWhitespace(Cleanup(s)[0]) && !IsWhitespace(Cleanup(s)[|Cleanup(s)| - 1]))
  {
    CleanupNoFence(s);
    CleanupTrimmed(s);
  }

  lemma CleanupTrimmed(s: string)
    ensures Cleanup(s) == [] || (!IsWhitespace(Cleanup(s)[0]) && !IsWhitespace(Cleanup(s)[|Cleanup(s)| - 1]))
  {
    TrimEdges(StripFences(s));
  }

  lemma CleanupNoFence(s: string)
    ensures !Occurs(Fence, Cleanup(s))
  {
    var t := StripFences(s);
    StripFencesLeavesNoFence(s);
    TrimKeepsAbsent(Fence, t);
  }

  /** Text without "```" is only trimmed. */
  lemma CleanupPlain(s: string)
    requires !Occurs(Fence, s)
    ensures Cleanup(s) == Trim(s)
  {
    StripFencesPlain(s);
  }

  /** A reply with no content is cleaned to the empty JSON object. */
  lemma DefaultContentCleanup(content: Option<string>)
    requires content.None? || content.value == ""
    ensures Cleanup(ContentOrDefault(content)) == "{}"
  {
    var c := ContentOrDefault(content);
    BracesCleanup(c);
  }

  /** The two characters `{}` pass the cleanup unchanged. */
  lemma BracesCleanup(s: string)
    requires |s| == 2 && s[0] == '{' && s[1] == '}'
    ensures Cleanup(s) == s
  {
    ShortHasNoFence(s);
    CleanupPlain(s);
    TrimUnchanged(s);
  }

  /** Text shorter than a fence contains none. */
  lemma ShortHasNoFence(s: string)
    requires |s| < |Fence|
    ensures !Occurs(Fence, s)
  {
    forall i | 0 <= i <= |s|
      ensures !StartsWith(s[i..], Fence)
    {
      assert |s[i..]| < |Fence|;
    }
  }

  /** `(response as string[]).join("").trim()`: the Replicate output pieces, concatenated and trimmed. */
  function ReplicateText(pieces: seq<string>): string {
    Trim(Join("", pieces))
  }

  /** The pieces are concatenated with no separator, so splitting the output anywhere concatenates the parts. */
  lemma ReplicatePiecesConcatenate(xs: seq<string>, ys: seq<string>)
    ensures Join("", xs + ys) == Join("", xs) + Join("", ys)
  {
    if xs == [] {
      assert xs + ys == ys;
    } else if ys == [] {
      assert xs + ys == xs;
    } else {
      JoinAppend("", xs, ys);
    }
  }

  /**
   * `text.substring(text.indexOf("{"), text.lastIndexOf("}") + 1)`: the
   * candidate JSON object in the Replicate reply.
   */
  function ExtractJson(text: string): string {
    Between(text, '{', '}')
  }

  /** From the first `c` to one past the last `d`, through `substring`. */
  function Between(text: string, c: char, d: char): string {
    Substring(text, IndexOf(text, c), LastIndexOf(text, d) + 1)
  }

  /**
   * When a `{` comes before the last `}`, the slice runs from the first `{`
   * to the last `}` inclusive: nothing before it is a `{` and nothing after
   * it is a `}`.
   */
  lemma ExtractJsonSlice(text: string, open: nat, close: nat)
    requires open < close < |text| && text[open] == '{' && text[close] == '}'
    ensures var i, j := IndexOf(text, '{'), LastIndexOf(text, '}');
            && 0 <= i < j < |text|
            && ExtractJson(text) == text[i..j + 1]
            && '{' !in text[..i] && '}' !in text[j + 1..]
    ensures var r := ExtractJson(text);
            |r| >= 2 && r[0] == '{' && r[|r| - 1] == '}'
  {
    DelimitedSlice(text, '{', '}', open, close);
  }

  /** The same for any pair of delimiters, with the first `c` and the last `d` as ends. */
  lemma DelimitedSlice(text: string, c: char, d: char, open: nat, close: nat)
    requires open < close < |text| && text[open] == c && text[close] == d
    ensures var i, j := IndexOf(text, c), LastIndexOf(text, d);
            && 0 <= i < j < |text|
            && Between(text, c, d) == text[i..j + 1]
            && c !in text[..i] && d !in text[j + 1..]
    ensures var r := Between(text, c, d);
            |r| >= 2 && r[0] == c && r[|r| - 1] == d
  {
    var i, j := IndexOf(text, c), LastIndexOf(text, d);
    assert 0 <= i <= open;
    assert close <= j;
    var r := text[i..j + 1];
    assert r[0] == c && r[|r| - 1] == d;
    var before, after := text[..i], text[j + 1..];
    assert c !in before by {
      forall k | 0 <= k < |before| ensures before[k] != c {
        assert before[k] == text[k];
      }
    }
    assert d !in after by {
      forall k | 0 <= k < |after| ensures after[k] != d {
        assert after[k] == text[j + 1 + k];
      }
    }
  }

  /**
   * The cases where no `{` precedes the last `}`: `substring` clamps -1 to 0
   * and swaps reversed bounds, so the slice is not a JSON object.
   */
  lemma ExtractJsonDegenerate(text: string)
    ensures '{' !in text && '}' !in text ==> ExtractJson(text) == ""
    ensures '{' !in text && '}' in text ==> ExtractJson(text) == text[..LastIndexOf(text, '}') + 1]
    ensures '{' in text && '}' !in text ==> ExtractJson(text) == text[..IndexOf(text, '{')]
    ensures '{' in text && '}' in text && LastIndexOf(text, '}') < IndexOf(text, '{') ==>
      ExtractJson(text) == text[LastIndexOf(text, '}') + 1..IndexOf(text, '{')]
  {
    var i, j := IndexOf(text, '{'), LastIndexOf(text, '}');
    assert ExtractJson(text) == Substring(text, i, j + 1);
    SubstringDegenerate(text, i, j);
  }

  /** `substring(i, j + 1)` for positions found by a search: a missing start clamps to 0, and a start past the end swaps. */
  lemma SubstringDegenerate(text: string, i: int, j: int)
    requires -1 <= i < |text| && -1 <= j < |text|
    ensures i < 0 ==> Substring(text, i, j + 1) == text[..j + 1]
    ensures 0 <= i && j < i ==> Substring(text, i, j + 1) == text[j + 1..i]
  {
  }

  /** One entry of `analysis.customAnalysis`. */
  datatype RequirementResult = RequirementResult(requirement: string, result: string)

  /** The shape the OpenAI call is told to return as its response format. */
  datatype AnalysisResult = AnalysisResult(
    transcription: string,
    customAnalysis: seq<RequirementResult>,
    summary: Option<string>)

  function RequirementResultJson(x: RequirementResult): Json {
    JObject(map["requirement" := JString(x.requirement), "result" := JString(x.result)])
  }

  /** The `customAnalysis` array, one object per entry in order. */
  function RequirementResultsJson(xs: seq<RequirementResult>): (r: seq<Json>)
    ensures |r| == |xs| && forall i | 0 <= i < |xs| :: r[i] == RequirementResultJson(xs[i])
  {
    seq(|xs|, i requires 0 <= i < |xs| => RequirementResultJson(xs[i]))
  }

  /** The JSON object a result of this shape is written as. */
  function ResultJson(r: AnalysisResult): Json {
    var custom := RequirementResultsJson(r.customAnalysis);
    var fields := map[
      "transcription" := JString(r.transcription),
      "analysis" := JObject(map["customAnalysis" := JArray(custom)])];
    JObject(if r.summary.Some? then fields["summary" := JString(r.summary.value)] else fields)
  }

  /** The string under `key` of an object, if there is one. */
  function StringField(j: Json, key: string): Option<string> {
    if j.JObject? && key in j.fields && j.fields[key].JString? then Some(j.fields[key].s) else None
  }

  function ReadRequirementResult(j: Json): Option<RequirementResult> {
    match (StringField(j, "requirement"), StringField(j, "result"))
    case (Some(req), Some(res)) => Some(RequirementResult(req, res))
    case _ => None
  }

  function ReadRequirementResults(items: seq<Json>): (r: Option<seq<RequirementResult>>)
    ensures r.Some? ==> |r.value| == |items|
  {
    if items == [] then Some([])
    else
      match (ReadRequirementResult(items[0]), ReadRequirementResults(items[1..]))
      case (Some(x), Some(xs)) => Some([x] + xs)
      case _ => None
  }

  /**
   * Checks a parsed value against the shape, as the schema object would:
   * unknown keys are ignored, `summary` may be absent but not of another type.
   * `Analyze` does not apply this check to the parsed reply: the schema is
   * only handed to the provider as the requested response format, so this
   * function states what a reply of that format reads back as.
   */
  function ReadAnalysisResult(j: Json): Option<AnalysisResult> {
    if !j.JObject? || !("analysis" in j.fields) then None
    else
      var analysis := j.fields["analysis"];
      var summaryOk := !("summary" in j.fields) || j.fields["summary"].JString?;
      if !analysis.JObject? || !("customAnalysis" in analysis.fields) || !analysis.fields["customAnalysis"].JArray? || !summaryOk then None
      else
        match (StringField(j, "transcription"), ReadRequirementResults(analysis.fields["customAnalysis"].items))
        case (Some(t), Some(custom)) => Some(AnalysisResult(t, custom, StringField(j, "summary")))
        case _ => None
  }

  lemma {:induction false} RequirementResultsRoundTrip(xs: seq<RequirementResult>)
    ensures ReadRequirementResults(RequirementResultsJson(xs)) == Some(xs)
  {
    var items := RequirementResultsJson(xs);
    if xs != [] {
      assert items[1..] == RequirementResultsJson(xs[1..]);
      RequirementResultsRoundTrip(xs[1..]);
      assert [xs[0]] + xs[1..] == xs;
    }
  }

  /** Every result of the shape, written as JSON, reads back as itself. */
  lemma SchemaRoundTrip(r: AnalysisResult)
    ensures ReadAnalysisResult(ResultJson(r)) == Some(r)
  {
    RequirementResultsRoundTrip(r.customAnalysis);
  }

  /** `JSON.parse(text)`, with a SyntaxError reported as a ParseError. */
  function ParseOrFail(parse: Parser, text: string): Outcome<Json> {
    match parse(text)
    case Some(j) => Ok(j)
    case None => Fail(ParseError)
  }

  /** Whether the requirements can be listed in the prompt: an array whose every element renders. */
  predicate Listable(requirements: Json) {
    requirements.JArray? && DisplayAll(requirements.items).Some?
  }

  /**
   * `analyze(transcription, requirements, platform)`. The prompt is built
   * before the platform is looked at, so a requirements value that is not an
   * array fails on `map`, and one holding an element that cannot be
   * rendered fails in the template literal, whatever the platform.
   */
  function Analyze(transcription: string, requirements: Json, platform: Option<string>, svc: Services): (o: Outcome<Json>)
    ensures !Listable(requirements) ==> o == Fail(TypeError)
    ensures o.Fail? && o.failure == TypeError ==> !Listable(requirements)
  {
    if !Listable(requirements) then Fail(TypeError)
    else
      var prompt := Prompt(transcription, DisplayAll(requirements.items).value);
      if IsOpenAI(platform) then
        match svc.chat(prompt)
        case Fail(_) => Fail(ProviderError)
        case Ok(content) => ParseOrFail(svc.parse, Cleanup(ContentOrDefault(content)))
      else
        match svc.reasoner(prompt)
        case Fail(_) => Fail(ProviderError)
        case Ok(pieces) => ParseOrFail(svc.parse, ExtractJson(ReplicateText(pieces)))
  }

  /**
   * Platform "openai" takes the chat-completion path: the outcome depends on
   * the chat call and the parser only, and is the parse of the cleaned reply.
   */
  lemma OpenAIPath(transcription: string, reqs: seq<string>, svc: Services, other: Services)
    requires other.chat == svc.chat && other.parse == svc.parse
    ensures var requirements := JArray(seq(|reqs|, i requires 0 <= i < |reqs| => JString(reqs[i])));
            && Analyze(transcription, requirements, Some("openai"), svc) == Analyze(transcription, requirements, Some("openai"), other)
            && (svc.chat(Prompt(transcription, reqs)).Ok? ==>
                  Analyze(transcription, requirements, Some("openai"), svc)
                    == ParseOrFail(svc.parse, Cleanup(ContentOrDefault(svc.chat(Prompt(transcription, reqs)).value))))
  {
    var requirements := JArray(seq(|reqs|, i requires 0 <= i < |reqs| => JString(reqs[i])));
    DisplayStrings(reqs);
  }

  /**
   * Every other platform value, a missing one included, takes the Replicate
   * path: the outcome depends on the Replicate call and the parser only, and
   * is the parse of the extracted `{`…`}` slice.
   */
  lemma ReplicatePath(transcription: string, reqs: seq<string>, platform: Option<string>, svc: Services, other: Services)
    requires platform != Some("openai")
    requires other.reasoner == svc.reasoner && other.parse == svc.parse
    ensures var requirements := JArray(seq(|reqs|, i requires 0 <= i < |reqs| => JString(reqs[i])));
            && Analyze(transcription, requirements, platform, svc) == Analyze(transcription, requirements, platform, other)
            && (svc.reasoner(Prompt(transcription, reqs)).Ok? ==>
                  Analyze(transcription, requirements, platform, svc)
                    == ParseOrFail(svc.parse, ExtractJson(ReplicateText(svc.reasoner(Prompt(transcription, reqs)).value))))
  {
    var requirements := JArray(seq(|reqs|, i requires 0 <= i < |reqs| => JString(reqs[i])));
    DisplayStrings(reqs);
  }

  /**
   * A Replicate reply with no `{` and no `}` at all is cut to the empty
   * string, which `JSON.parse` rejects: the analysis fails with a parse
   * error rather than returning an empty result.
   */
  lemma ProseReplyFails(transcription: string, requirements: Json, platform: Option<string>, svc: Services)
    requires Listable(requirements) && !IsOpenAI(platform)
    requires var reply := svc.reasoner(Prompt(transcription, DisplayAll(requirements.items).value));
             reply.Ok? && '{' !in ReplicateText(reply.value) && '}' !in ReplicateText(reply.value)
    requires svc.parse("").None?
    ensures Analyze(transcription, requirements, platform, svc) == Fail(ParseError)
  {
    ExtractJsonDegenerate(ReplicateText(svc.reasoner(Prompt(transcription, DisplayAll(requirements.items).value)).value));
  }
}
