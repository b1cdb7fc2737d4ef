/**
 * The page that drives the four-step wizard: upload (1), requirements (2),
 * processing (3) and results (4). It owns the requirement lists, builds
 * the list sent for analysis, and fills the results with a simulated
 * analysis derived from what was selected.
 */
module Wizard {
  import opened Options
  import opened Strings
  import opened Seqs
  import opened Requirements
  import opened AudioUploader

  /** The predefined requirements the page starts with, all checked. */
  const DefaultPredefined: seq<Requirement> := [
    Requirement("prohibited", "Identificar palabras prohibidas", true),
    Requirement("clientName", "Detectar si el agente mencionó el nombre del cliente", true),
    Requirement("objections", "Verificar si el cliente presentó objeciones", true),
    Requirement("discount", "Identificar si el agente ofreció un descuento", true),
    Requirement("tone", "Analizar el tono emocional de la llamada", true)
  ]

  function IsSelected(): Requirement -> bool {
    (r: Requirement) => r.selected
  }

  /** The texts of a list of requirements, in order. */
  function Texts(reqs: seq<Requirement>): (r: seq<string>)
    ensures |r| == |reqs| && forall i | 0 <= i < |reqs| :: r[i] == reqs[i].text
  {
    seq(|reqs|, i requires 0 <= i < |reqs| => reqs[i].text)
  }

  /** `filter(req => req.selected).map(req => req.text)`. */
  function SelectedTexts(reqs: seq<Requirement>): seq<string> {
    Texts(Filter(reqs, IsSelected()))
  }

  /**
   * The texts of exactly the checked entries: each checked entry's text is
   * there, and everything there is the text of a checked entry.
   */
  lemma SelectedTextsMembers(reqs: seq<Requirement>)
    ensures forall i | 0 <= i < |reqs| :: reqs[i].selected ==> reqs[i].text in SelectedTexts(reqs)
    ensures forall k | 0 <= k < |SelectedTexts(reqs)| :: exists i | 0 <= i < |reqs| :: reqs[i].selected && reqs[i].text == SelectedTexts(reqs)[k]
  {
    var f := Filter(reqs, IsSelected());
    forall i | 0 <= i < |reqs| && reqs[i].selected
      ensures reqs[i].text in SelectedTexts(reqs)
    {
      assert reqs[i] in f;
      var k :| 0 <= k < |f| && f[k] == reqs[i];
      assert SelectedTexts(reqs)[k] == reqs[i].text;
    }
    forall k | 0 <= k < |SelectedTexts(reqs)|
      ensures exists i | 0 <= i < |reqs| :: reqs[i].selected && reqs[i].text == SelectedTexts(reqs)[k]
    {
      assert f[k] in reqs;
      var i :| 0 <= i < |reqs| && reqs[i] == f[k];
      assert reqs[i].selected && reqs[i].text == SelectedTexts(reqs)[k];
    }
  }

  /** Selection keeps the input order: the texts of a concatenation are the texts of each part, in turn. */
  lemma SelectedTextsAppend(xs: seq<Requirement>, ys: seq<Requirement>)
    ensures SelectedTexts(xs + ys) == SelectedTexts(xs) + SelectedTexts(ys)
  {
    var f, g := Filter(xs, IsSelected()), Filter(ys, IsSelected());
    FilterAppend(xs, ys, IsSelected());
    TextsAppend(f, g);
  }

  lemma TextsAppend(xs: seq<Requirement>, ys: seq<Requirement>)
    ensures Texts(xs + ys) == Texts(xs) + Texts(ys)
  {
    var l, r := Texts(xs + ys), Texts(xs) + Texts(ys);
    forall i | 0 <= i < |l|
      ensures l[i] == r[i]
    {
      if i < |xs| {
        assert (xs + ys)[i] == xs[i];
      } else {
        assert (xs + ys)[i] == ys[i - |xs|];
      }
    }
  }

  predicate AnySelected(reqs: seq<Requirement>) {
    exists i | 0 <= i < |reqs| :: reqs[i].selected
  }

  /** The selected texts are empty exactly when nothing is checked. */
  lemma SelectedTextsEmpty(reqs: seq<Requirement>)
    ensures SelectedTexts(reqs) == [] <==> !AnySelected(reqs)
  {
    SelectedTextsMembers(reqs);
    if AnySelected(reqs) {
      var i :| 0 <= i < |reqs| && reqs[i].selected;
      assert reqs[i].text in SelectedTexts(reqs);
    }
    if SelectedTexts(reqs) != [] {
      var f := Filter(reqs, IsSelected());
      assert f[0] in reqs && IsSelected()(f[0]);
      var i :| 0 <= i < |reqs| && reqs[i] == f[0];
      assert reqs[i].selected;
    }
  }

  /** With every entry checked, the texts are the whole list's texts in order. */
  lemma AllSelectedTexts(reqs: seq<Requirement>)
    requires forall i | 0 <= i < |reqs| :: reqs[i].selected
    ensures SelectedTexts(reqs) == Texts(reqs)
  {
    FilterKeepsAll(reqs, IsSelected());
  }

  /** `[...selectedPredefined, ...customRequirements]`: the list sent for analysis. */
  function AllRequirements(predefined: seq<Requirement>, custom: seq<string>): (r: seq<string>)
    ensures |r| == |SelectedTexts(predefined)| + |custom|
    ensures r[..|SelectedTexts(predefined)|] == SelectedTexts(predefined)
    ensures r[|SelectedTexts(predefined)|..] == custom
  {
    SelectedTexts(predefined) + custom
  }

  /** The second guard of `handleRequirementsSubmit`: something checked, or a custom requirement. */
  predicate HasSelection(predefined: seq<Requirement>, custom: seq<string>) {
    AnySelected(predefined) || |custom| > 0
  }

  /** The guard lets a submission through exactly when the list it would send is not empty. */
  lemma SubmitGuardMeansNonEmpty(predefined: seq<Requirement>, custom: seq<string>)
    ensures HasSelection(predefined, custom) <==> AllRequirements(predefined, custom) != []
  {
    SelectedTextsEmpty(predefined);
  }

  /** The first entry with the id exists and is checked. */
  predicate FirstMatchSelected(reqs: seq<Requirement>, id: string) {
    exists i | 0 <= i < |reqs| :: reqs[i].id == id && reqs[i].selected && forall j | 0 <= j < i :: reqs[j].id != id
  }

  /** `predefinedRequirements.find(r => r.id === id)?.selected`: the first entry with the id decides; no entry is false. */
  function FindSelected(reqs: seq<Requirement>, id: string): (r: bool)
    ensures r <==> FirstMatchSelected(reqs, id)
  {
    if reqs == [] then false
    else if reqs[0].id == id then reqs[0].selected
    else
      FirstMatchSkip(reqs, id);
      FindSelected(reqs[1..], id)
  }

  /** An entry without the id in front does not change which entry matches first. */
  lemma FirstMatchSkip(reqs: seq<Requirement>, id: string)
    requires reqs != [] && reqs[0].id != id
    ensures FirstMatchSelected(reqs, id) <==> FirstMatchSelected(reqs[1..], id)
  {
    var rest := reqs[1..];
    if FirstMatchSelected(rest, id) {
      var i :| 0 <= i < |rest| && rest[i].id == id && rest[i].selected && forall j | 0 <= j < i :: rest[j].id != id;
      assert forall j | 1 <= j < i + 1 :: reqs[j] == rest[j - 1];
      assert reqs[i + 1] == rest[i];
    }
    if FirstMatchSelected(reqs, id) {
      var i :| 0 <= i < |reqs| && reqs[i].id == id && reqs[i].selected && forall j | 0 <= j < i :: reqs[j].id != id;
      assert rest[i - 1] == reqs[i];
      assert forall j | 0 <= j < i - 1 :: rest[j] == reqs[j + 1];
    }
  }

  predicate DistinctIds(reqs: seq<Requirement>) {
    forall i, j | 0 <= i < j < |reqs| :: reqs[i].id != reqs[j].id
  }

  /** With distinct ids, the lookup is true exactly when the entry with the id exists and is checked. */
  lemma FindSelectedDistinct(reqs: seq<Requirement>, id: string)
    requires DistinctIds(reqs)
    ensures FindSelected(reqs, id) <==> exists i | 0 <= i < |reqs| :: reqs[i].id == id && reqs[i].selected
  {
  }

  datatype CustomResult = CustomResult(requirement: string, result: string)

  /** The results the page shows and reports. */
  datatype CallAnalysis = CallAnalysis(
    transcription: string,
    prohibitedWords: seq<string>,
    mentionedClientName: bool,
    clientObjections: seq<string>,
    offeredDiscount: bool,
    emotionalTone: string,
    customAnalysis: seq<CustomResult>,
    summary: string)

  const MockTranscription: string := "Este es un ejemplo de transcripción del audio subido..."
  const NotAnalyzed: string := "No analizado"
  const SummaryOpening: string := "La llamada tuvo una duración de 3:45 minutos. "
  const CustomSummary: string := "Además, se realizaron análisis personalizados según los requisitos especificados."

  /** The simulated result for one custom requirement. */
  function MockCustomResult(req: string): CustomResult {
    CustomResult(req, "Análisis para: " + req + " - Resultado simulado basado en la transcripción.")
  }

  const ClientNameSentence: string := "El agente mencionó el nombre del cliente correctamente. "
  const ObjectionsSentence: string := "Se identificaron objeciones relacionadas con el precio. "
  const DiscountSentence: string := "El agente ofreció un descuento del 10%. "

  /** The sentence when its finding is checked, and nothing otherwise. */
  function Sentence(on: bool, text: string): string {
    if on then text else ""
  }

  /** The summary up to the custom sentence: the call length and one sentence per checked finding. */
  function MockSummaryHead(predefined: seq<Requirement>): (s: string)
    ensures |s| >= |SummaryOpening| && s[..|SummaryOpening|] == SummaryOpening && s[|s| - 1] == ' '
  {
    var a := Sentence(FindSelected(predefined, "clientName"), ClientNameSentence);
    var b := Sentence(FindSelected(predefined, "objections"), ObjectionsSentence);
    var c := Sentence(FindSelected(predefined, "discount"), DiscountSentence);
    assert SummaryOpening[|SummaryOpening| - 1] == ' ';
    assert ClientNameSentence[|ClientNameSentence| - 1] == ' ';
    assert ObjectionsSentence[|ObjectionsSentence| - 1] == ' ';
    assert DiscountSentence[|DiscountSentence| - 1] == ' ';
    SpacedAppend(SummaryOpening, a);
    SpacedAppend(SummaryOpening + a, b);
    SpacedAppend(SummaryOpening + a + b, c);
    SummaryOpening + a + b + c
  }

  /** Appending text that is empty or ends in a space to text that ends in a space keeps the prefix and the final space. */
  lemma SpacedAppend(x: string, y: string)
    requires x != [] && x[|x| - 1] == ' '
    requires y == [] || y[|y| - 1] == ' '
    ensures (x + y)[..|x|] == x && (x + y)[|x + y| - 1] == ' '
  {
  }

  function MockSummary(predefined: seq<Requirement>, custom: seq<string>): string {
    MockSummaryHead(predefined) + (if |custom| > 0 then CustomSummary else "")
  }

  /** The simulated analysis built at the end of `processAudio`. */
  function MockResults(predefined: seq<Requirement>, custom: seq<string>): CallAnalysis {
    CallAnalysis(
      MockTranscription,
      if FindSelected(predefined, "prohibited") then ["palabra1", "palabra2"] else [],
      FindSelected(predefined, "clientName"),
      if FindSelected(predefined, "objections") then ["El precio es muy alto", "Necesito pensarlo"] else [],
      FindSelected(predefined, "discount"),
      if FindSelected(predefined, "tone") then "Neutral con momentos de tensión" else NotAnalyzed,
      seq(|custom|, i requires 0 <= i < |custom| => MockCustomResult(custom[i])),
      MockSummary(predefined, custom))
  }

  /**
   * On a list with distinct ids, each simulated finding is present (a
   * non-empty list, `true`, or an analysed tone) exactly when the
   * requirement with its id is checked.
   */
  lemma MockFindingsReflectSelection(predefined: seq<Requirement>, custom: seq<string>)
    requires DistinctIds(predefined)
    ensures var r := MockResults(predefined, custom);
            && (r.prohibitedWords != [] <==> exists i | 0 <= i < |predefined| :: predefined[i].id == "prohibited" && predefined[i].selected)
            && (r.mentionedClientName <==> exists i | 0 <= i < |predefined| :: predefined[i].id == "clientName" && predefined[i].selected)
            && (r.clientObjections != [] <==> exists i | 0 <= i < |predefined| :: predefined[i].id == "objections" && predefined[i].selected)
            && (r.offeredDiscount <==> exists i | 0 <= i < |predefined| :: predefined[i].id == "discount" && predefined[i].selected)
            && (r.emotionalTone != NotAnalyzed <==> exists i | 0 <= i < |predefined| :: predefined[i].id == "tone" && predefined[i].selected)
  {
    FindSelectedDistinct(predefined, "prohibited");
    FindSelectedDistinct(predefined, "clientName");
    FindSelectedDistinct(predefined, "objections");
    FindSelectedDistinct(predefined, "discount");
    FindSelectedDistinct(predefined, "tone");
  }

  /** One simulated custom result per custom requirement, in order, naming it. */
  lemma MockCustomAnalysis(predefined: seq<Requirement>, custom: seq<string>)
    ensures var r := MockResults(predefined, custom);
            && |r.customAnalysis| == |custom|
            && forall i | 0 <= i < |custom| :: r.customAnalysis[i].requirement == custom[i]
  {
  }

  /**
   * The summary always opens with the call length and ends with the
   * sentence about custom analyses exactly when there are custom
   * requirements.
   */
  lemma MockSummaryShape(predefined: seq<Requirement>, custom: seq<string>)
    ensures var s := MockSummary(predefined, custom);
            && StartsWith(s, SummaryOpening)
            && (custom != [] <==> EndsWith(s, CustomSummary))
  {
    var s := MockSummary(predefined, custom);
    var head := MockSummaryHead(predefined);
    assert s == head + (if |custom| > 0 then CustomSummary else "");
    assert s[..|SummaryOpening|] == head[..|SummaryOpening|];
    if custom != [] {
      assert s[|s| - |CustomSummary|..] == CustomSummary;
    } else {
      assert s == head;
      assert CustomSummary[|CustomSummary| - 1] == '.';
      assert |s| < |CustomSummary| || s[|s| - |CustomSummary|..][|CustomSummary| - 1] == ' ';
    }
  }

  function YesNo(b: bool): string {
    if b then "Sí" else "No"
  }

  const ReportHeader: string := "\nREPORTE DE ANÁLISIS DE AUDIO\n============================\nFecha: "

  /** The report between the date and the summary: the transcript and the five findings. */
  function ReportFindings(r: CallAnalysis): string {
    "\n\nTRANSCRIPCIÓN:\n" + r.transcription
    + "\n\nANÁLISIS:\n- Palabras prohibidas: " + Join(", ", r.prohibitedWords)
    + "\n- Mención del nombre del cliente: " + YesNo(r.mentionedClientName)
    + "\n- Objeciones del cliente: " + Join(", ", r.clientObjections)
    + "\n- Ofrecimiento de descuento: " + YesNo(r.offeredDiscount)
    + "\n- Tono emocional: " + r.emotionalTone
  }

  /** The last part of the report. */
  function ReportSummary(summary: string): string {
    "\n\nRESUMEN:\n" + summary + "\n    "
  }

  /** The downloaded report, given the date as the browser formats it; nothing without results. */
  function ReportText(results: Option<CallAnalysis>, date: string): Option<string> {
    match results
    case None => None
    case Some(r) => Some(ReportHeader + date + ReportFindings(r) + ReportSummary(r.summary))
  }

  /**
   * The report opens with the title and the date and closes with the
   * summary; the custom analyses are not in it.
   */
  lemma ReportLayout(r: CallAnalysis, date: string)
    ensures var t := ReportText(Some(r), date).value;
            && StartsWith(t, ReportHeader + date)
            && EndsWith(t, ReportSummary(r.summary))
  {
    var t := ReportText(Some(r), date).value;
    var front := ReportHeader + date;
    var tail := ReportSummary(r.summary);
    assert t == front + ReportFindings(r) + tail;
    assert t[..|front|] == front;
    assert t[|t| - |tail|..] == tail;
  }

  /** The page's state. The ghost traces record every value `step` and `processingStatus` are set to. */
  class AudioAnalyzer {
    var step: int
    var audioFile: Option<AudioFile>
    var predefined: seq<Requirement>
    var custom: seq<string>
    var processingStatus: string
    var results: Option<CallAnalysis>
    var isConfigOpen: bool
    ghost var stepTrace: seq<int>
    ghost var statusTrace: seq<string>

    constructor()
      ensures step == 1 && audioFile == None && predefined == DefaultPredefined && custom == []
      ensures processingStatus == "" && results == None && !isConfigOpen
      ensures stepTrace == [1] && statusTrace == [""]
    {
      step := 1;
      audioFile := None;
      predefined := DefaultPredefined;
      custom := [];
      processingStatus := "";
      results := None;
      isConfigOpen := false;
      stepTrace := [1];
      statusTrace := [""];
    }

    /** `handleFileAccepted(file)`: the file is kept and the requirements step shown. */
    method HandleFileAccepted(file: AudioFile)
      modifies this
      ensures audioFile == Some(file) && step == 2 && stepTrace == old(stepTrace) + [2]
      ensures predefined == old(predefined) && custom == old(custom) && processingStatus == old(processingStatus)
      ensures results == old(results) && isConfigOpen == old(isConfigOpen) && statusTrace == old(statusTrace)
    {
      audioFile := Some(file);
      step := 2;
      stepTrace := stepTrace + [2];
    }

    /** The setters handed to the requirements step and the configuration dialog. */
    method SetRequirements(predefined: seq<Requirement>, custom: seq<string>)
      modifies this
      ensures this.predefined == predefined && this.custom == custom
      ensures step == old(step) && audioFile == old(audioFile) && processingStatus == old(processingStatus)
      ensures results == old(results) && isConfigOpen == old(isConfigOpen)
      ensures stepTrace == old(stepTrace) && statusTrace == old(statusTrace)
    {
      this.predefined := predefined;
      this.custom := custom;
    }

    method SetConfigOpen(open: bool)
      modifies this
      ensures isConfigOpen == open
      ensures step == old(step) && audioFile == old(audioFile) && predefined == old(predefined) && custom == old(custom)
      ensures processingStatus == old(processingStatus) && results == old(results)
      ensures stepTrace == old(stepTrace) && statusTrace == old(statusTrace)
    {
      isConfigOpen := open;
    }

    /**
     * `processAudio()` run to the end: the status goes through
     * transcribing, analyzing and summarizing, the simulated results are
     * set and the results step shown. `sent` is the requirement list
     * prepared for the request.
     */
    method ProcessAudio() returns (sent: seq<string>)
      modifies this
      ensures sent == AllRequirements(old(predefined), old(custom))
      ensures statusTrace == old(statusTrace) + ["transcribing", "analyzing", "summarizing"]
      ensures processingStatus == "summarizing"
      ensures results == Some(MockResults(old(predefined), old(custom)))
      ensures step == 4 && stepTrace == old(stepTrace) + [4]
      ensures audioFile == old(audioFile) && predefined == old(predefined) && custom == old(custom)
      ensures isConfigOpen == old(isConfigOpen)
    {
      processingStatus := "transcribing";
      statusTrace := statusTrace + [processingStatus];
      processingStatus := "analyzing";
      statusTrace := statusTrace + [processingStatus];
      sent := AllRequirements(predefined, custom);
      processingStatus := "summarizing";
      statusTrace := statusTrace + [processingStatus];
      results := Some(MockResults(predefined, custom));
      step := 4;
      stepTrace := stepTrace + [4];
    }

    /**
     * `handleRequirementsSubmit()`, with the key read from local storage as
     * a parameter. Without a key the dialog opens and nothing else changes;
     * with nothing to analyse nothing changes; otherwise the processing step
     * is shown and processing runs, ending at step 4.
     */
    method HandleRequirementsSubmit(storedKey: Option<string>) returns (sent: Option<seq<string>>)
      modifies this
      ensures storedKey.None? || storedKey.value == "" ==>
        && sent == None && isConfigOpen
        && step == old(step) && stepTrace == old(stepTrace) && results == old(results)
        && processingStatus == old(processingStatus) && statusTrace == old(statusTrace)
      ensures storedKey.Some? && storedKey.value != "" && !HasSelection(old(predefined), old(custom)) ==>
        && sent == None && isConfigOpen == old(isConfigOpen)
        && step == old(step) && stepTrace == old(stepTrace) && results == old(results)
        && processingStatus == old(processingStatus) && statusTrace == old(statusTrace)
      ensures storedKey.Some? && storedKey.value != "" && HasSelection(old(predefined), old(custom)) ==>
        && sent == Some(AllRequirements(old(predefined), old(custom))) && sent.value != []
        && isConfigOpen == old(isConfigOpen)
        && step == 4 && stepTrace == old(stepTrace) + [3, 4]
        && results == Some(MockResults(old(predefined), old(custom)))
        && statusTrace == old(statusTrace) + ["transcribing", "analyzing", "summarizing"]
      ensures audioFile == old(audioFile) && predefined == old(predefined) && custom == old(custom)
    {
      if storedKey.None? || storedKey.value == "" {
        isConfigOpen := true;
        return None;
      }
      if !HasSelection(predefined, custom) {
        return None;
      }
      SubmitGuardMeansNonEmpty(predefined, custom);
      step := 3;
      stepTrace := stepTrace + [3];
      var s := ProcessAudio();
      sent := Some(s);
    }

    /** `handleReset()`: back to the upload step with no file, no results and no status; the requirement lists stay. */
    method HandleReset()
      modifies this
      ensures step == 1 && audioFile == None && results == None && processingStatus == ""
      ensures stepTrace == old(stepTrace) + [1] && statusTrace == old(statusTrace) + [""]
      ensures predefined == old(predefined) && custom == old(custom) && isConfigOpen == old(isConfigOpen)
    {
      audioFile := None;
      step := 1;
      stepTrace := stepTrace + [1];
      results := None;
      processingStatus := "";
      statusTrace := statusTrace + [""];
    }
  }
}
