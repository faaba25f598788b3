/** The Streamlit application's own logic: its score helpers, the
    analyser's fence strip and key check, the upload screen's gate, counts
    and truncations, the banner over the results, and the two reports it
    offers for download. */
module AppFlow {
  import opened PyText
  import opened JsonModel
  import opened ResponseCheck
  import ScoreTiers
  import InputChecks
  import ContentStats
  import Reports

  // ---------------------------------------------------------------------
  // Score helpers

  /** `get_score_color`: three bands, from 80, from 60, and below. */
  function GetScoreColor(score: real): (r: string)
    ensures r == "🟢" <==> score >= 80.0
    ensures r == "🟡" <==> 60.0 <= score < 80.0
    ensures r == "🔴" <==> score < 60.0
  {
    if score >= 80.0 then "🟢"
    else if score >= 60.0 then "🟡"
    else "🔴"
  }

  /** `get_score_class`: the same three bands as the colour, and the same
      class as the result display of the utilities. */
  function GetScoreClass(score: real): (r: string)
    ensures r == "score-excellent" <==> GetScoreColor(score) == "🟢"
    ensures r == "score-good" <==> GetScoreColor(score) == "🟡"
    ensures r == "score-poor" <==> GetScoreColor(score) == "🔴"
    ensures r == ScoreTiers.FormatScoreDisplay(score).cssClass
  {
    if score >= 80.0 then "score-excellent"
    else if score >= 60.0 then "score-good"
    else "score-poor"
  }

  /** `get_score_level`: the level of the one tier the score lies in, as
      the utilities' result display names it. The two upper levels make up
      the excellent class, the two middle ones the good class. */
  function GetScoreLevel(score: real): (r: string)
    ensures forall t | ScoreTiers.InTier(score, t) :: r == ScoreTiers.Display(t).level
    ensures r == "Excelente" || r == "Muito Bom" <==> GetScoreClass(score) == "score-excellent"
    ensures r == "Bom" || r == "Regular" <==> GetScoreClass(score) == "score-good"
    ensures r == "Precisa Melhorar" <==> GetScoreClass(score) == "score-poor"
  {
    ScoreTiers.AllTiersUnique(score);
    if score >= 90.0 then "Excelente"
    else if score >= 80.0 then "Muito Bom"
    else if score >= 70.0 then "Bom"
    else if score >= 60.0 then "Regular"
    else "Precisa Melhorar"
  }

  // ---------------------------------------------------------------------
  // The analyser

  /** What the model service gives for the prompt: a reply's text, or the
      text of the exception raised while asking or reading the reply. */
  datatype Reply = Answered(text: string) | Failed(message: string)

  /** What `analyze_cv` returns, with the error messages it shows. */
  datatype Analyzed = Analyzed(analysis: Option<Json>, errors: seq<string>)

  const ServicePrefix := "Erro na análise com Gemini: "

  /** The text of the `ValueError` raised for a missing key. */
  function MissingKeyText(key: string): string {
    "Chave obrigatória '" + key + "' não encontrada na resposta"
  }

  /** `analyze_cv` as a function of the configuration, the service's reply
      and the parser. Any exception other than a decode error, the
      `ValueError` for a missing key included, is shown after the same
      prefix. */
  function AnalyzeOutcome(configured: bool, reply: Reply, decode: string -> Decoded): Analyzed {
    if !configured then Analyzed(None, [])
    else
      match reply
      case Failed(m) => Analyzed(None, [ServicePrefix + m])
      case Answered(text) =>
        var resultText := StripCodeFence(text);
        match decode(resultText)
        case DecodeError(m) =>
          Analyzed(None, ["Erro ao processar resposta da IA: " + m, "Resposta recebida: " + Take(resultText, 500) + "..."])
        case Parsed(data) =>
          match FirstKeyFailure(data, RequiredKeys)
          case None => Analyzed(Some(data), [])
          case Some(Absent(k)) => Analyzed(None, [ServicePrefix + MissingKeyText(k)])
          case Some(TestRaised(x)) => Analyzed(None, [ServicePrefix + ExceptionText(x)])
  }

  /** `analyze_cv` as it runs: the reply text reassigned step by
      step, then the keys tested in order until one is missing. */
  method AnalyzeCv(configured: bool, reply: Reply, decode: string -> Decoded)
    returns (analysis: Option<Json>, errors: seq<string>)
    ensures Analyzed(analysis, errors) == AnalyzeOutcome(configured, reply, decode)
  {
    if !configured {
      return None, [];
    }
    if reply.Failed? {
      return None, [ServicePrefix + reply.message];
    }
    var resultText := CleanFence(reply.text);
    var decoded := decode(resultText);
    if decoded.DecodeError? {
      return None, ["Erro ao processar resposta da IA: " + decoded.message,
                    "Resposta recebida: " + Take(resultText, 500) + "..."];
    }
    var data := decoded.value;
    for i := 0 to |RequiredKeys|
      invariant FirstKeyFailure(data, RequiredKeys) == FirstKeyFailure(data, RequiredKeys[i..])
    {
      assert RequiredKeys[i..][1..] == RequiredKeys[i + 1..];
      var test := PyContains(data, RequiredKeys[i]);
      if test.Raised? {
        return None, [ServicePrefix + ExceptionText(test.exception)];
      }
      if !test.value {
        return None, [ServicePrefix + MissingKeyText(RequiredKeys[i])];
      }
    }
    return Some(data), [];
  }

  /** No key test fails exactly when every key is `in` the value. */
  lemma {:induction false} NoKeyFailureIff(data: Json, keys: seq<string>)
    ensures FirstKeyFailure(data, keys).None? <==> forall i | 0 <= i < |keys| :: PyContains(data, keys[i]) == Ok(true)
    decreases keys
  {
    if keys != [] {
      NoKeyFailureIff(data, keys[1..]);
      assert forall i | 1 <= i < |keys| :: keys[i] == keys[1..][i - 1];
    }
  }

  /** The analyser returns a value exactly when it is configured, the
      service answered, the fence-stripped answer parses and every required
      key is `in` the parsed value; it then returns that value unchanged and
      shows no error. Otherwise, once configured, it shows an error. */
  lemma AnalyzeAcceptsIff(configured: bool, reply: Reply, decode: string -> Decoded)
    ensures var r := AnalyzeOutcome(configured, reply, decode);
      r.analysis.Some? <==>
        && configured && reply.Answered?
        && decode(StripCodeFence(reply.text)).Parsed?
        && forall i | 0 <= i < |RequiredKeys| :: PyContains(decode(StripCodeFence(reply.text)).value, RequiredKeys[i]) == Ok(true)
    ensures var r := AnalyzeOutcome(configured, reply, decode);
      r.analysis.Some? ==> r.analysis == Some(decode(StripCodeFence(reply.text)).value) && r.errors == []
    ensures var r := AnalyzeOutcome(configured, reply, decode);
      configured && r.analysis.None? ==> r.errors != []
  {
    if configured && reply.Answered? && decode(StripCodeFence(reply.text)).Parsed? {
      NoKeyFailureIff(decode(StripCodeFence(reply.text)).value, RequiredKeys);
    }
  }

  /** A dict lacking a required key is refused with a message naming the
      first such key in the fixed order, and only that key. */
  lemma MissingKeyNamed(text: string, decode: string -> Decoded, data: Json, k: string)
    requires decode(StripCodeFence(text)) == Parsed(data) && data.JObject?
    ensures AnalyzeOutcome(true, Answered(text), decode) == Analyzed(None, [ServicePrefix + MissingKeyText(k)]) <==>
      exists i | 0 <= i < |RequiredKeys| ::
        && RequiredKeys[i] == k && !HasKey(data.members, k)
        && forall j | 0 <= j < i :: HasKey(data.members, RequiredKeys[j])
  {
    FirstAbsentKeyIff(data, RequiredKeys, k);
    ObjectKeyTestsNeverRaise(data, RequiredKeys);
    var failure := FirstKeyFailure(data, RequiredKeys);
    if failure.Some? {
      MissingKeyTextInjective(failure.value.key, k);
    }
  }

  /** `key in d` never raises for a dict. */
  lemma {:induction false} ObjectKeyTestsNeverRaise(data: Json, keys: seq<string>)
    requires data.JObject?
    ensures FirstKeyFailure(data, keys).None? || FirstKeyFailure(data, keys).value.Absent?
    decreases keys
  {
    if keys != [] {
      ObjectKeyTestsNeverRaise(data, keys[1..]);
    }
  }

  lemma MissingKeyTextInjective(a: string, b: string)
    ensures ServicePrefix + MissingKeyText(a) == ServicePrefix + MissingKeyText(b) ==> a == b
  {
    var p := ServicePrefix + "Chave obrigatória '";
    var q := "' não encontrada na resposta";
    assert ServicePrefix + MissingKeyText(a) == p + a + q;
    assert ServicePrefix + MissingKeyText(b) == p + b + q;
    if p + a + q == p + b + q {
      assert a == (p + a + q)[|p|..|p| + |a|];
      assert b == (p + b + q)[|p|..|p| + |b|];
    }
  }

  /** Whatever the utilities' response check accepts, the analyser accepts
      too, and returns the same value. */
  lemma CheckedResponseAccepted(text: string, decode: string -> Decoded)
    requires ValidateResponse(text, decode).Valid?
    ensures AnalyzeOutcome(true, Answered(text), decode).analysis == Some(ValidateResponse(text, decode).data)
  {
    var data := decode(StripCodeFence(text)).value;
    ValidateParsedCorrect(data);
    KeysPresentIff(data, RequiredKeys);
  }

  /** The analyser only tests `key in value`, so a list of the seven key
      names passes it, though the response check refuses it. */
  lemma KeyNameListAccepted(text: string, decode: string -> Decoded)
    requires decode(StripCodeFence(text)) == Parsed(JArray(seq(|RequiredKeys|, i requires 0 <= i < |RequiredKeys| => JString(RequiredKeys[i]))))
    ensures AnalyzeOutcome(true, Answered(text), decode).analysis == Some(decode(StripCodeFence(text)).value)
    ensures ValidateResponse(text, decode).Invalid?
  {
    var data := decode(StripCodeFence(text)).value;
    forall k | k in RequiredKeys ensures JString(k) in data.items {
      var i :| 0 <= i < |RequiredKeys| && RequiredKeys[i] == k;
      assert data.items[i] == JString(k);
    }
    AllContainedPass(data, RequiredKeys);
    KeyNameListRejected();
  }

  /** Python truth: `None`, `False`, zero, and empty strings, lists and
      dicts are false. */
  predicate Truthy(j: Json) {
    match j
    case JNull => false
    case JBool(b) => b
    case JInt(i) => i != 0
    case JFloat(v, _) => v != 0.0
    case JString(s) => s != ""
    case JArray(items) => items != []
    case JObject(ms) => ms != []
  }

  /** The notice shown once the analysis returns. */
  function AfterAnalysis(r: Analyzed): (n: Notice)
    ensures n.Success? <==> r.analysis.Some? && Truthy(r.analysis.value)
  {
    if r.analysis.Some? && Truthy(r.analysis.value) then Success("🎉 Análise concluída com sucesso!")
    else Error("❌ Falha na análise. Tente novamente.")
  }

  /** A value the analyser returns holds the key "overallScore", so it is
      never empty: the failure notice follows exactly the refused
      analyses. */
  lemma AcceptedAnalysisSucceeds(configured: bool, reply: Reply, decode: string -> Decoded)
    ensures AfterAnalysis(AnalyzeOutcome(configured, reply, decode)).Success? <==>
      AnalyzeOutcome(configured, reply, decode).analysis.Some?
  {
    var r := AnalyzeOutcome(configured, reply, decode);
    if r.analysis.Some? {
      AnalyzeAcceptsIff(configured, reply, decode);
      var data := r.analysis.value;
      assert RequiredKeys[0] == "overallScore";
      assert PyContains(data, "overallScore") == Ok(true);
      if data.JString? {
        var k :| 0 <= k <= |data.s| - |"overallScore"| && OccursAt("overallScore", data.s, k);
      }
    }
  }

  // ---------------------------------------------------------------------
  // The upload screen

  /** The kinds of message Streamlit shows. */
  datatype Notice = Success(text: string) | Info(text: string) | Warning(text: string) | Error(text: string)

  const PreviewLimit: nat := 1500
  const NameLimit: nat := 20

  /** `s[:limit] + "..." if len(s) > limit else s`. */
  function Truncated(s: string, limit: nat): (r: string)
    ensures |s| <= limit ==> r == s
    ensures |s| > limit ==> |r| == limit + 3 && r[..limit] == s[..limit] && EndsWith(r, "...")
  {
    if |s| > limit then s[..limit] + "..." else s
  }

  /** Truncating again changes nothing: a truncated text is cut at the same
      place and ends in the same marker. */
  lemma TruncatedIdempotent(s: string, limit: nat)
    ensures Truncated(Truncated(s, limit), limit) == Truncated(s, limit)
  {
    if |s| > limit {
      var r := Truncated(s, limit);
      assert r == r[..limit] + r[limit..];
      assert r[limit..] == "...";
    }
  }

  /** `content and len(content.strip()) > 50`. */
  predicate OffersAnalysis(content: string) {
    content != "" && |Strip(content)| > 50
  }

  /** `max(10, word_count // 100)`: about 100 words a second, never less
      than ten seconds. */
  function EstimatedSeconds(words: nat): (t: nat)
    ensures t >= 10
    ensures t == 10 <==> words < 1100
    ensures t > 10 ==> 100 * t <= words < 100 * (t + 1)
  {
    if words / 100 > 10 then words / 100 else 10
  }

  /** What the content panel shows under the file card. */
  datatype ContentPanel =
    | Ready(words: nat, characters: nat, estimatedSeconds: nat, preview: string, previewCut: bool)
    | Refused(notice: Notice)

  datatype UploadScreen =
    | TooLarge(notice: Notice)
    | Shown(name: string, format: string, panel: ContentPanel)

  const TooShortWarning := "⚠️ Conteúdo muito curto para análise. Mínimo: 50 caracteres."
  const UnreadableError := "❌ Não foi possível extrair texto do arquivo. Verifique se o arquivo não está corrompido."

  /** The upload screen for `file` whose extracted text is `content`. */
  function UploadScreenOf(file: InputChecks.UploadedFile, content: string): (r: UploadScreen)
    ensures r.TooLarge? <==> file.size > InputChecks.MaxFileSize
    ensures r.Shown? ==> r.name == Truncated(file.name, NameLimit)
    ensures r.Shown? ==> (r.format == "PDF" <==> file.mimeType == "application/pdf")
    ensures r.Shown? ==> (r.panel.Ready? <==> OffersAnalysis(content))
    ensures r.Shown? && r.panel.Ready? ==>
      && r.panel.words == |ContentStats.Words(content)| && r.panel.characters == |content|
      && r.panel.estimatedSeconds == EstimatedSeconds(r.panel.words)
      && r.panel.preview == Truncated(content, PreviewLimit)
      && (r.panel.previewCut <==> |content| > PreviewLimit)
    ensures r.Shown? && r.panel.Refused? ==>
      r.panel.notice == if content == "" then Error(UnreadableError) else Warning(TooShortWarning)
  {
    if file.size > InputChecks.MaxFileSize then TooLarge(Error("❌ Arquivo muito grande! Máximo permitido: 10MB"))
    else
      var name := Truncated(file.name, NameLimit);
      var format := if file.mimeType == "application/pdf" then "PDF" else "TXT";
      if OffersAnalysis(content) then
        var words := |ContentStats.Words(content)|;
        Shown(name, format, Ready(words, |content|, EstimatedSeconds(words), Truncated(content, PreviewLimit), |content| > PreviewLimit))
      else if content != "" then Shown(name, format, Refused(Warning(TooShortWarning)))
      else Shown(name, format, Refused(Error(UnreadableError)))
  }

  /** Text the gate lets through also clears the minimum of the content
      check in the utilities. */
  lemma GatePassesContentMinimum(content: string)
    requires OffersAnalysis(content)
    ensures InputChecks.ValidateContent(content) != Some(InputChecks.Empty)
    ensures InputChecks.ValidateContent(content) != Some(InputChecks.TooShort)
  {
    StripEmptyIffAllSpace(content);
  }

  /** The gate is strict where the content check is not: fifty letters clear
      the content check, but the screen refuses them with a warning that
      says fifty characters are enough. */
  lemma FiftyCharactersRefused()
    ensures InputChecks.ValidateContent(Repeat('a', 50)).None?
    ensures UploadScreenOf(InputChecks.UploadedFile("cv.txt", "text/plain", 50), Repeat('a', 50)) ==
      Shown("cv.txt", "TXT", Refused(Warning(TooShortWarning)))
  {
    InputChecks.LetterRunVerdict(50);
    StrippedIsFixedPoint(Repeat('a', 50));
  }

  // ---------------------------------------------------------------------
  // The results

  /** The banner over the results: the same three bands as the score
      class. */
  function ContextBanner(score: real): (n: Notice)
    ensures n.Success? <==> GetScoreClass(score) == "score-excellent"
    ensures n.Info? <==> GetScoreClass(score) == "score-good"
    ensures n.Warning? <==> GetScoreClass(score) == "score-poor"
  {
    if score >= 80.0 then Success("🎉 Parabéns! Seu currículo está em excelente estado.")
    else if score >= 60.0 then Info("👍 Bom currículo! Algumas melhorias podem torná-lo ainda melhor.")
    else Warning("⚠️ Seu currículo precisa de algumas melhorias importantes.")
  }

  const StrongRemark := "Parabéns! Seu currículo está muito bem estruturado. Continue refinando os detalhes para mantê-lo sempre atualizado."
  const SolidRemark := "Seu currículo tem uma boa base. Implemente as sugestões apresentadas para melhorar sua competitividade no mercado."
  const FocusRemark := "Recomendamos focar nas melhorias sugeridas, especialmente nas áreas com menor pontuação. Um currículo bem otimizado pode fazer toda a diferença no processo seletivo."

  /** The closing remark of the in-app report: three bands, the same as the
      score class. */
  function ClosingRemark(score: real): (r: string)
    ensures r == StrongRemark <==> GetScoreClass(score) == "score-excellent"
    ensures r == SolidRemark <==> GetScoreClass(score) == "score-good"
    ensures r == FocusRemark <==> GetScoreClass(score) == "score-poor"
  {
    if score >= 80.0 then StrongRemark
    else if score >= 60.0 then SolidRemark
    else FocusRemark
  }

  /** The wording of the in-app detailed report: the layout of the
      downloadable report of the utilities with shorter rules and its own
      headings and closing. */
  const InApp := Reports.DetailedWording(
    Repeat('=', 60),
    Repeat('-', 40),
    "\nRELATÓRIO DE ANÁLISE DE CURRÍCULO - SmartCV\n",
    "\n\n📄 INFORMAÇÕES GERAIS\nData da Análise: ",
    "\nArquivo Analisado: ",
    "\nPowered by: Google Gemini AI\n\n🎯 AVALIAÇÃO GERAL\nNota Final: ",
    ")\n\nResumo Executivo:\n",
    "\n📊 ANÁLISE DETALHADA POR CRITÉRIO\n",
    "\n\n📝 CLAREZA E COESÃO: ",
    "\n\n🏗️ ESTRUTURA E ORGANIZAÇÃO: ",
    "\n\n💡 Sugestões de Melhoria:\n",
    "\n\n🔑 PALAVRAS-CHAVE E RELEVÂNCIA: ",
    "\n\n✅ Palavras-chave Identificadas:\n",
    Reports.NoKeywordsFound,
    "\n\n❌ Palavras-chave Ausentes (Recomendadas):\n",
    Reports.NoKeywordsMissing,
    "\n\n💡 Recomendações:\n",
    "\n⭐ PONTOS FORTES IDENTIFICADOS\n",
    "\n🔧 OPORTUNIDADES DE MELHORIA\n",
    "\n📈 RECOMENDAÇÕES FINAIS\n",
    "\n\nCom base na análise realizada pelo Google Gemini, seu currículo recebeu a nota ",
    [ "",
      "",
      "Lembre-se:",
      "• Mantenha seu currículo sempre atualizado",
      "• Adapte-o para cada vaga específica",
      "• Use palavras-chave relevantes para sua área",
      "• Mantenha a formatação limpa e profissional",
      "• Destaque suas conquistas com dados quantitativos",
      "",
      "---",
      "Relatório gerado automaticamente pelo SmartCV",
      "Analisador de Currículos com Inteligência Artificial",
      "Powered by Google Gemini | Desenvolvido com Streamlit",
      "",
      "Para mais análises, visite: https://smartcv.streamlit.app",
      "            " ])

  function InAppSection(s: Reports.Section): Reports.SectionFill
    requires IsPyNumber(s.score)
  {
    Reports.SectionFill(Display(s.score), GetScoreLevel(NumericValue(s.score)), Display(s.feedback), Reports.Texts(s.suggestions))
  }

  /** The values of the in-app report: the file name as stored, levels from
      `get_score_level`, and the three-band closing remark. */
  function InAppFill(a: Reports.Analysis, filename: string, timestamp: string): (v: Reports.ReportFill)
    requires Reports.HasNumericScores(a)
    ensures v.fileLabel == filename && v.recommendation == ClosingRemark(NumericValue(a.overallScore))
    ensures v.strengths == Reports.Texts(a.strengths) && v.improvements == Reports.Texts(a.improvements)
    ensures v.keywords.present == Reports.Texts(a.keywords.present)
    ensures v.keywords.missing == Reports.Texts(a.keywords.missing)
    ensures v.clarity.suggestions == Reports.Texts(a.clarity.suggestions)
    ensures v.structure.suggestions == Reports.Texts(a.structure.suggestions)
    ensures v.keywords.suggestions == Reports.Texts(a.keywords.suggestions)
    ensures v.overall == Display(a.overallScore) && v.overallLevel == GetScoreLevel(NumericValue(a.overallScore))
    ensures v.summary == Display(a.summary) && v.timestamp == timestamp
    ensures v.clarity.score == Display(a.clarity.score) && v.clarity.level == GetScoreLevel(NumericValue(a.clarity.score))
    ensures v.structure.score == Display(a.structure.score)
    ensures v.structure.level == GetScoreLevel(NumericValue(a.structure.score))
    ensures v.keywords.score == Display(a.keywords.score) && v.keywords.level == GetScoreLevel(NumericValue(a.keywords.score))
    ensures v.clarity.feedback == Display(a.clarity.feedback) && v.structure.feedback == Display(a.structure.feedback)
  {
    Reports.ReportFill(
      timestamp, filename, Display(a.overallScore), GetScoreLevel(NumericValue(a.overallScore)), Display(a.summary),
      InAppSection(a.clarity), InAppSection(a.structure),
      Reports.KeywordsFill(
        Display(a.keywords.score), GetScoreLevel(NumericValue(a.keywords.score)),
        Reports.Texts(a.keywords.present), Reports.Texts(a.keywords.missing), Reports.Texts(a.keywords.suggestions)),
      Reports.Texts(a.strengths), Reports.Texts(a.improvements),
      ClosingRemark(NumericValue(a.overallScore)))
  }

  /** The in-app report substitutes the same values as the downloadable
      one, apart from the file name, which has no default, and the
      closing. */
  lemma InAppFillMatchesDownload(a: Reports.Analysis, filename: string, timestamp: string)
    requires Reports.HasNumericScores(a)
    ensures InAppFill(a, filename, timestamp) ==
      Reports.FillOf(a, filename, timestamp).(fileLabel := filename, recommendation := ClosingRemark(NumericValue(a.overallScore)))
  {
    Reports.LevelIsFormatted(a.overallScore);
  }

  /** The in-app detailed report at the moment `timestamp`. */
  function InAppReport(a: Reports.Analysis, filename: string, timestamp: string): string
    requires Reports.HasNumericScores(a)
  {
    Reports.DetailedText(InApp, InAppFill(a, filename, timestamp))
  }

  /** The in-app report names the file as stored. */
  lemma InAppReportNamesFile(a: Reports.Analysis, filename: string, timestamp: string)
    requires Reports.HasNumericScores(a)
    ensures IsSubstring("\nArquivo Analisado: " + filename, InAppReport(a, filename, timestamp))
  {
    Reports.DetailedTextNamesFile(InApp, InAppFill(a, filename, timestamp));
  }

  /** Every strength and every improvement has its own line. */
  lemma InAppReportLists(a: Reports.Analysis, filename: string, timestamp: string)
    requires Reports.HasNumericScores(a)
    ensures forall i | 0 <= i < |a.strengths| ::
      IsSubstring("✅ " + Display(a.strengths[i]), InAppReport(a, filename, timestamp))
    ensures forall i | 0 <= i < |a.improvements| ::
      IsSubstring("🔧 " + Display(a.improvements[i]), InAppReport(a, filename, timestamp))
  {
    var v := InAppFill(a, filename, timestamp);
    Reports.DetailedTextLists(InApp, v);
    forall i | 0 <= i < |a.strengths|
      ensures IsSubstring("✅ " + Display(a.strengths[i]), InAppReport(a, filename, timestamp))
    {
      assert v.strengths[i] == Display(a.strengths[i]);
    }
    forall i | 0 <= i < |a.improvements|
      ensures IsSubstring("🔧 " + Display(a.improvements[i]), InAppReport(a, filename, timestamp))
    {
      assert v.improvements[i] == Display(a.improvements[i]);
    }
  }

  /** Every suggestion of the three sections has its bullet line. */
  lemma InAppReportSuggestions(a: Reports.Analysis, filename: string, timestamp: string)
    requires Reports.HasNumericScores(a)
    ensures forall i | 0 <= i < |a.clarity.suggestions| ::
      IsSubstring(Reports.Bullet + Display(a.clarity.suggestions[i]), InAppReport(a, filename, timestamp))
    ensures forall i | 0 <= i < |a.structure.suggestions| ::
      IsSubstring(Reports.Bullet + Display(a.structure.suggestions[i]), InAppReport(a, filename, timestamp))
    ensures forall i | 0 <= i < |a.keywords.suggestions| ::
      IsSubstring(Reports.Bullet + Display(a.keywords.suggestions[i]), InAppReport(a, filename, timestamp))
  {
    var v := InAppFill(a, filename, timestamp);
    Reports.DetailedTextSuggestions(InApp, v);
    forall i | 0 <= i < |a.clarity.suggestions|
      ensures IsSubstring(Reports.Bullet + Display(a.clarity.suggestions[i]), InAppReport(a, filename, timestamp))
    {
      assert v.clarity.suggestions[i] == Display(a.clarity.suggestions[i]);
    }
    forall i | 0 <= i < |a.structure.suggestions|
      ensures IsSubstring(Reports.Bullet + Display(a.structure.suggestions[i]), InAppReport(a, filename, timestamp))
    {
      assert v.structure.suggestions[i] == Display(a.structure.suggestions[i]);
    }
    forall i | 0 <= i < |a.keywords.suggestions|
      ensures IsSubstring(Reports.Bullet + Display(a.keywords.suggestions[i]), InAppReport(a, filename, timestamp))
    {
      assert v.keywords.suggestions[i] == Display(a.keywords.suggestions[i]);
    }
  }

  /** Every keyword found or missing is listed, and an empty keyword list
      shows its placeholder. */
  lemma InAppReportKeywords(a: Reports.Analysis, filename: string, timestamp: string)
    requires Reports.HasNumericScores(a)
    ensures forall i | 0 <= i < |a.keywords.present| ::
      IsSubstring(Reports.Bullet + Display(a.keywords.present[i]), InAppReport(a, filename, timestamp))
    ensures forall i | 0 <= i < |a.keywords.missing| ::
      IsSubstring(Reports.Bullet + Display(a.keywords.missing[i]), InAppReport(a, filename, timestamp))
    ensures a.keywords.present == [] ==> IsSubstring(Reports.NoKeywordsFound, InAppReport(a, filename, timestamp))
    ensures a.keywords.missing == [] ==> IsSubstring(Reports.NoKeywordsMissing, InAppReport(a, filename, timestamp))
  {
    var v := InAppFill(a, filename, timestamp);
    Reports.DetailedTextKeywords(InApp, v);
    forall i | 0 <= i < |a.keywords.present|
      ensures IsSubstring(Reports.Bullet + Display(a.keywords.present[i]), InAppReport(a, filename, timestamp))
    {
      assert v.keywords.present[i] == Display(a.keywords.present[i]);
    }
    forall i | 0 <= i < |a.keywords.missing|
      ensures IsSubstring(Reports.Bullet + Display(a.keywords.missing[i]), InAppReport(a, filename, timestamp))
    {
      assert v.keywords.missing[i] == Display(a.keywords.missing[i]);
    }
  }

  /** The report closes with the remark of the overall score's band. */
  lemma InAppReportCloses(a: Reports.Analysis, filename: string, timestamp: string)
    requires Reports.HasNumericScores(a)
    ensures IsSubstring(ClosingRemark(NumericValue(a.overallScore)), InAppReport(a, filename, timestamp))
  {
    Reports.DetailedTextRecommends(InApp, InAppFill(a, filename, timestamp));
  }

  const InAppImprovements: nat := 3

  function InAppSummaryParts(a: Reports.Analysis, filename: string, date: string): seq<string> {
    [ "\nSMARTCV - RELATÓRIO RESUMIDO\nData: ", date, "\nArquivo: ", filename,
      "\n\nNOTA GERAL: ", Display(a.overallScore),
      "/100\n\nPONTUAÇÕES:\n• Clareza: ", Display(a.clarity.score),
      "/100\n• Estrutura: ", Display(a.structure.score),
      "/100  \n• Palavras-chave: ", Display(a.keywords.score),
      "/100\n\nPRINCIPAIS MELHORIAS:\n",
      Reports.BulletList("• ", Take(Reports.Texts(a.improvements), InAppImprovements)),
      "\n\nPowered by Google Gemini\n                " ]
  }

  /** The in-app summary for the day `date`. */
  function InAppSummary(a: Reports.Analysis, filename: string, date: string): string {
    Concat(InAppSummaryParts(a, filename, date))
  }

  /** The in-app summary names the file and lists the first three
      improvements. */
  lemma InAppSummaryShows(a: Reports.Analysis, filename: string, date: string)
    ensures IsSubstring("\nArquivo: " + filename, InAppSummary(a, filename, date))
    ensures forall i | 0 <= i < |a.improvements| && i < InAppImprovements ::
      IsSubstring("• " + Display(a.improvements[i]), InAppSummary(a, filename, date))
  {
    var parts := InAppSummaryParts(a, filename, date);
    AdjacentParts(parts, 2);
    forall i | 0 <= i < |a.improvements| && i < InAppImprovements
      ensures IsSubstring("• " + Display(a.improvements[i]), InAppSummary(a, filename, date))
    {
      var shown := Take(Reports.Texts(a.improvements), InAppImprovements);
      assert shown[i] == Display(a.improvements[i]);
      Reports.BulletListHasLine("• ", shown, i);
      SubstringOfPart("• " + Display(a.improvements[i]), parts, 13);
    }
  }

  /** The in-app summary depends on the four scores and the first three
      improvements only: strengths, feedback, keywords and later
      improvements never reach it. */
  lemma InAppSummaryDependsOn(a: Reports.Analysis, b: Reports.Analysis, filename: string, date: string)
    requires a.overallScore == b.overallScore && a.clarity.score == b.clarity.score
    requires a.structure.score == b.structure.score && a.keywords.score == b.keywords.score
    requires Take(a.improvements, InAppImprovements) == Take(b.improvements, InAppImprovements)
    ensures InAppSummary(a, filename, date) == InAppSummary(b, filename, date)
  {
    Reports.TakeOfTexts(a.improvements, b.improvements, InAppImprovements);
    assert InAppSummaryParts(a, filename, date) == InAppSummaryParts(b, filename, date);
  }
}
