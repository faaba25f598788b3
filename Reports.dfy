/** The downloadable text reports built from a checked analysis: the
    detailed report and the summary. Every value is substituted as Python's
    `str()` writes it, so a score shows as `85` or `85.5`, a list item as the
    text it holds. */
module Reports {
  import opened PyText
  import opened JsonModel
  import opened ResponseCheck
  import ScoreTiers

  // ---------------------------------------------------------------------
  // The analysis as the reports read it

  datatype Section = Section(score: Json, feedback: Json, suggestions: seq<Json>)

  datatype KeywordsSection = KeywordsSection(score: Json, missing: seq<Json>, present: seq<Json>, suggestions: seq<Json>)

  datatype Analysis = Analysis(
    overallScore: Json,
    clarity: Section,
    structure: Section,
    keywords: KeywordsSection,
    improvements: seq<Json>,
    strengths: seq<Json>,
    summary: Json)

  /** The four scores are numbers, so they can be compared with the tier
      bounds. */
  predicate HasNumericScores(a: Analysis) {
    && IsPyNumber(a.overallScore) && IsPyNumber(a.clarity.score)
    && IsPyNumber(a.structure.score) && IsPyNumber(a.keywords.score)
  }

  function Value(data: Json, f: Field): Json
    requires Get(data, f).Some?
  {
    Get(data, f).value
  }

  function Items(data: Json, f: Field): seq<Json>
    requires Get(data, f).Some? && Get(data, f).value.JArray?
  {
    Get(data, f).value.items
  }

  /** The four scores of a value that passed the response check are
      numbers from 0 to 100. */
  lemma ScoresOfWellFormed(data: Json)
    requires WellFormed(data)
    ensures Get(data, Top("overallScore")).Some? && InScoreRange(Get(data, Top("overallScore")).value)
    ensures Get(data, Nested("clarity", "score")).Some? && InScoreRange(Get(data, Nested("clarity", "score")).value)
    ensures Get(data, Nested("structure", "score")).Some? && InScoreRange(Get(data, Nested("structure", "score")).value)
    ensures Get(data, Nested("keywords", "score")).Some? && InScoreRange(Get(data, Nested("keywords", "score")).value)
  {
    assert ScoreFields[0] in ScoreFields && ScoreFields[1] in ScoreFields;
    assert ScoreFields[2] in ScoreFields && ScoreFields[3] in ScoreFields;
  }

  /** Its seven lists are lists. */
  lemma ListsOfWellFormed(data: Json)
    requires WellFormed(data)
    ensures forall f | f in ArrayFields :: Get(data, f).Some? && Get(data, f).value.JArray?
    ensures Top("improvements") in ArrayFields && Top("strengths") in ArrayFields
    ensures Nested("clarity", "suggestions") in ArrayFields && Nested("structure", "suggestions") in ArrayFields
    ensures Nested("keywords", "suggestions") in ArrayFields
    ensures Nested("keywords", "missing") in ArrayFields && Nested("keywords", "present") in ArrayFields
  {
    assert ArrayFields[0] in ArrayFields && ArrayFields[1] in ArrayFields;
    assert ArrayFields[2] in ArrayFields && ArrayFields[3] in ArrayFields;
    assert ArrayFields[4] in ArrayFields && ArrayFields[5] in ArrayFields && ArrayFields[6] in ArrayFields;
  }

  /** Its summary and both feedback texts exist. */
  lemma TextsOfWellFormed(data: Json)
    requires WellFormed(data)
    ensures Get(data, Nested("clarity", "feedback")).Some? && Get(data, Nested("structure", "feedback")).Some?
    ensures Get(data, Top("summary")).Some?
  {
    assert ObjectSections[0] in ObjectSections && ObjectSections[1] in ObjectSections;
    assert SectionKeys[1] in SectionKeys;
    assert RequiredKeys[6] in RequiredKeys;
  }

  /** The fields of a value that passed the response check. Its scores are
      numbers from 0 to 100, and `summary` and the feedback texts exist. */
  function AnalysisOf(data: Json): (a: Analysis)
    requires WellFormed(data)
    ensures HasNumericScores(a)
    ensures InScoreRange(a.overallScore) && InScoreRange(a.clarity.score)
    ensures InScoreRange(a.structure.score) && InScoreRange(a.keywords.score)
  {
    ScoresOfWellFormed(data);
    ListsOfWellFormed(data);
    TextsOfWellFormed(data);
    Analysis(
      Value(data, Top("overallScore")),
      Section(
        Value(data, Nested("clarity", "score")),
        Value(data, Nested("clarity", "feedback")),
        Items(data, Nested("clarity", "suggestions"))),
      Section(
        Value(data, Nested("structure", "score")),
        Value(data, Nested("structure", "feedback")),
        Items(data, Nested("structure", "suggestions"))),
      KeywordsSection(
        Value(data, Nested("keywords", "score")),
        Items(data, Nested("keywords", "missing")),
        Items(data, Nested("keywords", "present")),
        Items(data, Nested("keywords", "suggestions"))),
      Items(data, Top("improvements")),
      Items(data, Top("strengths")),
      Value(data, Top("summary")))
  }

  // ---------------------------------------------------------------------
  // Values as the reports write them

  /** `format_score_display(score)['level']`: the level of the score's
      tier. */
  function Level(score: Json): string
    requires IsPyNumber(score)
  {
    ScoreTiers.Display(ScoreTiers.TierOf(NumericValue(score))).level
  }

  lemma LevelIsFormatted(score: Json)
    requires IsPyNumber(score)
    ensures Level(score) == ScoreTiers.FormatScoreDisplay(NumericValue(score)).level
  {
  }

  /** `get_final_recommendation(score)`: the recommendation of the score's
      tier. */
  function Recommendation(score: Json): string
    requires IsPyNumber(score)
  {
    ScoreTiers.Recommendation(ScoreTiers.TierOf(NumericValue(score)))
  }

  lemma RecommendationIsFinal(score: Json)
    requires IsPyNumber(score)
    ensures Recommendation(score) == ScoreTiers.GetFinalRecommendation(NumericValue(score))
  {
  }

  /** `filename or 'Não especificado'`. */
  function FileLabel(filename: string): (r: string)
    ensures filename == "" ==> r == "Não especificado"
    ensures filename != "" ==> r == filename
  {
    if filename == "" then "Não especificado" else filename
  }

  /** `str()` of each item. */
  function Texts(items: seq<Json>): (r: seq<string>)
    ensures |r| == |items|
    ensures forall i | 0 <= i < |items| :: r[i] == Display(items[i])
  {
    seq(|items|, i requires 0 <= i < |items| => Display(items[i]))
  }

  /** The values one section of a report substitutes. */
  datatype SectionFill = SectionFill(score: string, level: string, feedback: string, suggestions: seq<string>)

  datatype KeywordsFill = KeywordsFill(score: string, level: string, present: seq<string>, missing: seq<string>, suggestions: seq<string>)

  /** Everything a report substitutes into its fixed wording. */
  datatype ReportFill = ReportFill(
    timestamp: string,
    fileLabel: string,
    overall: string,
    overallLevel: string,
    summary: string,
    clarity: SectionFill,
    structure: SectionFill,
    keywords: KeywordsFill,
    strengths: seq<string>,
    improvements: seq<string>,
    recommendation: string)

  function SectionFillOf(s: Section): SectionFill
    requires IsPyNumber(s.score)
  {
    SectionFill(Display(s.score), Level(s.score), Display(s.feedback), Texts(s.suggestions))
  }

  /** The values of `analysis` written as the f-strings write them. */
  function FillOf(a: Analysis, filename: string, timestamp: string): (v: ReportFill)
    requires HasNumericScores(a)
    ensures v.fileLabel == FileLabel(filename)
    ensures v.strengths == Texts(a.strengths) && v.improvements == Texts(a.improvements)
    ensures v.keywords.present == Texts(a.keywords.present) && v.keywords.missing == Texts(a.keywords.missing)
    ensures v.recommendation == Recommendation(a.overallScore)
    ensures v.overall == Display(a.overallScore) && v.overallLevel == Level(a.overallScore)
    ensures v.summary == Display(a.summary) && v.timestamp == timestamp
    ensures v.clarity.suggestions == Texts(a.clarity.suggestions)
    ensures v.structure.suggestions == Texts(a.structure.suggestions)
    ensures v.keywords.suggestions == Texts(a.keywords.suggestions)
    ensures v.clarity.score == Display(a.clarity.score) && v.clarity.level == Level(a.clarity.score)
    ensures v.structure.score == Display(a.structure.score) && v.structure.level == Level(a.structure.score)
    ensures v.keywords.score == Display(a.keywords.score) && v.keywords.level == Level(a.keywords.score)
    ensures v.clarity.feedback == Display(a.clarity.feedback) && v.structure.feedback == Display(a.structure.feedback)
  {
    ReportFill(
      timestamp, FileLabel(filename), Display(a.overallScore), Level(a.overallScore), Display(a.summary),
      SectionFillOf(a.clarity), SectionFillOf(a.structure),
      KeywordsFill(
        Display(a.keywords.score), Level(a.keywords.score),
        Texts(a.keywords.present), Texts(a.keywords.missing), Texts(a.keywords.suggestions)),
      Texts(a.strengths), Texts(a.improvements),
      Recommendation(a.overallScore))
  }

  // ---------------------------------------------------------------------
  // Bullet lists

  /** `chr(10).join([f"{prefix}{s}" for s in lines])`. */
  function BulletList(prefix: string, lines: seq<string>): string {
    Join(seq(|lines|, i requires 0 <= i < |lines| => prefix + lines[i]), "\n")
  }

  /** The bullet list, or `fallback` for an empty list (an empty list is
      false in Python). */
  function BulletListOr(prefix: string, lines: seq<string>, fallback: string): string {
    if lines == [] then fallback else BulletList(prefix, lines)
  }

  /** Every line has its bullet in the list. */
  lemma BulletListHasLine(prefix: string, lines: seq<string>, i: nat)
    requires i < |lines|
    ensures IsSubstring(prefix + lines[i], BulletList(prefix, lines))
  {
    PartOfJoin(seq(|lines|, i requires 0 <= i < |lines| => prefix + lines[i]), "\n", i);
  }

  /** The list or its fallback: the fallback when there is nothing to list,
      and otherwise every line. */
  lemma BulletListOrShows(prefix: string, lines: seq<string>, fallback: string)
    ensures lines == [] ==> BulletListOr(prefix, lines, fallback) == fallback
    ensures forall i | 0 <= i < |lines| :: IsSubstring(prefix + lines[i], BulletListOr(prefix, lines, fallback))
  {
    forall i | 0 <= i < |lines|
      ensures IsSubstring(prefix + lines[i], BulletListOr(prefix, lines, fallback))
    {
      BulletListHasLine(prefix, lines, i);
    }
  }

  const Bullet := "   • "
  const NoKeywordsFound := "   • Nenhuma palavra-chave relevante identificada"
  const NoKeywordsMissing := "   • Todas as palavras-chave importantes estão presentes"

  // ---------------------------------------------------------------------
  // The detailed report

  /** The fixed wording of the detailed report, between the substituted
      values. */
  datatype DetailedWording = DetailedWording(
    rule: string, dash: string, title: string, info: string, fileHead: string, scoreHead: string, summaryHead: string,
    criteriaBanner: string, clarityTitle: string, structureTitle: string, suggestionsHead: string,
    keywordsTitle: string, presentHead: string, noneFound: string, missingHead: string, noneMissing: string,
    keywordSuggestionsHead: string, strengthsBanner: string, improvementsBanner: string,
    closingBanner: string, closingLead: string, adviceLines: seq<string>)

  const Detailed := DetailedWording(
    Repeat('=', 65),
    Repeat('-', 45),
    "\nRELATÓRIO DETALHADO DE ANÁLISE DE CURRÍCULO - SmartCV\n",
    "\n\n📄 INFORMAÇÕES DA ANÁLISE\nData: ",
    "\nArquivo: ",
    "\nModelo de IA: Google Gemini 1.5 Flash\nVersão do SmartCV: 2.0\n\n🎯 AVALIAÇÃO GERAL\nNota Final: ",
    ")\n\nResumo Executivo:\n",
    "\n📊 ANÁLISE DETALHADA POR CRITÉRIO\n",
    "\n\n📝 CLAREZA E COESÃO\nPontuação: ",
    "\n\n🏗️ ESTRUTURA E ORGANIZAÇÃO\nPontuação: ",
    "\n\n💡 Sugestões de Melhoria:\n",
    "\n\n🔑 PALAVRAS-CHAVE E RELEVÂNCIA\nPontuação: ",
    "\n\n✅ Palavras-chave Identificadas:\n",
    NoKeywordsFound,
    "\n\n❌ Palavras-chave Ausentes (Sugeridas):\n",
    NoKeywordsMissing,
    "\n\n💡 Recomendações:\n",
    "\n⭐ PONTOS FORTES IDENTIFICADOS\n",
    "\n🔧 OPORTUNIDADES DE MELHORIA\n",
    "\n📈 RECOMENDAÇÕES FINAIS\n",
    "\n\nCom base na análise realizada, seu currículo recebeu a nota ",
    [ "",
      "",
      "PRÓXIMOS PASSOS RECOMENDADOS:",
      "1. Implemente as sugestões de maior impacto primeiro",
      "2. Revise a formatação e estrutura geral",
      "3. Adicione palavras-chave relevantes para sua área",
      "4. Quantifique suas conquistas com números e resultados",
      "5. Adapte o currículo para cada vaga específica",
      "",
      "DICAS EXTRAS:",
      "• Mantenha o currículo sempre atualizado",
      "• Use verbos de ação no início das descrições",
      "• Destaque resultados mensuráveis",
      "• Mantenha consistência na formatação",
      "• Revise ortografia e gramática cuidadosamente",
      "",
      "---",
      "Relatório gerado automaticamente pelo SmartCV",
      "Analisador de Currículos com Inteligência Artificial",
      "Powered by Google Gemini | Desenvolvido com Streamlit",
      "",
      "© 2024 SmartCV - Todos os direitos reservados",
      "Para mais análises: https://smartcv.streamlit.app",
      "        " ])

  function HeaderParts(w: DetailedWording, v: ReportFill): seq<string> {
    [ w.title, w.rule, w.info, v.timestamp, w.fileHead, v.fileLabel, w.scoreHead,
      v.overall, "/100 (", v.overallLevel, w.summaryHead, v.summary,
      "\n\n", w.rule, w.criteriaBanner, w.rule ]
  }

  function SectionParts(title: string, w: DetailedWording, s: SectionFill): seq<string> {
    [ title, s.score, "/100 (", s.level, ")\n", w.dash, "\n", s.feedback,
      w.suggestionsHead, BulletList(Bullet, s.suggestions) ]
  }

  function KeywordsParts(w: DetailedWording, k: KeywordsFill): seq<string> {
    [ w.keywordsTitle, k.score, "/100 (", k.level, ")\n", w.dash,
      w.presentHead, BulletListOr(Bullet, k.present, w.noneFound),
      w.missingHead, BulletListOr(Bullet, k.missing, w.noneMissing),
      w.keywordSuggestionsHead, BulletList(Bullet, k.suggestions) ]
  }

  /** A banner between two rules, then the list. */
  function ListParts(w: DetailedWording, banner: string, prefix: string, lines: seq<string>): seq<string> {
    ["\n\n", w.rule, banner, w.rule, "\n", BulletList(prefix, lines)]
  }

  function ClosingParts(w: DetailedWording, v: ReportFill): seq<string> {
    [ "\n\n", w.rule, w.closingBanner, w.rule, w.closingLead, v.overall, "/100.\n\n",
      v.recommendation, Join(w.adviceLines, "\n") ]
  }

  function DetailedBlocks(w: DetailedWording, v: ReportFill): seq<string> {
    [ Concat(HeaderParts(w, v)),
      Concat(SectionParts(w.clarityTitle, w, v.clarity)),
      Concat(SectionParts(w.structureTitle, w, v.structure)),
      Concat(KeywordsParts(w, v.keywords)),
      Concat(ListParts(w, w.strengthsBanner, "✅ ", v.strengths)),
      Concat(ListParts(w, w.improvementsBanner, "🔧 ", v.improvements)),
      Concat(ClosingParts(w, v)) ]
  }

  /** The detailed report's layout with wording `w` and values `v`. */
  function DetailedText(w: DetailedWording, v: ReportFill): string {
    Concat(DetailedBlocks(w, v))
  }

  /** `generate_report_text(analysis, filename, detailed=True)` at the
      moment `timestamp`. */
  function DetailedReport(a: Analysis, filename: string, timestamp: string): string
    requires HasNumericScores(a)
  {
    DetailedText(Detailed, FillOf(a, filename, timestamp))
  }

  /** `t` occurs in part `j` of block `i`. */
  lemma InDetailedText(t: string, w: DetailedWording, v: ReportFill, i: nat, parts: seq<string>, j: nat)
    requires i < 7 && Concat(parts) == DetailedBlocks(w, v)[i]
    requires j < |parts| && IsSubstring(t, parts[j])
    ensures IsSubstring(t, DetailedText(w, v))
  {
    SubstringOfPart(t, parts, j);
    SubstringOfPart(t, DetailedBlocks(w, v), i);
  }

  /** The layout shows the file label right after its heading. */
  lemma DetailedTextNamesFile(w: DetailedWording, v: ReportFill)
    ensures IsSubstring(w.fileHead + v.fileLabel, DetailedText(w, v))
  {
    AdjacentParts(HeaderParts(w, v), 4);
    SubstringOfPart(w.fileHead + v.fileLabel, DetailedBlocks(w, v), 0);
  }

  /** Every strength and every improvement has its own line. */
  lemma DetailedTextLists(w: DetailedWording, v: ReportFill)
    ensures forall i | 0 <= i < |v.strengths| :: IsSubstring("✅ " + v.strengths[i], DetailedText(w, v))
    ensures forall i | 0 <= i < |v.improvements| :: IsSubstring("🔧 " + v.improvements[i], DetailedText(w, v))
  {
    forall i | 0 <= i < |v.strengths|
      ensures IsSubstring("✅ " + v.strengths[i], DetailedText(w, v))
    {
      BulletListHasLine("✅ ", v.strengths, i);
      InDetailedText("✅ " + v.strengths[i], w, v, 4, ListParts(w, w.strengthsBanner, "✅ ", v.strengths), 5);
    }
    forall i | 0 <= i < |v.improvements|
      ensures IsSubstring("🔧 " + v.improvements[i], DetailedText(w, v))
    {
      BulletListHasLine("🔧 ", v.improvements, i);
      InDetailedText("🔧 " + v.improvements[i], w, v, 5, ListParts(w, w.improvementsBanner, "🔧 ", v.improvements), 5);
    }
  }

  /** Every keyword found or missing has its bullet, and an empty keyword
      list shows its placeholder. */
  lemma DetailedTextKeywords(w: DetailedWording, v: ReportFill)
    ensures forall i | 0 <= i < |v.keywords.present| :: IsSubstring(Bullet + v.keywords.present[i], DetailedText(w, v))
    ensures forall i | 0 <= i < |v.keywords.missing| :: IsSubstring(Bullet + v.keywords.missing[i], DetailedText(w, v))
    ensures v.keywords.present == [] ==> IsSubstring(w.noneFound, DetailedText(w, v))
    ensures v.keywords.missing == [] ==> IsSubstring(w.noneMissing, DetailedText(w, v))
  {
    var k := v.keywords;
    var parts := KeywordsParts(w, k);
    BulletListOrShows(Bullet, k.present, w.noneFound);
    BulletListOrShows(Bullet, k.missing, w.noneMissing);
    forall t | IsSubstring(t, parts[7]) || IsSubstring(t, parts[9])
      ensures IsSubstring(t, DetailedText(w, v))
    {
      if IsSubstring(t, parts[7]) {
        InDetailedText(t, w, v, 3, parts, 7);
      } else {
        InDetailedText(t, w, v, 3, parts, 9);
      }
    }
    SubstringOfWhole(w.noneFound);
    SubstringOfWhole(w.noneMissing);
  }

  /** The closing block shows the recommendation. */
  lemma DetailedTextRecommends(w: DetailedWording, v: ReportFill)
    ensures IsSubstring(v.recommendation, DetailedText(w, v))
  {
    SubstringOfWhole(v.recommendation);
    InDetailedText(v.recommendation, w, v, 6, ClosingParts(w, v), 7);
  }

  /** Every suggestion of the clarity, structure and keywords sections has
      its bullet line. */
  lemma DetailedTextSuggestions(w: DetailedWording, v: ReportFill)
    ensures forall i | 0 <= i < |v.clarity.suggestions| ::
      IsSubstring(Bullet + v.clarity.suggestions[i], DetailedText(w, v))
    ensures forall i | 0 <= i < |v.structure.suggestions| ::
      IsSubstring(Bullet + v.structure.suggestions[i], DetailedText(w, v))
    ensures forall i | 0 <= i < |v.keywords.suggestions| ::
      IsSubstring(Bullet + v.keywords.suggestions[i], DetailedText(w, v))
  {
    forall i | 0 <= i < |v.clarity.suggestions|
      ensures IsSubstring(Bullet + v.clarity.suggestions[i], DetailedText(w, v))
    {
      BulletListHasLine(Bullet, v.clarity.suggestions, i);
      InDetailedText(Bullet + v.clarity.suggestions[i], w, v, 1, SectionParts(w.clarityTitle, w, v.clarity), 9);
    }
    forall i | 0 <= i < |v.structure.suggestions|
      ensures IsSubstring(Bullet + v.structure.suggestions[i], DetailedText(w, v))
    {
      BulletListHasLine(Bullet, v.structure.suggestions, i);
      InDetailedText(Bullet + v.structure.suggestions[i], w, v, 2, SectionParts(w.structureTitle, w, v.structure), 9);
    }
    forall i | 0 <= i < |v.keywords.suggestions|
      ensures IsSubstring(Bullet + v.keywords.suggestions[i], DetailedText(w, v))
    {
      BulletListHasLine(Bullet, v.keywords.suggestions, i);
      InDetailedText(Bullet + v.keywords.suggestions[i], w, v, 3, KeywordsParts(w, v.keywords), 11);
    }
  }

  /** The detailed report names the file, or says it is not specified. */
  lemma DetailedReportNamesFile(a: Analysis, filename: string, timestamp: string)
    requires HasNumericScores(a)
    ensures IsSubstring("\nArquivo: " + FileLabel(filename), DetailedReport(a, filename, timestamp))
  {
    DetailedTextNamesFile(Detailed, FillOf(a, filename, timestamp));
  }

  /** Every strength appears on its own `✅` line and every improvement on
      its own `🔧` line. */
  lemma DetailedReportListsStrengthsAndImprovements(a: Analysis, filename: string, timestamp: string)
    requires HasNumericScores(a)
    ensures forall i | 0 <= i < |a.strengths| ::
      IsSubstring("✅ " + Display(a.strengths[i]), DetailedReport(a, filename, timestamp))
    ensures forall i | 0 <= i < |a.improvements| ::
      IsSubstring("🔧 " + Display(a.improvements[i]), DetailedReport(a, filename, timestamp))
  {
    var v := FillOf(a, filename, timestamp);
    DetailedTextLists(Detailed, v);
    forall i | 0 <= i < |a.strengths|
      ensures IsSubstring("✅ " + Display(a.strengths[i]), DetailedReport(a, filename, timestamp))
    {
      assert v.strengths[i] == Display(a.strengths[i]);
    }
    forall i | 0 <= i < |a.improvements|
      ensures IsSubstring("🔧 " + Display(a.improvements[i]), DetailedReport(a, filename, timestamp))
    {
      assert v.improvements[i] == Display(a.improvements[i]);
    }
  }

  /** Every suggestion of the three sections appears on its own bullet
      line. */
  lemma DetailedReportListsSuggestions(a: Analysis, filename: string, timestamp: string)
    requires HasNumericScores(a)
    ensures forall i | 0 <= i < |a.clarity.suggestions| ::
      IsSubstring(Bullet + Display(a.clarity.suggestions[i]), DetailedReport(a, filename, timestamp))
    ensures forall i | 0 <= i < |a.structure.suggestions| ::
      IsSubstring(Bullet + Display(a.structure.suggestions[i]), DetailedReport(a, filename, timestamp))
    ensures forall i | 0 <= i < |a.keywords.suggestions| ::
      IsSubstring(Bullet + Display(a.keywords.suggestions[i]), DetailedReport(a, filename, timestamp))
  {
    var v := FillOf(a, filename, timestamp);
    DetailedTextSuggestions(Detailed, v);
    forall i | 0 <= i < |a.clarity.suggestions|
      ensures IsSubstring(Bullet + Display(a.clarity.suggestions[i]), DetailedReport(a, filename, timestamp))
    {
      assert v.clarity.suggestions[i] == Display(a.clarity.suggestions[i]);
    }
    forall i | 0 <= i < |a.structure.suggestions|
      ensures IsSubstring(Bullet + Display(a.structure.suggestions[i]), DetailedReport(a, filename, timestamp))
    {
      assert v.structure.suggestions[i] == Display(a.structure.suggestions[i]);
    }
    forall i | 0 <= i < |a.keywords.suggestions|
      ensures IsSubstring(Bullet + Display(a.keywords.suggestions[i]), DetailedReport(a, filename, timestamp))
    {
      assert v.keywords.suggestions[i] == Display(a.keywords.suggestions[i]);
    }
  }

  /** Each keyword found or missing is listed; an empty list is replaced by
      its placeholder line. */
  lemma DetailedReportKeywords(a: Analysis, filename: string, timestamp: string)
    requires HasNumericScores(a)
    ensures a.keywords.present == [] ==> IsSubstring(NoKeywordsFound, DetailedReport(a, filename, timestamp))
    ensures a.keywords.missing == [] ==> IsSubstring(NoKeywordsMissing, DetailedReport(a, filename, timestamp))
    ensures forall i | 0 <= i < |a.keywords.present| ::
      IsSubstring(Bullet + Display(a.keywords.present[i]), DetailedReport(a, filename, timestamp))
    ensures forall i | 0 <= i < |a.keywords.missing| ::
      IsSubstring(Bullet + Display(a.keywords.missing[i]), DetailedReport(a, filename, timestamp))
  {
    var v := FillOf(a, filename, timestamp);
    DetailedTextKeywords(Detailed, v);
    forall i | 0 <= i < |a.keywords.present|
      ensures IsSubstring(Bullet + Display(a.keywords.present[i]), DetailedReport(a, filename, timestamp))
    {
      assert v.keywords.present[i] == Display(a.keywords.present[i]);
    }
    forall i | 0 <= i < |a.keywords.missing|
      ensures IsSubstring(Bullet + Display(a.keywords.missing[i]), DetailedReport(a, filename, timestamp))
    {
      assert v.keywords.missing[i] == Display(a.keywords.missing[i]);
    }
  }

  /** The report closes with the final recommendation for the overall
      score. */
  lemma DetailedReportRecommends(a: Analysis, filename: string, timestamp: string)
    requires HasNumericScores(a)
    ensures IsSubstring(ScoreTiers.GetFinalRecommendation(NumericValue(a.overallScore)),
      DetailedReport(a, filename, timestamp))
  {
    DetailedTextRecommends(Detailed, FillOf(a, filename, timestamp));
    RecommendationIsFinal(a.overallScore);
  }

  // ---------------------------------------------------------------------
  // The summary report

  const ImprovementsInSummary: nat := 5
  const StrengthsInSummary: nat := 3

  datatype SummaryWording = SummaryWording(
    title: string, fileHead: string, dateHead: string, scoreHead: string, levelHead: string,
    clarityHead: string, structureHead: string, keywordsHead: string,
    improvementsHead: string, strengthsHead: string, footer: string)

  const Summary := SummaryWording(
    "\nSMARTCV - RELATÓRIO RESUMIDO\n",
    "\n\n📄 Arquivo: ",
    "\n📅 Data: ",
    "\n🤖 IA: Google Gemini\n\n🎯 NOTA GERAL: ",
    "/100\nClassificação: ",
    "\n\n📊 PONTUAÇÕES DETALHADAS:\n• Clareza e Coesão: ",
    "/100\n• Estrutura: ",
    "/100  \n• Palavras-chave: ",
    "/100\n\n🔧 PRINCIPAIS MELHORIAS:\n",
    "\n\n⭐ PRINCIPAIS PONTOS FORTES:\n",
    "\n\n---\nSmartCV - Powered by Google Gemini\n        ")

  function SummaryParts(w: SummaryWording, v: ReportFill): seq<string> {
    [ w.title, Repeat('=', 35), w.fileHead, v.fileLabel, w.dateHead, v.timestamp,
      w.scoreHead, v.overall, w.levelHead, v.overallLevel,
      w.clarityHead, v.clarity.score, w.structureHead, v.structure.score, w.keywordsHead, v.keywords.score,
      w.improvementsHead, BulletList("• ", Take(v.improvements, ImprovementsInSummary)),
      w.strengthsHead, BulletList("• ", Take(v.strengths, StrengthsInSummary)),
      w.footer ]
  }

  /** The summary's layout with wording `w` and values `v`. */
  function SummaryText(w: SummaryWording, v: ReportFill): string {
    Concat(SummaryParts(w, v))
  }

  /** `generate_report_text(analysis, filename, detailed=False)` at the
      moment `timestamp`. */
  function SummaryReport(a: Analysis, filename: string, timestamp: string): string
    requires HasNumericScores(a)
  {
    SummaryText(Summary, FillOf(a, filename, timestamp))
  }

  /** The layout shows the file label after its heading, the first five
      improvements and the first three strengths. */
  lemma SummaryTextShows(w: SummaryWording, v: ReportFill)
    ensures IsSubstring(w.fileHead + v.fileLabel, SummaryText(w, v))
    ensures forall i | 0 <= i < |v.improvements| && i < ImprovementsInSummary ::
      IsSubstring("• " + v.improvements[i], SummaryText(w, v))
    ensures forall i | 0 <= i < |v.strengths| && i < StrengthsInSummary ::
      IsSubstring("• " + v.strengths[i], SummaryText(w, v))
  {
    var parts := SummaryParts(w, v);
    AdjacentParts(parts, 2);
    forall i | 0 <= i < |v.improvements| && i < ImprovementsInSummary
      ensures IsSubstring("• " + v.improvements[i], SummaryText(w, v))
    {
      var shown := Take(v.improvements, ImprovementsInSummary);
      assert shown[i] == v.improvements[i];
      BulletListHasLine("• ", shown, i);
      SubstringOfPart("• " + v.improvements[i], parts, 17);
    }
    forall i | 0 <= i < |v.strengths| && i < StrengthsInSummary
      ensures IsSubstring("• " + v.strengths[i], SummaryText(w, v))
    {
      var shown := Take(v.strengths, StrengthsInSummary);
      assert shown[i] == v.strengths[i];
      BulletListHasLine("• ", shown, i);
      SubstringOfPart("• " + v.strengths[i], parts, 19);
    }
  }

  /** The summary names the file and lists the first five improvements and
      the first three strengths. */
  lemma SummaryReportShows(a: Analysis, filename: string, timestamp: string)
    requires HasNumericScores(a)
    ensures IsSubstring("\n\n📄 Arquivo: " + FileLabel(filename), SummaryReport(a, filename, timestamp))
    ensures forall i | 0 <= i < |a.improvements| && i < ImprovementsInSummary ::
      IsSubstring("• " + Display(a.improvements[i]), SummaryReport(a, filename, timestamp))
    ensures forall i | 0 <= i < |a.strengths| && i < StrengthsInSummary ::
      IsSubstring("• " + Display(a.strengths[i]), SummaryReport(a, filename, timestamp))
  {
    var v := FillOf(a, filename, timestamp);
    SummaryTextShows(Summary, v);
    forall i | 0 <= i < |a.improvements| && i < ImprovementsInSummary
      ensures IsSubstring("• " + Display(a.improvements[i]), SummaryReport(a, filename, timestamp))
    {
      assert v.improvements[i] == Display(a.improvements[i]);
    }
    forall i | 0 <= i < |a.strengths| && i < StrengthsInSummary
      ensures IsSubstring("• " + Display(a.strengths[i]), SummaryReport(a, filename, timestamp))
    {
      assert v.strengths[i] == Display(a.strengths[i]);
    }
  }

  /** Items past the limits never reach the summary: two analyses that
      agree on everything but those items give the same summary. */
  lemma SummaryIgnoresLaterItems(a: Analysis, b: Analysis, filename: string, timestamp: string)
    requires HasNumericScores(a)
    requires a.overallScore == b.overallScore && a.clarity.score == b.clarity.score
    requires a.structure.score == b.structure.score && a.keywords.score == b.keywords.score
    requires Take(a.improvements, ImprovementsInSummary) == Take(b.improvements, ImprovementsInSummary)
    requires Take(a.strengths, StrengthsInSummary) == Take(b.strengths, StrengthsInSummary)
    ensures HasNumericScores(b)
    ensures SummaryReport(a, filename, timestamp) == SummaryReport(b, filename, timestamp)
  {
    var va := FillOf(a, filename, timestamp);
    var vb := FillOf(b, filename, timestamp);
    TakeOfTexts(a.improvements, b.improvements, ImprovementsInSummary);
    TakeOfTexts(a.strengths, b.strengths, StrengthsInSummary);
    assert SummaryParts(Summary, va) == SummaryParts(Summary, vb);
  }

  lemma TakeOfTexts(x: seq<Json>, y: seq<Json>, n: nat)
    requires Take(x, n) == Take(y, n)
    ensures Take(Texts(x), n) == Take(Texts(y), n)
  {
    assert |Take(Texts(x), n)| == |Take(x, n)|;
    forall i | 0 <= i < |Take(Texts(x), n)|
      ensures Take(Texts(x), n)[i] == Take(Texts(y), n)[i]
    {
      assert Take(x, n)[i] == x[i] && Take(y, n)[i] == y[i];
    }
  }
}
