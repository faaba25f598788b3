/** The five score tiers shared by the result display and the final
    recommendation, with the lower bounds of the configured thresholds
    (excellent 90, very good 80, good 70, regular 60, poor 0). */
module ScoreTiers {
  import opened PyText

  datatype Tier = Excellent | VeryGood | Good | Regular | Poor

  /** The configured lower bound of each tier. */
  function Threshold(t: Tier): real {
    match t
    case Excellent => 90.0
    case VeryGood => 80.0
    case Good => 70.0
    case Regular => 60.0
    case Poor => 0.0
  }

  /** Position from the bottom: poor is 0, excellent is 4. */
  function Rank(t: Tier): nat {
    match t
    case Poor => 0
    case Regular => 1
    case Good => 2
    case VeryGood => 3
    case Excellent => 4
  }

  /** The tier directly above `t`, for every tier but the top one. */
  function Above(t: Tier): Tier
    requires t != Excellent
  {
    match t
    case Poor => Regular
    case Regular => Good
    case Good => VeryGood
    case VeryGood => Excellent
  }

  /** A score belongs to a tier when it reaches the tier's lower bound
      (the bottom tier has none) and stays below the bound of the next
      (the top tier has none). */
  predicate InTier(score: real, t: Tier) {
    && (t == Poor || Threshold(t) <= score)
    && (t == Excellent || score < Threshold(Above(t)))
  }

  /** The `if score >= 90 … elif score >= 80 … elif score >= 70 … elif
      score >= 60 … else` chain. */
  function TierOf(score: real): (t: Tier)
    ensures InTier(score, t)
  {
    if score >= 90.0 then Excellent
    else if score >= 80.0 then VeryGood
    else if score >= 70.0 then Good
    else if score >= 60.0 then Regular
    else Poor
  }

  /** Every score lies in exactly one tier. */
  lemma TierIsUnique(score: real, t: Tier)
    ensures InTier(score, t) <==> t == TierOf(score)
  {
  }

  /** Each bound belongs to the tier it opens: 90, 80, 70 and 60 fall in
      the higher tier. */
  lemma ThresholdsAreInclusive(t: Tier)
    ensures TierOf(Threshold(t)) == t
  {
    TierIsUnique(Threshold(t), t);
  }

  /** A higher score never gets a lower tier. */
  lemma TierIsMonotone(a: real, b: real)
    requires a <= b
    ensures Rank(TierOf(a)) <= Rank(TierOf(b))
  {
  }

  /** What `format_score_display` returns: its five dict entries. */
  datatype ScoreDisplay = ScoreDisplay(emoji: string, color: string, level: string, cssClass: string, description: string)

  /** The display of each tier. */
  function Display(t: Tier): ScoreDisplay {
    match t
    case Excellent =>
      ScoreDisplay("🟢", "#34a853", "Excelente", "score-excellent", "Currículo excepcional!")
    case VeryGood =>
      ScoreDisplay("🟢", "#34a853", "Muito Bom", "score-excellent", "Currículo muito bem estruturado")
    case Good =>
      ScoreDisplay("🟡", "#fbbc04", "Bom", "score-good", "Bom currículo com potencial")
    case Regular =>
      ScoreDisplay("🟡", "#fbbc04", "Regular", "score-good", "Currículo adequado, mas pode melhorar")
    case Poor =>
      ScoreDisplay("🔴", "#ea4335", "Precisa Melhorar", "score-poor", "Currículo precisa de melhorias importantes")
  }

  /** `format_score_display(score)`: the display of the one tier the score
      lies in. The CSS class and the emoji follow three bands: from 80,
      from 60, and below. */
  function FormatScoreDisplay(score: real): (d: ScoreDisplay)
    ensures forall t | InTier(score, t) :: d == Display(t)
    ensures d.cssClass == "score-excellent" <==> score >= 80.0
    ensures d.cssClass == "score-good" <==> 60.0 <= score < 80.0
    ensures d.cssClass == "score-poor" <==> score < 60.0
    ensures d.emoji == "🟢" <==> d.cssClass == "score-excellent"
    ensures d.emoji == "🟡" <==> d.cssClass == "score-good"
    ensures d.emoji == "🔴" <==> d.cssClass == "score-poor"
  {
    AllTiersUnique(score);
    Display(TierOf(score))
  }

  lemma AllTiersUnique(score: real)
    ensures forall t | InTier(score, t) :: t == TierOf(score)
  {
    forall t | InTier(score, t) ensures t == TierOf(score) {
      TierIsUnique(score, t);
    }
  }

  /** Different tiers show different level names. */
  lemma LevelNamesDistinct(a: Tier, b: Tier)
    ensures Display(a).level == Display(b).level <==> a == b
  {
  }

  /** `get_final_recommendation(score)`: the closing paragraph of the one
      tier the score lies in. */
  function GetFinalRecommendation(score: real): (r: string)
    ensures forall t | InTier(score, t) :: r == Recommendation(t)
  {
    AllTiersUnique(score);
    Recommendation(TierOf(score))
  }

  /** The closing paragraph of the detailed report, one per tier. */
  function Recommendation(t: Tier): string {
    match t
    case Excellent =>
      "\n🎉 EXCELENTE! Seu currículo está em estado excepcional. Continue refinando os pequenos detalhes e mantendo-o sempre atualizado. Você está no caminho certo para se destacar no mercado de trabalho.\n        "
    case VeryGood =>
      "\n👍 MUITO BOM! Seu currículo tem uma base sólida e está bem estruturado. Implemente as sugestões apresentadas para alcançar a excelência e se destacar ainda mais no processo seletivo.\n        "
    case Good =>
      "\n📈 BOM POTENCIAL! Seu currículo tem uma boa base, mas há oportunidades claras de melhoria. Foque nas sugestões de maior impacto para aumentar significativamente sua competitividade.\n        "
    case Regular =>
      "\n⚠️ ATENÇÃO NECESSÁRIA! Seu currículo precisa de melhorias importantes. Dedique tempo para implementar as sugestões apresentadas, especialmente nas áreas com menor pontuação.\n        "
    case Poor =>
      "\n🚨 REVISÃO URGENTE! Seu currículo precisa de uma reformulação significativa. Recomendamos focar primeiro na estrutura básica e clareza, depois nas palavras-chave e detalhes específicos.\n        "
  }

  /** The recommendation always goes with the displayed level: scores that
      share a level share the recommendation. */
  lemma RecommendationFollowsLevel(a: real, b: real)
    requires FormatScoreDisplay(a).level == FormatScoreDisplay(b).level
    ensures GetFinalRecommendation(a) == GetFinalRecommendation(b)
  {
    LevelNamesDistinct(TierOf(a), TierOf(b));
  }
}
