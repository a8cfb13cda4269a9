/**
 * The AI routes of the server (server/routes/ai.js): `POST /generate-strategy`,
 * which either splits a language model's reply on the first code fence or,
 * without a model, picks one of three strategy templates by keyword and
 * scores its confidence; and `POST /improve-strategy`, which answers with a
 * fixed improved strategy.
 */
module AiRoutes {
  import opened Wrappers
  import opened Text
  import opened Seqs
  import opened Http
  import opened Domain

  /** The Markdown code fence the model's reply is cut on. */
  const Fence := "```"

  const BaseConfidence := 75
  const ConfidenceCap := 95
  const ModelConfidence := 85
  const ImprovedConfidence := 87

  const PromptRequired := "Prompt requis pour générer une stratégie"
  const GenerationFailed := "Erreur lors de la génération de la stratégie"
  const StrategyIdAndFeedbackRequired := "ID de stratégie et feedback requis"

  /** The three template keys. */
  datatype StrategyType = Trend | MeanReversion | Scalping

  /** A canned strategy. The PineScript bodies are opaque: only their first line is kept. */
  datatype Template = Template(name: string, description: string, pineScript: string, parameters: seq<Parameter>)

  function NumberParameter(name: string, defaultValue: int, min: int, max: int, description: string): Parameter {
    Parameter(name, "number", defaultValue, Some(min), Some(max), description)
  }

  function TemplateFor(t: StrategyType): Template {
    match t
    case Trend =>
      Template(
        "Stratégie de Suivi de Tendance IA",
        "Stratégie générée par IA pour suivre les tendances du marché avec des signaux d'entrée optimisés",
        "// AI Generated Trend Following Strategy",
        [NumberParameter("fast_length", 12, 5, 50, "Période de la moyenne mobile rapide"),
         NumberParameter("slow_length", 26, 20, 100, "Période de la moyenne mobile lente")])
    case MeanReversion =>
      Template(
        "Stratégie de Retour à la Moyenne IA",
        "Stratégie IA pour profiter des retours à la moyenne avec Bollinger Bands",
        "// AI Generated Mean Reversion Strategy",
        [NumberParameter("bb_length", 20, 10, 50, "Période des Bollinger Bands")])
    case Scalping =>
      Template(
        "Stratégie de Scalping IA",
        "Stratégie IA optimisée pour le scalping avec signaux rapides",
        "// AI Generated Scalping Strategy",
        [NumberParameter("ema_fast", 5, 3, 15, "Période EMA rapide")])
  }

  /** The purpose phrase the explanation ends with. */
  function Purpose(t: StrategyType): string {
    match t
    case Trend => "suivre les tendances"
    case MeanReversion => "profiter des retours à la moyenne"
    case Scalping => "faire du scalping"
  }

  function Explanation(prompt: string, indicators: seq<string>, t: StrategyType): string {
    "Cette stratégie a été générée en analysant votre demande: \"" + prompt + "\". Elle utilise "
    + Join(indicators, ", ") + " pour " + Purpose(t) + "."
  }

  const MockSuggestions: seq<string> := [
    "Testez la stratégie sur différentes périodes",
    "Ajustez les paramètres selon votre tolérance au risque",
    "Considérez l'ajout d'un stop loss",
    "Backtestez sur des données historiques avant utilisation"]

  function Min(a: int, b: int): int {
    if a <= b then a else b
  }

  // ---------------------------------------------------------------------
  // What the keyword matcher decides, stated as closed forms
  // ---------------------------------------------------------------------

  predicate MentionsScalping(lower: string) {
    Contains(lower, "scalping") || Contains(lower, "court terme")
  }

  /** The template key: scalping wins over Bollinger, Bollinger over the trend default. */
  function KeywordType(lower: string): StrategyType {
    if MentionsScalping(lower) then Scalping
    else if Contains(lower, "bollinger") then MeanReversion
    else Trend
  }

  function IfThen(b: bool, xs: seq<string>): seq<string> {
    if b then xs else []
  }

  /** The indicators named in the explanation. */
  function KeywordIndicators(lower: string): seq<string> {
    ["SMA"] + IfThen(Contains(lower, "rsi"), ["RSI"]) + IfThen(Contains(lower, "macd"), ["MACD"])
    + IfThen(Contains(lower, "bollinger"), ["Bollinger Bands"])
  }

  function Bonus(b: bool, points: nat): nat {
    if b then points else 0
  }

  predicate RiskIsLow(context: Option<AiContext>) {
    context.Some? && context.value.riskLevel == Some("low")
  }

  function PreferredIndicatorCount(context: Option<AiContext>): nat {
    if context.Some? && context.value.indicators.Some? then |context.value.indicators.value| else 0
  }

  /** The keyword part of the confidence: the base plus one bonus per matched keyword. */
  function KeywordConfidence(lower: string): int {
    BaseConfidence
    + Bonus(Contains(lower, "rsi"), 5)
    + Bonus(Contains(lower, "macd"), 5)
    + Bonus(Contains(lower, "bollinger"), 10)
    + Bonus(MentionsScalping(lower), 5)
  }

  /** The confidence before the cap: the keyword part plus the context bonuses. */
  function RawConfidence(lower: string, context: Option<AiContext>): int {
    KeywordConfidence(lower) + Bonus(RiskIsLow(context), 5) + 2 * PreferredIndicatorCount(context)
  }

  /** The whole answer of the keyword matcher for `prompt`: the template the
      keywords select, a confidence between the base and the cap, and the
      fixed suggestions. */
  function MockResponse(prompt: string, context: Option<AiContext>): (r: AiResponse)
    ensures BaseConfidence <= r.confidence <= ConfidenceCap
    ensures r.strategy.pineScript == TemplateFor(KeywordType(ToLower(prompt))).pineScript
    ensures r.strategy.parameters == TemplateFor(KeywordType(ToLower(prompt))).parameters
    ensures r.suggestions == MockSuggestions
  {
    AiResponse(MockStrategy(prompt), MockConfidence(ToLower(prompt), context), MockSuggestions)
  }

  /** The template the keywords select, with the explanation that names the prompt and the indicators. */
  function MockStrategy(prompt: string): GeneratedStrategy {
    var lower := ToLower(prompt);
    var t := KeywordType(lower);
    var template := TemplateFor(t);
    GeneratedStrategy(template.name, template.description, template.pineScript, template.parameters,
                      Explanation(prompt, KeywordIndicators(lower), t))
  }

  /** The confidence reported: the raw score, capped; never below the base,
      since every bonus is non-negative. */
  function MockConfidence(lower: string, context: Option<AiContext>): (c: int)
    ensures BaseConfidence <= c <= ConfidenceCap
  {
    Min(RawConfidence(lower, context), ConfidenceCap)
  }

  /** The keyword tests of `generateMockStrategy`, one after another, on the lower-cased prompt. */
  method MatchKeywords(promptLower: string) returns (strategyType: StrategyType, indicators: seq<string>, confidence: int)
    ensures strategyType == KeywordType(promptLower)
    ensures indicators == KeywordIndicators(promptLower)
    ensures confidence == KeywordConfidence(promptLower)
  {
    strategyType := Trend;
    indicators := ["SMA"];
    confidence := BaseConfidence;
    if Contains(promptLower, "rsi") {
      indicators := indicators + ["RSI"];
      confidence := confidence + 5;
    }
    if Contains(promptLower, "macd") {
      indicators := indicators + ["MACD"];
      confidence := confidence + 5;
    }
    if Contains(promptLower, "bollinger") {
      indicators := indicators + ["Bollinger Bands"];
      strategyType := MeanReversion;
      confidence := confidence + 10;
    }
    if Contains(promptLower, "scalping") || Contains(promptLower, "court terme") {
      strategyType := Scalping;
      confidence := confidence + 5;
    }
  }

  /** `generateMockStrategy`: the keyword matcher as the source runs it. */
  method GenerateMockStrategy(prompt: string, context: Option<AiContext>) returns (r: AiResponse)
    ensures r == MockResponse(prompt, context)
  {
    var promptLower := ToLower(prompt);
    var strategyType, indicators, confidence := MatchKeywords(promptLower);
    if context.Some? && context.value.riskLevel == Some("low") {
      confidence := confidence + 5;
    }
    if context.Some? && context.value.indicators.Some? && |context.value.indicators.value| > 0 {
      confidence := confidence + |context.value.indicators.value| * 2;
    }
    assert confidence == RawConfidence(promptLower, context);
    var selected := TemplateFor(strategyType);
    r := AiResponse(
      GeneratedStrategy(selected.name, selected.description, selected.pineScript, selected.parameters,
                        Explanation(prompt, indicators, strategyType)),
      Min(confidence, ConfidenceCap),
      MockSuggestions);
  }

  /** The indicator list starts with SMA and then names, in a fixed order,
      exactly the indicators whose keyword the prompt mentions. */
  lemma KeywordIndicatorsShape(lower: string)
    ensures KeywordIndicators(lower)[0] == "SMA"
    ensures SubsequenceOf(KeywordIndicators(lower), ["SMA", "RSI", "MACD", "Bollinger Bands"])
    ensures "RSI" in KeywordIndicators(lower) <==> Contains(lower, "rsi")
    ensures "MACD" in KeywordIndicators(lower) <==> Contains(lower, "macd")
    ensures "Bollinger Bands" in KeywordIndicators(lower) <==> Contains(lower, "bollinger")
  {
    var all := ["SMA", "RSI", "MACD", "Bollinger Bands"];
    var a := IfThen(Contains(lower, "rsi"), ["RSI"]);
    var b := IfThen(Contains(lower, "macd"), ["MACD"]);
    var c := IfThen(Contains(lower, "bollinger"), ["Bollinger Bands"]);
    assert KeywordIndicators(lower) == ["SMA"] + a + b + c;
    // Peel the candidates off from the end, keeping or skipping each one.
    assert all[..3] == ["SMA", "RSI", "MACD"] && all[..3][..2] == ["SMA", "RSI"];
    assert all[..3][..2][..1] == ["SMA"];
    SubsequenceReflexive(["SMA"]);
    SubsequenceStep(["SMA"], ["SMA"], "RSI", Contains(lower, "rsi"));
    SubsequenceStep(["SMA"] + a, ["SMA", "RSI"], "MACD", Contains(lower, "macd"));
    SubsequenceStep(["SMA"] + a + b, ["SMA", "RSI", "MACD"], "Bollinger Bands", Contains(lower, "bollinger"));
  }

  /** No indicator is named twice. */
  lemma KeywordIndicatorsDistinct(lower: string)
    ensures NoDuplicates(KeywordIndicators(lower))
  {
    var all := ["SMA", "RSI", "MACD", "Bollinger Bands"];
    assert all[0][0] == 'S' && all[1][0] == 'R' && all[2][0] == 'M' && all[3][0] == 'B';
    assert NoDuplicates(all);
    KeywordIndicatorsShape(lower);
    SubsequenceNoDuplicates(KeywordIndicators(lower), all);
  }

  /** Extending a list by one candidate: keeping or skipping it keeps the sub-list relation. */
  lemma SubsequenceStep(r: seq<string>, s: seq<string>, x: string, keep: bool)
    requires SubsequenceOf(r, s)
    ensures SubsequenceOf(r + IfThen(keep, [x]), s + [x])
  {
    var s' := s + [x];
    assert s'[..|s'| - 1] == s;
    if keep {
      var r' := r + [x];
      assert r + IfThen(keep, [x]) == r';
      assert r'[..|r'| - 1] == r && r'[|r'| - 1] == s'[|s'| - 1];
      assert SubsequenceOf(r', s');
    } else {
      assert r + IfThen(keep, [x]) == r;
    }
  }

  /** The template follows the keywords; the scalping keywords are matched last, so scalping wins over Bollinger. */
  lemma TemplateSelection(prompt: string, context: Option<AiContext>)
    ensures var lower := ToLower(prompt);
            MockResponse(prompt, context).strategy.name
            == (if MentionsScalping(lower) then TemplateFor(Scalping).name
                else if Contains(lower, "bollinger") then TemplateFor(MeanReversion).name
                else TemplateFor(Trend).name)
  {
  }

  /** A Bollinger prompt without a scalping keyword selects the mean-reversion
      template with a confidence at least ten points above the base. */
  lemma BollingerSelectsMeanReversion(prompt: string, context: Option<AiContext>)
    requires Contains(ToLower(prompt), "bollinger") && !MentionsScalping(ToLower(prompt))
    ensures MockResponse(prompt, context).strategy.pineScript == TemplateFor(MeanReversion).pineScript
    ensures MockResponse(prompt, context).confidence >= BaseConfidence + 10
  {
    BollingerKeywords(ToLower(prompt));
    MeanReversionAnswer(prompt, context);
  }

  /** The keyword facts behind the lemma above, on the lower-cased prompt. */
  lemma BollingerKeywords(lower: string)
    requires Contains(lower, "bollinger") && !MentionsScalping(lower)
    ensures KeywordType(lower) == MeanReversion
    ensures KeywordConfidence(lower) >= BaseConfidence + 10
  {
  }

  /** A prompt whose keywords select mean reversion, with their bonus, gets that template's script
      and a confidence at least ten points above the base. */
  lemma MeanReversionAnswer(prompt: string, context: Option<AiContext>)
    requires KeywordType(ToLower(prompt)) == MeanReversion
    requires KeywordConfidence(ToLower(prompt)) >= BaseConfidence + 10
    ensures MockResponse(prompt, context).strategy.pineScript == TemplateFor(MeanReversion).pineScript
    ensures MockResponse(prompt, context).confidence >= BaseConfidence + 10
  {
    var lower := ToLower(prompt);
    assert MockResponse(prompt, context).strategy == MockStrategy(prompt);
    assert MockResponse(prompt, context).confidence == MockConfidence(lower, context);
    KeywordScoreKept(lower, context, BaseConfidence + 10);
  }

  /** The context bonuses never take away from the keyword score, and the cap
      is above any score a lower bound below it guarantees. */
  lemma KeywordScoreKept(lower: string, context: Option<AiContext>, floor: int)
    requires KeywordConfidence(lower) >= floor && floor <= ConfidenceCap
    ensures MockConfidence(lower, context) >= floor
  {
  }

  /** Matching looks only at the lower-cased prompt: lower-casing the prompt
      first changes neither the template, nor the indicators, nor the confidence. */
  lemma MatchingIgnoresCase(prompt: string, context: Option<AiContext>)
    ensures var a := MockResponse(prompt, context);
            var b := MockResponse(ToLower(prompt), context);
            a.confidence == b.confidence
            && a.strategy.pineScript == b.strategy.pineScript
            && KeywordIndicators(ToLower(prompt)) == KeywordIndicators(ToLower(ToLower(prompt)))
  {
    ToLowerIdempotent(prompt);
  }

  // ---------------------------------------------------------------------
  // The language-model path
  // ---------------------------------------------------------------------

  /** `const [summary, ...codeParts] = raw.split(Fence); pineScript = codeParts.join(Fence)`. */
  function NaiveSplit(raw: string): (r: (string, string))
    ensures !Contains(r.0, Fence)
    ensures !Contains(raw, Fence) ==> r == (raw, "")
  {
    var parts := Split(raw, Fence);
    (parts[0], Join(parts[1..], Fence))
  }

  /** The summary is the text before the first fence and never holds one; the
      script is everything after it, so the two with the fence between give back
      the reply; without a fence the summary is the whole reply. */
  lemma NaiveSplitRoundTrip(raw: string)
    ensures !Contains(NaiveSplit(raw).0, Fence)
    ensures Contains(raw, Fence) ==> NaiveSplit(raw).0 + Fence + NaiveSplit(raw).1 == raw
    ensures !Contains(raw, Fence) ==> NaiveSplit(raw).0 == raw && NaiveSplit(raw).1 == ""
  {
    if Contains(raw, Fence) {
      var i := IndexOf(raw, Fence).value;
      var rest := raw[i + |Fence|..];
      assert Split(raw, Fence) == [raw[..i]] + Split(rest, Fence);
      assert Split(raw, Fence)[1..] == Split(rest, Fence);
      JoinSplit(rest, Fence);
      assert OccursAt(raw, Fence, i);
      Reassemble(raw, i, |Fence|);
    }
  }

  /** `strategyId.substring(0, 5)`. */
  function Prefix(s: string, n: nat): string {
    if |s| <= n then s else s[..n]
  }

  const ModelSuggestions: seq<string> := ["Review parameters", "Backtest before trading live"]

  /** The answer built from the model's reply `raw`: a name from the id's first
      five characters, the trimmed summary as description and explanation, the
      script after the fence, no parameters, confidence 85. */
  function ModelResponse(raw: string, strategyId: string): (r: AiResponse)
    ensures r.strategy.name == "AI Strategy " + Prefix(strategyId, 5)
    ensures r.strategy.description == r.strategy.explanation == Trim(NaiveSplit(raw).0)
    ensures r.strategy.pineScript == NaiveSplit(raw).1
    ensures r.strategy.parameters == [] && r.confidence == ModelConfidence
    ensures r.suggestions == ModelSuggestions
  {
    var (summary, pineScript) := NaiveSplit(raw);
    AiResponse(
      GeneratedStrategy("AI Strategy " + Prefix(strategyId, 5), Trim(summary), pineScript, [], Trim(summary)),
      ModelConfidence,
      ModelSuggestions)
  }

  /** A piece of a text without the fence has no fence either. */
  lemma SliceKeepsNoFence(s: string, a: nat, b: nat)
    requires a <= b <= |s| && !Contains(s, Fence)
    ensures !Contains(s[a..b], Fence)
  {
    if Contains(s[a..b], Fence) {
      var j :| 0 <= j <= (b - a) - |Fence| && OccursAt(s[a..b], Fence, j);
      OccursInSlice(s, Fence, a, b, j);
      assert false;
    }
  }

  /** The model path reports confidence 85, no parameters, and the trimmed
      summary (which holds no fence) as both description and explanation. */
  lemma ModelResponseShape(raw: string, strategyId: string)
    ensures var r := ModelResponse(raw, strategyId);
            r.confidence == ModelConfidence
            && r.strategy.parameters == []
            && r.strategy.description == r.strategy.explanation == Trim(NaiveSplit(raw).0)
            && !Contains(r.strategy.description, Fence)
            && r.strategy.pineScript == NaiveSplit(raw).1
  {
    var summary := NaiveSplit(raw).0;
    NaiveSplitRoundTrip(raw);
    TrimIsInnerSlice(summary);
    var a, b :| 0 <= a <= b <= |summary| && Trim(summary) == summary[a..b];
    SliceKeepsNoFence(summary, a, b);
  }

  /** Which generator answers: the keyword matcher (no API key), or the model,
      whose call returns message content (possibly none) or throws. */
  datatype Backend = KeywordMatcher | LanguageModel(content: Option<string>) | LanguageModelFailure

  /** `POST /generate-strategy`. `strategyId` stands for the `uuidv4()` drawn on the model path. */
  method GenerateStrategy(prompt: Option<string>, context: Option<AiContext>, backend: Backend, strategyId: string)
    returns (r: Response<AiResponse>)
    ensures Missing(prompt) <==> r == Err(400, PromptRequired)
    ensures !Missing(prompt) && backend.KeywordMatcher? ==> r == Ok(200, MockResponse(prompt.value, context))
    ensures !Missing(prompt) && backend.LanguageModel? ==>
              r == Ok(200, ModelResponse(backend.content.GetOr(""), strategyId))
    ensures !Missing(prompt) && backend.LanguageModelFailure? ==> r == Err(500, GenerationFailed)
  {
    if prompt.None? || prompt.value == "" {
      return Err(400, PromptRequired);
    }
    match backend
    case LanguageModelFailure =>
      r := Err(500, GenerationFailed);
    case LanguageModel(content) =>
      var raw := if content.Some? then content.value else "";
      r := Ok(200, ModelResponse(raw, strategyId));
    case KeywordMatcher =>
      var mock := GenerateMockStrategy(prompt.value, context);
      r := Ok(200, mock);
  }

  /** The fixed answer of `POST /improve-strategy`; its script is opaque. */
  const ImprovedStrategy := AiResponse(
    GeneratedStrategy(
      "Stratégie Améliorée",
      "Version améliorée basée sur vos commentaires",
      "// Improved Strategy",
      [NumberParameter("length", 21, 10, 50, "Période pour le calcul")],
      "Cette version améliorée intègre vos suggestions pour une meilleure performance."),
    ImprovedConfidence,
    ["Testez avec différentes périodes", "Ajoutez un stop loss", "Considérez les conditions de marché"])

  /** `POST /improve-strategy`: both the strategy id and the feedback are required. */
  function ImproveStrategy(strategyId: Option<string>, feedback: Option<string>): (r: Response<AiResponse>)
    ensures r.Err? <==> Missing(strategyId) || Missing(feedback)
    ensures r.Err? ==> r == Err(400, StrategyIdAndFeedbackRequired)
    ensures r.Ok? ==> r == Ok(200, ImprovedStrategy) && r.data.confidence == ImprovedConfidence
  {
    if Missing(strategyId) || Missing(feedback) then Err(400, StrategyIdAndFeedbackRequired)
    else Ok(200, ImprovedStrategy)
  }
}
