/**
 * The form of the AI generation page (src/pages/AIGenerator.tsx): the
 * indicator toggle, the blank-prompt guard of `handleGenerate`, the request it
 * sends, and the condition that enables the generate button. The rendering is
 * not modelled.
 */
module AIGenerator {
  import opened Wrappers
  import opened Text
  import opened Seqs
  import opened Http
  import opened Domain
  import opened ClientApi
  import AiRoutes

  const DescribeYourStrategy := "Veuillez décrire votre stratégie"
  const GenerationSucceeded := "Stratégie générée avec succès !"
  const GenerationError := "Erreur lors de la génération"

  datatype RiskLevel = Low | Medium | High

  function RiskText(level: RiskLevel): string {
    match level
    case Low => "low"
    case Medium => "medium"
    case High => "high"
  }

  /** The new indicator list of `handleIndicatorToggle`: a selected indicator is
      removed and the others keep their order and count, any other one is added
      at the end. */
  function Toggled(indicators: seq<string>, indicator: string): (r: seq<string>)
    ensures indicator in r <==> indicator !in indicators
    ensures forall i :: 0 <= i < |indicators| && indicators[i] != indicator ==> indicators[i] in r
    ensures forall i :: 0 <= i < |r| && r[i] != indicator ==> r[i] in indicators
    ensures indicator !in indicators ==> r == indicators + [indicator]
    ensures indicator in indicators ==> SubsequenceOf(r, indicators)
    ensures forall x: string :: x != indicator ==> multiset(r)[x] == multiset(indicators)[x]
  {
    if indicator in indicators then
      FilterMembers(indicators, i => i != indicator, indicator);
      FilterCounts(indicators, i => i != indicator);
      Filter(indicators, i => i != indicator)
    else
      indicators + [indicator]
  }

  /** The toggle never lets an indicator be selected twice. */
  lemma ToggleKeepsNoDuplicates(indicators: seq<string>, indicator: string)
    requires NoDuplicates(indicators)
    ensures NoDuplicates(Toggled(indicators, indicator))
  {
    if indicator in indicators {
      FilterNoDuplicates(indicators, i => i != indicator);
    }
  }

  /** Selecting an indicator and then deselecting it gives back the list. */
  lemma {:induction false} ToggleTwiceRestores(indicators: seq<string>, indicator: string)
    requires indicator !in indicators
    ensures Toggled(Toggled(indicators, indicator), indicator) == indicators
  {
    var added := indicators + [indicator];
    assert indicator in added;
    assert added[..|added| - 1] == indicators;
    assert Filter(added, i => i != indicator) == Filter(indicators, i => i != indicator);
  }

  /** Which effect `handleGenerate` has: an error toast, or a call of the store's
      `generateStrategy` with this request. */
  datatype GenerateAction = ShowError(message: string) | CallGenerate(request: AiRequest)

  /** The notice shown once the call settles. */
  datatype Toast = SuccessToast(message: string) | ErrorToast(message: string)

  /** The page's form state. */
  class GeneratorForm {
    var prompt: string
    var market: string
    var timeframe: string
    var riskLevel: RiskLevel
    var indicators: seq<string>
    var generatedStrategy: Option<AiResponse>

    /** The initial state: forex, one hour, medium risk, nothing selected. */
    constructor()
      ensures prompt == "" && market == "forex" && timeframe == "1h" && riskLevel == Medium
      ensures indicators == [] && generatedStrategy == None
    {
      prompt, market, timeframe, riskLevel := "", "forex", "1h", Medium;
      indicators, generatedStrategy := [], None;
    }

    /** `handleIndicatorToggle`. */
    method ToggleIndicator(indicator: string)
      modifies this
      ensures indicators == Toggled(old(indicators), indicator)
      ensures prompt == old(prompt) && market == old(market) && timeframe == old(timeframe)
      ensures riskLevel == old(riskLevel) && generatedStrategy == old(generatedStrategy)
    {
      indicators := Toggled(indicators, indicator);
    }

    /** `handleGenerate`: a prompt of white space only is refused before any
        call; otherwise the request carries the prompt as typed and the form's
        market, timeframe, indicators and risk level. */
    method HandleGenerate() returns (action: GenerateAction)
      ensures action.ShowError? <==> forall i :: 0 <= i < |prompt| ==> IsWhitespace(prompt[i])
      ensures action.ShowError? ==> action.message == DescribeYourStrategy
      ensures action.CallGenerate? ==>
                action.request.prompt == prompt
                && action.request.context
                   == Some(AiContext(Some(market), Some(timeframe), Some(indicators), Some(RiskText(riskLevel))))
    {
      TrimEmptyIff(prompt);
      if Trim(prompt) == "" {
        return ShowError(DescribeYourStrategy);
      }
      var context := AiContext(Some(market), Some(timeframe), Some(indicators), Some(RiskText(riskLevel)));
      action := CallGenerate(AiRequest(prompt, Some(context)));
    }

    /** The rest of `handleGenerate` once the store's promise settles. */
    method ReceiveGeneration(outcome: Outcome<AiResponse>) returns (toast: Toast)
      modifies this
      ensures outcome.Resolved? ==> generatedStrategy == Some(outcome.value) && toast == SuccessToast(GenerationSucceeded)
      ensures outcome.Rejected? ==> generatedStrategy == old(generatedStrategy) && toast == ErrorToast(GenerationError)
      ensures prompt == old(prompt) && indicators == old(indicators)
      ensures market == old(market) && timeframe == old(timeframe) && riskLevel == old(riskLevel)
    {
      match outcome
      case Resolved(response) =>
        generatedStrategy := Some(response);
        toast := SuccessToast(GenerationSucceeded);
      case Rejected(_) =>
        toast := ErrorToast(GenerationError);
    }

    /** `disabled={isLoading || !prompt.trim()}`, negated: the button works only
        when nothing is loading and the prompt has a character that is not white space. */
    function CanGenerate(isLoading: bool): (enabled: bool)
      reads this
      ensures enabled <==> !isLoading && exists i :: 0 <= i < |prompt| && !IsWhitespace(prompt[i])
    {
      TrimEmptyIff(prompt);
      !isLoading && Trim(prompt) != ""
    }
  }

  /** A prompt the page lets through also passes the server's guard, which
      only refuses an absent or empty prompt; the server alone would accept
      a prompt of spaces. */
  lemma PageGuardImpliesServerGuard(prompt: string)
    requires exists i :: 0 <= i < |prompt| && !IsWhitespace(prompt[i])
    ensures !Missing(Some(prompt))
    ensures !Missing(Some("   ")) && Trim("   ") == ""
  {
    TrimEmptyIff("   ");
  }

  /** The context the page sends always names the risk level and the indicator
      list, so the keyword matcher's confidence before the cap is its keyword
      part plus 5 for the low risk level and 2 per selected indicator. */
  lemma PageContextConfidence(prompt: string, market: string, timeframe: string,
                              indicators: seq<string>, level: RiskLevel)
    ensures var context := Some(AiContext(Some(market), Some(timeframe), Some(indicators), Some(RiskText(level))));
            AiRoutes.RawConfidence(ToLower(prompt), context)
            == AiRoutes.KeywordConfidence(ToLower(prompt)) + (if level == Low then 5 else 0) + 2 * |indicators|
  {
    assert RiskText(Medium) != "low" by { assert RiskText(Medium)[0] == 'm'; }
    assert RiskText(High) != "low" by { assert RiskText(High)[0] == 'h'; }
  }
}
