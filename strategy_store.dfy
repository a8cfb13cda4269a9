/**
 * The client's strategy store (src/stores/useStrategyStore.ts): the loaded
 * strategies, the strategy being edited, the backtest history, a loading flag
 * and an error message, changed by one action per server call. Each call's
 * result is an input of the action.
 */
module StrategyStore {
  import opened Wrappers
  import opened Seqs
  import opened Domain
  import opened ClientApi
  import StrategyRoutes

  const LoadListFailed := "Erreur lors du chargement des stratégies"
  const LoadOneFailed := "Erreur lors du chargement de la stratégie"
  const CreateFailed := "Erreur lors de la création de la stratégie"
  const UpdateFailed := "Erreur lors de la mise à jour de la stratégie"
  const DeleteFailed := "Erreur lors de la suppression de la stratégie"
  const DuplicateFailed := "Erreur lors de la duplication de la stratégie"
  const GenerateFailed := "Erreur lors de la génération de la stratégie"
  const BacktestFailed := "Erreur lors du backtest"
  const HistoryFailed := "Erreur lors du chargement de l'historique"

  // ---------------------------------------------------------------------
  // The list updates
  // ---------------------------------------------------------------------

  /** `strategies.map(s => s.id === id ? updated : s)`: same length, each entry
      with that id replaced, every other entry kept in its place. */
  function ReplaceById(strategies: seq<Strategy>, id: Id, updated: Strategy): (r: seq<Strategy>)
    ensures |r| == |strategies|
    ensures forall i :: 0 <= i < |r| && strategies[i].id == id ==> r[i] == updated
    ensures forall i :: 0 <= i < |r| && strategies[i].id != id ==> r[i] == strategies[i]
  {
    seq(|strategies|, i requires 0 <= i < |strategies| => if strategies[i].id == id then updated else strategies[i])
  }

  /** `strategies.filter(s => s.id !== id)`: every entry with that id goes, the
      others stay in order and as many times as before. */
  function RemoveById(strategies: seq<Strategy>, id: Id): (r: seq<Strategy>)
    ensures SubsequenceOf(r, strategies)
    ensures forall i :: 0 <= i < |r| ==> r[i].id != id
    ensures forall i :: 0 <= i < |strategies| && strategies[i].id != id ==> strategies[i] in r
    ensures multiset(r) <= multiset(strategies)
    ensures forall x: Strategy :: x.id != id ==> multiset(r)[x] == multiset(strategies)[x]
  {
    FilterCounts(strategies, (s: Strategy) => s.id != id);
    Filter(strategies, (s: Strategy) => s.id != id)
  }

  lemma ReplaceByIdAppend(init: seq<Strategy>, last: Strategy, id: Id, updated: Strategy)
    ensures ReplaceById(init + [last], id, updated)
            == ReplaceById(init, id, updated) + [if last.id == id then updated else last]
  {
  }

  /** Removing after a replacement by the same id is removing: the replaced
      entries go, and nothing else differs. */
  lemma {:induction false} RemoveAfterReplace(strategies: seq<Strategy>, id: Id, updated: Strategy)
    requires updated.id == id
    ensures RemoveById(ReplaceById(strategies, id, updated), id) == RemoveById(strategies, id)
    decreases |strategies|
  {
    if |strategies| > 0 {
      var init, last := strategies[..|strategies| - 1], strategies[|strategies| - 1];
      assert strategies == init + [last];
      ReplaceByIdAppend(init, last, id, updated);
      var replaced := ReplaceById(strategies, id, updated);
      assert replaced[..|replaced| - 1] == ReplaceById(init, id, updated);
      RemoveAfterReplace(init, id, updated);
    }
  }

  /** Removing an id that no entry has leaves the list as it is. */
  lemma RemoveAbsent(strategies: seq<Strategy>, id: Id)
    requires forall i :: 0 <= i < |strategies| ==> strategies[i].id != id
    ensures RemoveById(strategies, id) == strategies
  {
  }

  /** Removing the id of an appended entry also removes the entry: a create or
      duplicate followed by a delete of the new id gives back the list with that id removed. */
  lemma {:induction false} RemoveAfterAppend(strategies: seq<Strategy>, added: Strategy)
    ensures RemoveById(strategies + [added], added.id) == RemoveById(strategies, added.id)
  {
    var xs := strategies + [added];
    assert xs[..|xs| - 1] == strategies;
  }

  // ---------------------------------------------------------------------
  // The store
  // ---------------------------------------------------------------------

  /** The zustand store with its five fields. */
  class Store {
    var strategies: seq<Strategy>
    var currentStrategy: Option<Strategy>
    var backtestResults: seq<BacktestResult>
    var isLoading: bool
    var error: Option<string>

    constructor()
      ensures strategies == [] && currentStrategy == None && backtestResults == []
      ensures !isLoading && error == None
    {
      strategies, currentStrategy, backtestResults := [], None, [];
      isLoading, error := false, None;
    }

    /** `set({ isLoading: true, error: null })`, the first step of every call. */
    method BeginRequest()
      modifies this
      ensures isLoading && error == None
      ensures strategies == old(strategies) && currentStrategy == old(currentStrategy)
      ensures backtestResults == old(backtestResults)
    {
      isLoading, error := true, None;
    }

    /** The `catch` of an action: the error text is recorded and loading stops. */
    method Fail(message: Option<string>, fallback: string)
      modifies this
      ensures !isLoading && error == Some(ErrorText(message, fallback))
      ensures strategies == old(strategies) && currentStrategy == old(currentStrategy)
      ensures backtestResults == old(backtestResults)
    {
      error, isLoading := Some(ErrorText(message, fallback)), false;
    }

    /** `loadStrategies`. An answer without success or data leaves the store
        loading, with nothing else changed. */
    method LoadStrategies(result: ApiResult<StrategyRoutes.StrategyPage>)
      modifies this
      ensures currentStrategy == old(currentStrategy) && backtestResults == old(backtestResults)
      ensures Delivered(result) ==>
                strategies == result.data.value.data && !isLoading && error == None
      ensures result.Answer? && !Delivered(result) ==>
                strategies == old(strategies) && isLoading && error == None
      ensures result.Failure? ==>
                strategies == old(strategies) && !isLoading
                && error == Some(ErrorText(result.message, LoadListFailed))
    {
      BeginRequest();
      match result
      case Failure(message) =>
        Fail(message, LoadListFailed);
      case Answer(success, data) =>
        if success && data.Some? {
          strategies, isLoading := data.value.data, false;
        }
    }

    /** `loadStrategy`. */
    method LoadStrategy(result: ApiResult<Strategy>)
      modifies this
      ensures strategies == old(strategies) && backtestResults == old(backtestResults)
      ensures Delivered(result) ==>
                currentStrategy == result.data && !isLoading && error == None
      ensures result.Answer? && !Delivered(result) ==>
                currentStrategy == old(currentStrategy) && isLoading && error == None
      ensures result.Failure? ==>
                currentStrategy == old(currentStrategy) && !isLoading
                && error == Some(ErrorText(result.message, LoadOneFailed))
    {
      BeginRequest();
      match result
      case Failure(message) =>
        Fail(message, LoadOneFailed);
      case Answer(success, data) =>
        if success && data.Some? {
          currentStrategy, isLoading := data, false;
        }
    }

    /** What `createStrategy` and `duplicateStrategy` share: append the returned
        strategy, or record the error and reject. */
    method AppendReturned(result: ApiResult<Strategy>, fallback: string) returns (outcome: Outcome<Strategy>)
      modifies this
      ensures currentStrategy == old(currentStrategy) && backtestResults == old(backtestResults)
      ensures !isLoading
      ensures Delivered(result) ==>
                outcome == Resolved(result.data.value)
                && strategies == old(strategies) + [result.data.value] && error == None
      ensures !Delivered(result) ==>
                var text := if result.Failure? then ErrorText(result.message, fallback) else fallback;
                outcome == Rejected(text) && strategies == old(strategies) && error == Some(text)
    {
      BeginRequest();
      match result
      case Failure(message) =>
        Fail(message, fallback);
        outcome := Rejected(ErrorText(message, fallback));
      case Answer(success, data) =>
        if success && data.Some? {
          strategies, isLoading := strategies + [data.value], false;
          outcome := Resolved(data.value);
        } else {
          Fail(Some(fallback), fallback);
          outcome := Rejected(fallback);
        }
    }

    /** `createStrategy`. */
    method Create(result: ApiResult<Strategy>) returns (outcome: Outcome<Strategy>)
      modifies this
      ensures currentStrategy == old(currentStrategy) && backtestResults == old(backtestResults)
      ensures !isLoading
      ensures Delivered(result) ==>
                outcome == Resolved(result.data.value)
                && strategies == old(strategies) + [result.data.value] && error == None
      ensures !Delivered(result) ==>
                var text := if result.Failure? then ErrorText(result.message, CreateFailed) else CreateFailed;
                outcome == Rejected(text) && strategies == old(strategies) && error == Some(text)
    {
      outcome := AppendReturned(result, CreateFailed);
    }

    /** `duplicateStrategy`. */
    method Duplicate(result: ApiResult<Strategy>) returns (outcome: Outcome<Strategy>)
      modifies this
      ensures currentStrategy == old(currentStrategy) && backtestResults == old(backtestResults)
      ensures !isLoading
      ensures Delivered(result) ==>
                outcome == Resolved(result.data.value)
                && strategies == old(strategies) + [result.data.value] && error == None
      ensures !Delivered(result) ==>
                var text := if result.Failure? then ErrorText(result.message, DuplicateFailed) else DuplicateFailed;
                outcome == Rejected(text) && strategies == old(strategies) && error == Some(text)
    {
      outcome := AppendReturned(result, DuplicateFailed);
    }

    /** `updateStrategy(id, …)`: every entry with that id is replaced, and the
        current strategy only if it has that id. */
    method Update(id: Id, result: ApiResult<Strategy>)
      modifies this
      ensures backtestResults == old(backtestResults)
      ensures Delivered(result) ==>
                var updated := result.data.value;
                strategies == ReplaceById(old(strategies), id, updated)
                && currentStrategy == (if old(currentStrategy).Some? && old(currentStrategy).value.id == id
                                       then Some(updated) else old(currentStrategy))
                && !isLoading && error == None
      ensures result.Answer? && !Delivered(result) ==>
                strategies == old(strategies) && currentStrategy == old(currentStrategy)
                && isLoading && error == None
      ensures result.Failure? ==>
                strategies == old(strategies) && currentStrategy == old(currentStrategy)
                && !isLoading && error == Some(ErrorText(result.message, UpdateFailed))
    {
      BeginRequest();
      match result
      case Failure(message) =>
        Fail(message, UpdateFailed);
      case Answer(success, data) =>
        if success && data.Some? {
          var updated := data.value;
          strategies := ReplaceById(strategies, id, updated);
          if currentStrategy.Some? && currentStrategy.value.id == id {
            currentStrategy := Some(updated);
          }
          isLoading := false;
        }
    }

    /** `deleteStrategy(id)`: only `success` is looked at. */
    method Delete(id: Id, result: ApiResult<()>)
      modifies this
      ensures backtestResults == old(backtestResults)
      ensures result.Answer? && result.success ==>
                strategies == RemoveById(old(strategies), id)
                && currentStrategy == (if old(currentStrategy).Some? && old(currentStrategy).value.id == id
                                       then None else old(currentStrategy))
                && !isLoading && error == None
      ensures result.Answer? && !result.success ==>
                strategies == old(strategies) && currentStrategy == old(currentStrategy)
                && isLoading && error == None
      ensures result.Failure? ==>
                strategies == old(strategies) && currentStrategy == old(currentStrategy)
                && !isLoading && error == Some(ErrorText(result.message, DeleteFailed))
    {
      BeginRequest();
      match result
      case Failure(message) =>
        Fail(message, DeleteFailed);
      case Answer(success, _) =>
        if success {
          strategies := RemoveById(strategies, id);
          if currentStrategy.Some? && currentStrategy.value.id == id {
            currentStrategy := None;
          }
          isLoading := false;
        }
    }

    /** `generateStrategy`: hands the generated strategy back without storing it. */
    method Generate(result: ApiResult<AiResponse>) returns (outcome: Outcome<AiResponse>)
      modifies this
      ensures strategies == old(strategies) && currentStrategy == old(currentStrategy)
      ensures backtestResults == old(backtestResults) && !isLoading
      ensures Delivered(result) ==> outcome == Resolved(result.data.value) && error == None
      ensures !Delivered(result) ==>
                var text := if result.Failure? then ErrorText(result.message, GenerateFailed) else GenerateFailed;
                outcome == Rejected(text) && error == Some(text)
    {
      BeginRequest();
      match result
      case Failure(message) =>
        Fail(message, GenerateFailed);
        outcome := Rejected(ErrorText(message, GenerateFailed));
      case Answer(success, data) =>
        if success && data.Some? {
          isLoading := false;
          outcome := Resolved(data.value);
        } else {
          Fail(Some(GenerateFailed), GenerateFailed);
          outcome := Rejected(GenerateFailed);
        }
    }

    /** `runBacktest`: a result is appended to the history. */
    method RunBacktest(result: ApiResult<BacktestResult>) returns (outcome: Outcome<BacktestResult>)
      modifies this
      ensures strategies == old(strategies) && currentStrategy == old(currentStrategy) && !isLoading
      ensures Delivered(result) ==>
                outcome == Resolved(result.data.value)
                && backtestResults == old(backtestResults) + [result.data.value] && error == None
      ensures !Delivered(result) ==>
                var text := if result.Failure? then ErrorText(result.message, BacktestFailed) else BacktestFailed;
                outcome == Rejected(text) && backtestResults == old(backtestResults) && error == Some(text)
    {
      BeginRequest();
      match result
      case Failure(message) =>
        Fail(message, BacktestFailed);
        outcome := Rejected(ErrorText(message, BacktestFailed));
      case Answer(success, data) =>
        if success && data.Some? {
          backtestResults, isLoading := backtestResults + [data.value], false;
          outcome := Resolved(data.value);
        } else {
          Fail(Some(BacktestFailed), BacktestFailed);
          outcome := Rejected(BacktestFailed);
        }
    }

    /** `loadBacktestHistory`: the history is replaced by the server's list. */
    method LoadBacktestHistory(result: ApiResult<seq<BacktestResult>>)
      modifies this
      ensures strategies == old(strategies) && currentStrategy == old(currentStrategy)
      ensures Delivered(result) ==>
                backtestResults == result.data.value && !isLoading && error == None
      ensures result.Answer? && !Delivered(result) ==>
                backtestResults == old(backtestResults) && isLoading && error == None
      ensures result.Failure? ==>
                backtestResults == old(backtestResults) && !isLoading
                && error == Some(ErrorText(result.message, HistoryFailed))
    {
      BeginRequest();
      match result
      case Failure(message) =>
        Fail(message, HistoryFailed);
      case Answer(success, data) =>
        if success && data.Some? {
          backtestResults, isLoading := data.value, false;
        }
    }

    /** `setCurrentStrategy`: changes `currentStrategy` only. */
    method SetCurrentStrategy(strategy: Option<Strategy>)
      modifies this
      ensures currentStrategy == strategy
      ensures strategies == old(strategies) && backtestResults == old(backtestResults)
      ensures isLoading == old(isLoading) && error == old(error)
    {
      currentStrategy := strategy;
    }

    /** `clearError`: changes `error` only. */
    method ClearError()
      modifies this
      ensures error == None
      ensures strategies == old(strategies) && currentStrategy == old(currentStrategy)
      ensures backtestResults == old(backtestResults) && isLoading == old(isLoading)
    {
      error := None;
    }
  }
}
