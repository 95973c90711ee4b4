/**
 * `VitaminViewModel` (VitaminViewModel.kt): a single UI state moved by
 * `fetchVitamins`. The vitamin record itself is left abstract: the view model
 * only passes the list through, so the state is generic in it.
 */
module Vitamins {
  import opened Remote

  const LoadErrorPrefix := "Lỗi tải dữ liệu: "

  /** `VitaminUiState`. */
  datatype VitaminUiState<V> = Loading | Success(vitamins: seq<V>) | Error(message: string) | Idle

  /** What `fetchVitamins` ends in, given the outcome of `getVitamins()`. */
  function FetchResult<V>(outcome: Outcome<seq<V>>): (s: VitaminUiState<V>)
    ensures s.Success? <==> outcome.Ok?
    ensures s.Success? ==> s.vitamins == outcome.value
    ensures s.Error? <==> outcome.Fail?
    ensures s.Error? ==> s.message == LoadErrorPrefix + outcome.failure.message
  {
    match outcome
    case Ok(list) => Success(list)
    case Fail(e) => Error(LoadErrorPrefix + e.message)
  }

  class VitaminViewModel<V> {
    var uiState: VitaminUiState<V>

    /**
     * The declared start is Idle, but `init` calls `fetchVitamins` at once, so
     * a new view model is already loading.
     */
    constructor ()
      ensures uiState == Loading
    {
      uiState := Idle;
      new;
      FetchVitamins();
    }

    /** The start of `fetchVitamins`: Loading, whatever the state was. */
    method FetchVitamins()
      modifies this
      ensures uiState == Loading
    {
      uiState := Loading;
    }

    /** The end of `fetchVitamins`: the list exactly as returned, or the error. */
    method CompleteFetch(outcome: Outcome<seq<V>>)
      modifies this
      ensures uiState == FetchResult(outcome)
    {
      match outcome {
        case Ok(list) => uiState := Success(list);
        case Fail(e) => uiState := Error(LoadErrorPrefix + e.message);
      }
    }
  }

  /** A retried fetch ends where a first fetch with the same outcome would, whatever came before. */
  method RefetchForgetsPrevious<V>(vm: VitaminViewModel<V>, outcome: Outcome<seq<V>>)
    modifies vm
    ensures vm.uiState == FetchResult(outcome)
    ensures outcome.Ok? ==> vm.uiState.Success? && vm.uiState.vitamins == outcome.value
  {
    vm.FetchVitamins();
    vm.CompleteFetch(outcome);
  }
}
