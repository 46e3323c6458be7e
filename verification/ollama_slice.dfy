/** The `ollama` slice: the text backend's model list and its fetch status. */
module OllamaSlice {
  import opened Js
  import opened FetchStatus

  datatype ModelDetails = ModelDetails(format: string, family: string, parameterSize: string, quantizationLevel: string)
  datatype OllamaModel = OllamaModel(name: string, modifiedAt: string, size: int, digest: string, details: ModelDetails)

  /** The body of `/api/tags`. */
  datatype Tags = Tags(models: seq<OllamaModel>)

  const NotConfigured := "Ollama base url is not set"
  const CatchFallback := "Something went wrong while getting all the products"

  /** `fetchOllamaModels`: rejects without a request when unconfigured; resolves with the `models` of the reply. */
  function Thunk(configured: bool, f: Fetched<Tags>): (r: Settled<seq<OllamaModel>>)
    ensures r.Resolved? <==> configured && f.Got?
  {
    if !configured then RejectedWith(NotConfigured)
    else if f.Got? then Resolved(f.data.models)
    else RejectedWith(ErrorText(f.failure, CatchFallback))
  }

  /** What the thunk settles with in each case. */
  lemma ThunkOutcomes(configured: bool, f: Fetched<Tags>)
    ensures !configured ==> Thunk(configured, f) == RejectedWith(NotConfigured)
    ensures configured && f.Got? ==> Thunk(configured, f) == Resolved(f.data.models)
    ensures configured && f.Errored? ==> Thunk(configured, f) == RejectedWith(ErrorText(f.failure, CatchFallback))
  {
  }

  /** `action.payload || "Something went wrong"`. */
  function RejectedError(a: Action<seq<OllamaModel>>): ErrorValue {
    PayloadOr(if a.Rejected? then a.payload else None, Message("Something went wrong"))
  }

  class OllamaStore {
    var models: Resource<seq<OllamaModel>>

    /** The initial state: no models, "idle". */
    constructor ()
      ensures models == Initial([])
    {
      models := Resource([], Idle, EmptyObject);
    }

    /** The three cases for `fetchOllamaModels`. */
    method ModelsCase(a: Action<seq<OllamaModel>>)
      modifies this
      ensures models == Apply(old(models), a, RejectedError)
    {
      if a.Pending? {
        models := models.(status := Loading);
      } else if a.Fulfilled? {
        models := models.(status := Succeeded, data := a.value);
      } else {
        models := models.(status := Failed, error := if a.payload.Some? && a.payload.value != "" then Message(a.payload.value) else Message("Something went wrong"));
      }
    }
  }
}
