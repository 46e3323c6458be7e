/** The `sd` slice: the image backend's checkpoints, samplers and schedulers, each with its own fetch status. */
module SdSlice {
  import opened Js
  import opened FetchStatus

  datatype SdModel = SdModel(title: string, modelName: string, hash: string, sha256: string, filename: string, config: string)
  datatype Sampler = Sampler(name: string, aliases: seq<string>)
  datatype Scheduler = Scheduler(name: string, displayName: string, needInnerModel: bool)

  const NotConfigured := "SD base url is not set"
  const CatchFallback := "Something went wrong while getting all the products"

  /**
   * `fetchSdModels`, `fetchSamplers` and `fetchSchedulers`: without an sdforge entry in the
   * settings they reject at once; otherwise they settle on the axios call.
   */
  function Thunk<T>(configured: bool, f: Fetched<T>): Settled<T> {
    if !configured then RejectedWith(NotConfigured) else Settle(f, CatchFallback)
  }

  /** The thunks reject without a request when unconfigured, and with the first defined error text when the call fails. */
  lemma ThunkOutcomes<T>(configured: bool, f: Fetched<T>)
    ensures !configured ==> Thunk(configured, f) == RejectedWith(NotConfigured)
    ensures configured && f.Got? ==> Thunk(configured, f) == Resolved(f.data)
    ensures configured && f.Errored? ==>
              Thunk(configured, f) == RejectedWith(ErrorText(f.failure, CatchFallback))
    ensures configured && f.Errored? && f.failure.responseMessage.None? && f.failure.message.None? ==>
              Thunk(configured, f) == RejectedWith(CatchFallback)
  {
  }

  /** `action.error.message ?? fallback`: this slice stores the action's error message, not its payload. */
  function ErrorMessageOr<T>(fallback: string, a: Action<T>): ErrorValue {
    Message(if a.Rejected? then a.errorMessage.GetOr(fallback) else fallback)
  }

  function ModelsError(a: Action<seq<SdModel>>): ErrorValue {
    ErrorMessageOr("Failed to fetch models", a)
  }

  function SamplersError(a: Action<seq<Sampler>>): ErrorValue {
    ErrorMessageOr("Failed to fetch samplers", a)
  }

  function SchedulersError(a: Action<seq<Scheduler>>): ErrorValue {
    ErrorMessageOr("Failed to fetch schedulers", a)
  }

  /** A rejection stores the error message when there is one and the resource's own fallback otherwise. */
  lemma RejectionMessages(payload: Option<string>, m: Option<string>)
    ensures ModelsError(Rejected(payload, m)) == Message(if m.Some? then m.value else "Failed to fetch models")
    ensures SamplersError(Rejected(payload, m)) == Message(if m.Some? then m.value else "Failed to fetch samplers")
    ensures SchedulersError(Rejected(payload, m)) == Message(if m.Some? then m.value else "Failed to fetch schedulers")
  {
  }

  class SdStore {
    var models: Resource<seq<SdModel>>
    var samplers: Resource<seq<Sampler>>
    var schedulers: Resource<seq<Scheduler>>

    /** The initial state: three empty lists, all "idle". */
    constructor ()
      ensures models == Initial([]) && samplers == Initial([]) && schedulers == Initial([])
    {
      models := Resource([], Idle, EmptyObject);
      samplers := Resource([], Idle, EmptyObject);
      schedulers := Resource([], Idle, EmptyObject);
    }

    /** The three cases for `fetchSdModels`; samplers and schedulers are untouched. */
    method ModelsCase(a: Action<seq<SdModel>>)
      modifies this
      ensures models == Apply(old(models), a, ModelsError)
      ensures samplers == old(samplers) && schedulers == old(schedulers)
    {
      if a.Pending? {
        models := models.(status := Loading);
      } else if a.Fulfilled? {
        models := models.(data := a.value, status := Succeeded);
      } else {
        models := models.(status := Failed, error := Message(a.errorMessage.GetOr("Failed to fetch models")));
      }
    }

    /** The three cases for `fetchSamplers`; models and schedulers are untouched. */
    method SamplersCase(a: Action<seq<Sampler>>)
      modifies this
      ensures samplers == Apply(old(samplers), a, SamplersError)
      ensures models == old(models) && schedulers == old(schedulers)
    {
      if a.Pending? {
        samplers := samplers.(status := Loading);
      } else if a.Fulfilled? {
        samplers := samplers.(data := a.value, status := Succeeded);
      } else {
        samplers := samplers.(status := Failed, error := Message(a.errorMessage.GetOr("Failed to fetch samplers")));
      }
    }

    /** The three cases for `fetchSchedulers`; models and samplers are untouched. */
    method SchedulersCase(a: Action<seq<Scheduler>>)
      modifies this
      ensures schedulers == Apply(old(schedulers), a, SchedulersError)
      ensures models == old(models) && samplers == old(samplers)
    {
      if a.Pending? {
        schedulers := schedulers.(status := Loading);
      } else if a.Fulfilled? {
        schedulers := schedulers.(data := a.value, status := Succeeded);
      } else {
        schedulers := schedulers.(status := Failed, error := Message(a.errorMessage.GetOr("Failed to fetch schedulers")));
      }
    }
  }
}
