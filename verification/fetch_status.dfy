/**
 * What the fetch slices share: the `idle → loading → succeeded | failed` status of one
 * resource kept with its data and its error, the reducer cases for the three actions of an
 * async thunk, and the error text an axios failure is turned into.
 */
module FetchStatus {
  import opened Js

  datatype Status = Idle | Loading | Succeeded | Failed

  /** A JSON value a server sent, kept as is. */
  datatype Json = JNull | JBool(b: bool) | JNumber(n: int) | JString(s: string) | JArray(items: seq<Json>) | JObject(fields: seq<(string, Json)>)

  /** An error field: `{}` until a rejection stores a message in it. */
  datatype ErrorValue = EmptyObject | Message(text: string)

  /**
   * The actions a thunk dispatches: `pending`, `fulfilled` with the thunk's value, and
   * `rejected` with its `payload` (the value passed to `rejectWithValue`) and `error.message`.
   */
  datatype Action<T> = Pending | Fulfilled(value: T) | Rejected(payload: Option<string>, errorMessage: Option<string>)

  /** One resource of a slice: its data, its status and its error. */
  datatype Resource<T> = Resource(data: T, status: Status, error: ErrorValue)

  function Initial<T>(data: T): (r: Resource<T>)
    ensures r.status == Idle && r.data == data && r.error == EmptyObject
  {
    Resource(data, Idle, EmptyObject)
  }

  /**
   * The three reducer cases of one resource: `pending` sets "loading", `fulfilled` stores the
   * value and sets "succeeded", `rejected` sets "failed" and stores the error the slice derives
   * from the action.
   */
  function Apply<T>(r: Resource<T>, a: Action<T>, onReject: Action<T> -> ErrorValue): Resource<T> {
    if a.Pending? then r.(status := Loading)
    else if a.Fulfilled? then r.(data := a.value, status := Succeeded)
    else r.(status := Failed, error := onReject(a))
  }

  /** A run of actions on one resource, oldest first. */
  function ApplyAll<T>(r: Resource<T>, actions: seq<Action<T>>, onReject: Action<T> -> ErrorValue): Resource<T> {
    if |actions| == 0 then r
    else Apply(ApplyAll(r, actions[..|actions| - 1], onReject), actions[|actions| - 1], onReject)
  }

  /** The status each action leaves, whatever the status before it. */
  function StatusAfter<T>(a: Action<T>): Status {
    match a
    case Pending => Loading
    case Fulfilled(_) => Succeeded
    case Rejected(_, _) => Failed
  }

  /** The status is set by the last action alone; with no action it is the initial one. */
  lemma {:induction false} StatusFollowsLast<T>(r: Resource<T>, actions: seq<Action<T>>, onReject: Action<T> -> ErrorValue)
    ensures |actions| == 0 ==> ApplyAll(r, actions, onReject).status == r.status
    ensures |actions| > 0 ==> ApplyAll(r, actions, onReject).status == StatusAfter(actions[|actions| - 1])
  {
  }

  /**
   * The data is the value of the last `fulfilled` action; without one it is the initial data:
   * `pending` and `rejected` never clear it.
   */
  lemma {:induction false} DataFromLastFulfilled<T>(r: Resource<T>, actions: seq<Action<T>>, onReject: Action<T> -> ErrorValue, i: int)
    requires -1 <= i < |actions|
    requires i >= 0 ==> actions[i].Fulfilled?
    requires forall j :: i < j < |actions| ==> !actions[j].Fulfilled?
    ensures ApplyAll(r, actions, onReject).data == if i >= 0 then actions[i].value else r.data
    decreases |actions|
  {
    if |actions| > 0 && i < |actions| - 1 {
      DataFromLastFulfilled(r, actions[..|actions| - 1], onReject, i);
    }
  }

  /** The error is written by the last `rejected` action only; until one arrives it is the initial error. */
  lemma {:induction false} ErrorFromLastRejected<T>(r: Resource<T>, actions: seq<Action<T>>, onReject: Action<T> -> ErrorValue, i: int)
    requires -1 <= i < |actions|
    requires i >= 0 ==> actions[i].Rejected?
    requires forall j :: i < j < |actions| ==> !actions[j].Rejected?
    ensures ApplyAll(r, actions, onReject).error == if i >= 0 then onReject(actions[i]) else r.error
    decreases |actions|
  {
    if |actions| > 0 && i < |actions| - 1 {
      ErrorFromLastRejected(r, actions[..|actions| - 1], onReject, i);
    }
  }

  /** What an axios call gave: the response data, or a failure with its optional messages. */
  datatype AxiosFailure = AxiosFailure(responseMessage: Option<string>, message: Option<string>)
  datatype Fetched<T> = Got(data: T) | Errored(failure: AxiosFailure)

  /** How a thunk settles: with a value, or through `rejectWithValue` with a message. */
  datatype Settled<T> = Resolved(value: T) | RejectedWith(reason: string)

  /** `err.response?.data?.message ?? err.message ?? fallback`. */
  function ErrorText(e: AxiosFailure, fallback: string): string {
    e.responseMessage.GetOr(e.message.GetOr(fallback))
  }

  /**
   * The error text is the first DEFINED message, so an empty one is kept rather than
   * skipped; the fallback is used only when neither message is defined.
   */
  lemma ErrorTextFirstDefined(e: AxiosFailure, fallback: string)
    ensures e.responseMessage.Some? ==> ErrorText(e, fallback) == e.responseMessage.value
    ensures e.responseMessage.None? && e.message.Some? ==> ErrorText(e, fallback) == e.message.value
    ensures ErrorText(e, fallback) == fallback <== e.responseMessage.None? && e.message.None?
    ensures e.responseMessage == Some("") ==> ErrorText(e, fallback) == ""
  {
  }

  /** The `try`/`catch` of a thunk around its axios call. */
  function Settle<T>(f: Fetched<T>, fallback: string): (r: Settled<T>)
    ensures f.Got? <==> r.Resolved?
  {
    if f.Got? then Resolved(f.data) else RejectedWith(ErrorText(f.failure, fallback))
  }

  /** `x || fallback` on a rejected action's payload: a missing or empty payload gives way. */
  function PayloadOr(payload: Option<string>, fallback: ErrorValue): (r: ErrorValue)
    ensures payload.Some? && payload.value != "" ==> r == Message(payload.value)
    ensures payload.None? || payload.value == "" ==> r == fallback
  {
    if payload.Some? && payload.value != "" then Message(payload.value) else fallback
  }
}
