/** The `output` slice: saving, listing and loading run outputs. */
module OutputSlice {
  import opened Js
  import opened FetchStatus

  const CreateFallback := "Something went wrong while creating output"
  const AllFallback := "Something went wrong while getting all the outputs"
  const GetFallback := "Something went wrong while getting output"

  /** `fetchCreateOutput`, `fetchAllOutputs` and `fetchGetOutput`, each with its own fallback text. */
  function CreateOutput(f: Fetched<Json>): Settled<Json> {
    Settle(f, CreateFallback)
  }

  function AllOutputs(f: Fetched<Json>): Settled<Json> {
    Settle(f, AllFallback)
  }

  function GetOutput(f: Fetched<Json>): Settled<Json> {
    Settle(f, GetFallback)
  }

  /** When the failure carries no message at all, each thunk rejects with its own fallback. */
  lemma ThunkFallbacks(e: AxiosFailure)
    requires e.responseMessage.None? && e.message.None?
    ensures CreateOutput(Errored(e)) == RejectedWith(CreateFallback)
    ensures AllOutputs(Errored(e)) == RejectedWith(AllFallback)
    ensures GetOutput(Errored(e)) == RejectedWith(GetFallback)
  {
  }

  /** `action.payload || "Something went wrong"`. */
  function RejectedError(a: Action<Json>): ErrorValue {
    PayloadOr(if a.Rejected? then a.payload else None, Message("Something went wrong"))
  }

  /** After any rejection the error is a message, never the initial `{}`. */
  lemma RejectionLeavesMessage(r: Resource<Json>, actions: seq<Action<Json>>)
    requires exists i :: 0 <= i < |actions| && actions[i].Rejected?
    ensures ApplyAll(r, actions, RejectedError).error.Message?
  {
    var i :| 0 <= i < |actions| && actions[i].Rejected?;
    var last := LastRejected(actions, i);
    ErrorFromLastRejected(r, actions, RejectedError, last);
  }

  /** The index of the last rejection, at or after `i`. */
  ghost function LastRejected(actions: seq<Action<Json>>, i: nat): (k: nat)
    requires i < |actions| && actions[i].Rejected?
    ensures i <= k < |actions| && actions[k].Rejected?
    ensures forall j :: k < j < |actions| ==> !actions[j].Rejected?
    decreases |actions| - i
  {
    if exists j :: i < j < |actions| && actions[j].Rejected? then
      var j :| i < j < |actions| && actions[j].Rejected?;
      LastRejected(actions, j)
    else i
  }

  class OutputStore {
    var createOutput: Resource<Json>
    var allOutputs: Resource<Json>
    var output: Resource<Json>

    /** The initial state: `{}`, `[]` and `{}`, all "idle". */
    constructor ()
      ensures createOutput == Initial(JObject([])) && allOutputs == Initial(JArray([])) && output == Initial(JObject([]))
    {
      createOutput := Resource(JObject([]), Idle, EmptyObject);
      allOutputs := Resource(JArray([]), Idle, EmptyObject);
      output := Resource(JObject([]), Idle, EmptyObject);
    }

    method CreateCase(a: Action<Json>)
      modifies this
      ensures createOutput == Apply(old(createOutput), a, RejectedError)
      ensures allOutputs == old(allOutputs) && output == old(output)
    {
      if a.Pending? {
        createOutput := createOutput.(status := Loading);
      } else if a.Fulfilled? {
        createOutput := createOutput.(status := Succeeded, data := a.value);
      } else {
        createOutput := createOutput.(status := Failed, error := PayloadOr(a.payload, Message("Something went wrong")));
      }
    }

    method AllCase(a: Action<Json>)
      modifies this
      ensures allOutputs == Apply(old(allOutputs), a, RejectedError)
      ensures createOutput == old(createOutput) && output == old(output)
    {
      if a.Pending? {
        allOutputs := allOutputs.(status := Loading);
      } else if a.Fulfilled? {
        allOutputs := allOutputs.(status := Succeeded, data := a.value);
      } else {
        allOutputs := allOutputs.(status := Failed, error := PayloadOr(a.payload, Message("Something went wrong")));
      }
    }

    method GetCase(a: Action<Json>)
      modifies this
      ensures output == Apply(old(output), a, RejectedError)
      ensures createOutput == old(createOutput) && allOutputs == old(allOutputs)
    {
      if a.Pending? {
        output := output.(status := Loading);
      } else if a.Fulfilled? {
        output := output.(status := Succeeded, data := a.value);
      } else {
        output := output.(status := Failed, error := PayloadOr(a.payload, Message("Something went wrong")));
      }
    }
  }
}
