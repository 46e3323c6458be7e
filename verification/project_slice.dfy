/** The `project` slice: creating, listing and loading saved workflows. */
module ProjectSlice {
  import opened Js
  import opened FlowTypes
  import opened FetchStatus

  /** A saved workflow: its flow and the node types it uses (its timestamps are not modelled). */
  datatype Project = Project(id: string, name: string, flow: FlowState, types: seq<string>)

  const CreateFallback := "Something went wrong while creating project"
  const AllFallback := "Something went wrong while getting projects"
  const GetFallback := "Something went wrong while getting project"

  /** `fetchCreateProject`, `fetchAllProjects` and `fetchProject`, each with its own fallback text. */
  function CreateProject(f: Fetched<Json>): Settled<Json> {
    Settle(f, CreateFallback)
  }

  function AllProjects(f: Fetched<seq<Project>>): Settled<seq<Project>> {
    Settle(f, AllFallback)
  }

  function GetProject(f: Fetched<Project>): Settled<Project> {
    Settle(f, GetFallback)
  }

  /** When the failure carries no message at all, each thunk rejects with its own fallback. */
  lemma ThunkFallbacks(e: AxiosFailure)
    requires e.responseMessage.None? && e.message.None?
    ensures CreateProject(Errored(e)) == RejectedWith(CreateFallback)
    ensures AllProjects(Errored(e)) == RejectedWith(AllFallback)
    ensures GetProject(Errored(e)) == RejectedWith(GetFallback)
  {
  }

  /** `action.payload || {}`. */
  function RejectedError<T>(a: Action<T>): ErrorValue {
    PayloadOr(if a.Rejected? then a.payload else None, EmptyObject)
  }

  class ProjectStore {
    var createProject: Resource<Json>
    var allProjects: Resource<seq<Project>>
    /** The loaded project; `None` is the initial `{}`. */
    var project: Resource<Option<Project>>

    /** The initial state: nothing created, no projects, no project, all "idle". */
    constructor ()
      ensures createProject == Initial(JObject([])) && allProjects == Initial([]) && project == Initial(None)
    {
      createProject := Resource(JObject([]), Idle, EmptyObject);
      allProjects := Resource([], Idle, EmptyObject);
      project := Resource(None, Idle, EmptyObject);
    }

    /** `resetProjectStatus`: only the loaded project's status goes back to "idle". */
    method ResetProjectStatus()
      modifies this
      ensures project == old(project).(status := Idle)
      ensures createProject == old(createProject) && allProjects == old(allProjects)
    {
      project := project.(status := Idle);
    }

    method CreateCase(a: Action<Json>)
      modifies this
      ensures createProject == Apply(old(createProject), a, RejectedError)
      ensures allProjects == old(allProjects) && project == old(project)
    {
      if a.Pending? {
        createProject := createProject.(status := Loading);
      } else if a.Fulfilled? {
        createProject := createProject.(status := Succeeded, data := a.value);
      } else {
        createProject := createProject.(status := Failed, error := PayloadOr(a.payload, EmptyObject));
      }
    }

    method AllCase(a: Action<seq<Project>>)
      modifies this
      ensures allProjects == Apply(old(allProjects), a, RejectedError)
      ensures createProject == old(createProject) && project == old(project)
    {
      if a.Pending? {
        allProjects := allProjects.(status := Loading);
      } else if a.Fulfilled? {
        allProjects := allProjects.(status := Succeeded, data := a.value);
      } else {
        allProjects := allProjects.(status := Failed, error := PayloadOr(a.payload, EmptyObject));
      }
    }

    /** The fulfilled case stores the project the thunk resolved with. */
    method GetCase(a: Action<Project>)
      modifies this
      ensures project == Apply(old(project), Lift(a), RejectedError)
      ensures createProject == old(createProject) && allProjects == old(allProjects)
    {
      if a.Pending? {
        project := project.(status := Loading);
      } else if a.Fulfilled? {
        project := project.(status := Succeeded, data := Some(a.value));
      } else {
        project := project.(status := Failed, error := PayloadOr(a.payload, EmptyObject));
      }
    }
  }

  /** An action on a project, seen by the field that holds an optional project. */
  function Lift(a: Action<Project>): Action<Option<Project>> {
    match a
    case Pending => Pending
    case Fulfilled(p) => Fulfilled(Some(p))
    case Rejected(payload, m) => Rejected(payload, m)
  }

  /** Once a project was fetched, "succeeded" always comes with a project to show. */
  lemma SucceededHasProject(r: Resource<Option<Project>>, actions: seq<Action<Project>>)
    requires r.status == Succeeded ==> r.data.Some?
    ensures var lifted := seq(|actions|, i requires 0 <= i < |actions| => Lift(actions[i]));
            var after := ApplyAll(r, lifted, RejectedError);
            after.status == Succeeded ==> after.data.Some?
  {
    var lifted := seq(|actions|, i requires 0 <= i < |actions| => Lift(actions[i]));
    LiftedKeepsProject(r, lifted);
  }

  /** Every lifted fulfilled action carries a project. */
  lemma {:induction false} LiftedKeepsProject(r: Resource<Option<Project>>, actions: seq<Action<Option<Project>>>)
    requires r.status == Succeeded ==> r.data.Some?
    requires forall i :: 0 <= i < |actions| && actions[i].Fulfilled? ==> actions[i].value.Some?
    ensures ApplyAll(r, actions, RejectedError).status == Succeeded ==> ApplyAll(r, actions, RejectedError).data.Some?
  {
    if |actions| > 0 {
      LiftedKeepsProject(r, actions[..|actions| - 1]);
    }
  }
}
