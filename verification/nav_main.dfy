/**
 * The sidebar's two pieces of store logic: adding a node with at most one Start node, and
 * the gate that decides whether a fetched project replaces the canvas.
 */
module NavMain {
  import opened Js
  import opened FlowTypes
  import opened FetchStatus
  import FlowSlice
  import ProjectSlice

  const OllamaDisabled := "Ollama is not enabled. Please enable it in the settings."
  const SdDisabled := "Stable Diffusion is not enabled. Please enable it in the settings."

  predicate IsStart(n: FlowNode) {
    n.nodeType == Some("startNode")
  }

  /** `nodes.some(node => node.type === "startNode")`. */
  predicate HasStart(nodes: seq<FlowNode>) {
    exists i :: 0 <= i < |nodes| && IsStart(nodes[i])
  }

  /** `handleAddNode`: a second Start node is refused; any other request dispatches `addNode`. */
  function AddThroughNav(nodes: seq<FlowNode>, nodeType: string): seq<FlowNode> {
    if nodeType == "startNode" && HasStart(nodes) then nodes else FlowSlice.Added(nodes, nodeType)
  }

  /** The number of Start nodes. */
  function StartCount(nodes: seq<FlowNode>): nat {
    if |nodes| == 0 then 0 else StartCount(nodes[..|nodes| - 1]) + (if IsStart(nodes[|nodes| - 1]) then 1 else 0)
  }

  /** Counting agrees with `some`: there is a Start node exactly when the count is positive. */
  lemma {:induction false} HasStartCount(nodes: seq<FlowNode>)
    ensures HasStart(nodes) <==> StartCount(nodes) > 0
  {
    if |nodes| > 0 {
      var front := nodes[..|nodes| - 1];
      HasStartCount(front);
      if HasStart(front) {
        var i :| 0 <= i < |front| && IsStart(front[i]);
        assert IsStart(nodes[i]);
      }
      if HasStart(nodes) && !IsStart(nodes[|nodes| - 1]) {
        var i :| 0 <= i < |nodes| && IsStart(nodes[i]);
        assert IsStart(front[i]);
      }
    }
  }

  /** A refused request changes nothing; any other appends the node `addNode` builds. */
  lemma AddThroughNavCases(nodes: seq<FlowNode>, nodeType: string)
    ensures nodeType == "startNode" && HasStart(nodes) ==> AddThroughNav(nodes, nodeType) == nodes
    ensures !(nodeType == "startNode" && HasStart(nodes)) ==>
              AddThroughNav(nodes, nodeType) == nodes + [FlowSlice.NewNode(|nodes|, nodeType)]
  {
  }

  /** Through the sidebar, the canvas never holds more than one Start node. */
  lemma AtMostOneStart(nodes: seq<FlowNode>, nodeType: string)
    requires StartCount(nodes) <= 1
    ensures StartCount(AddThroughNav(nodes, nodeType)) <= 1
  {
    HasStartCount(nodes);
    var after := AddThroughNav(nodes, nodeType);
    if after != nodes {
      assert after[..|after| - 1] == nodes;
    }
  }

  /** `handleAddNode` over the flow store. */
  method HandleAddNode(store: FlowSlice.FlowStore, nodeType: string)
    modifies store
    ensures store.nodes == AddThroughNav(old(store.nodes), nodeType) && store.edges == old(store.edges)
  {
    if nodeType == "startNode" && HasStart(store.nodes) {
      return;
    }
    store.AddNode(nodeType);
  }

  /** The canvas and the project status the load effect reads and writes, and the error it shows. */
  datatype Loaded = Loaded(flow: FlowState, projectStatus: Status, toast: Option<string>)

  function EmptyFlow(): FlowState {
    FlowState([], [], map[])
  }

  /**
   * The load effect on a change of the project status: a fetched project whose node types need
   * a backend that is switched off is refused with an error (the text backend checked first);
   * otherwise it replaces the canvas and the status is reset; a failed fetch empties the canvas.
   * A fetched `{}` has no `types`, so the effect throws before dispatching anything.
   */
  function LoadGate(flow: FlowState, status: Status, project: Option<ProjectSlice.Project>,
                    useOllama: bool, useSdforge: bool): Loaded {
    if status == Succeeded then
      if project.None? then Loaded(flow, status, None)
      else if "ollamaNode" in project.value.types && !useOllama then Loaded(flow, status, Some(OllamaDisabled))
      else if "sdForgeNode" in project.value.types && !useSdforge then Loaded(flow, status, Some(SdDisabled))
      else Loaded(project.value.flow, Idle, None)
    else if status == Failed then Loaded(EmptyFlow(), status, None)
    else Loaded(flow, status, None)
  }

  /** The canvas is replaced by a fetched project exactly when every backend it needs is switched on. */
  lemma LoadReplacesIff(flow: FlowState, p: ProjectSlice.Project, useOllama: bool, useSdforge: bool)
    ensures var r := LoadGate(flow, Succeeded, Some(p), useOllama, useSdforge);
            (r == Loaded(p.flow, Idle, None)) <==>
              ((!("ollamaNode" in p.types) || useOllama) && (!("sdForgeNode" in p.types) || useSdforge))
  {
  }

  /** A refused project leaves the canvas and the status as they were; the text backend's error wins. */
  lemma RefusedKeepsFlow(flow: FlowState, p: ProjectSlice.Project, useOllama: bool, useSdforge: bool)
    requires ("ollamaNode" in p.types && !useOllama) || ("sdForgeNode" in p.types && !useSdforge)
    ensures var r := LoadGate(flow, Succeeded, Some(p), useOllama, useSdforge);
            && r.flow == flow && r.projectStatus == Succeeded
            && r.toast == Some(if "ollamaNode" in p.types && !useOllama then OllamaDisabled else SdDisabled)
  {
  }

  /** A failed fetch empties the canvas; other statuses leave everything alone. */
  lemma OtherStatuses(flow: FlowState, status: Status, project: Option<ProjectSlice.Project>, useOllama: bool, useSdforge: bool)
    requires status != Succeeded
    ensures status == Failed ==> LoadGate(flow, status, project, useOllama, useSdforge) == Loaded(FlowState([], [], map[]), Failed, None)
    ensures status != Failed ==> LoadGate(flow, status, project, useOllama, useSdforge) == Loaded(flow, status, None)
  {
  }

  /** The store state the effect touches. */
  class Workspace {
    var flow: FlowState
    var projectStatus: Status

    /** The effect on `[projectStatus]`. */
    method OnProjectStatus(project: Option<ProjectSlice.Project>, useOllama: bool, useSdforge: bool)
      returns (toast: Option<string>)
      modifies this
      ensures Loaded(flow, projectStatus, toast) == LoadGate(old(flow), old(projectStatus), project, useOllama, useSdforge)
    {
      toast := None;
      if projectStatus == Succeeded {
        if project.None? {
          return;
        }
        var p := project.value;
        if "ollamaNode" in p.types && !useOllama {
          toast := Some(OllamaDisabled);
        } else if "sdForgeNode" in p.types && !useSdforge {
          toast := Some(SdDisabled);
        } else {
          flow := p.flow;
          projectStatus := Idle;
        }
      } else if projectStatus == Failed {
        flow := FlowState([], [], map[]);
      }
    }
  }
}
