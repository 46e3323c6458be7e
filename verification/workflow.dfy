/**
 * The chain walker of `executeWorkflow.ts`: from the start node's first outgoing edge it runs
 * one node after another, each on the previous node's output, until a node has no successor,
 * a node fails, or a node id is not in the node list.
 */
module Workflow {
  import opened Js
  import opened Backend
  import opened FlowTypes
  import opened RunState
  import opened Steps
  import Ollama = OllamaNode
  import SD = SDForgeNode

  /** The node list and the edge list of the canvas, in array order. */
  datatype Graph = Graph(nodes: seq<FlowNode>, edges: seq<Edge>)

  /** One executed node: its id, its type, the input it was given and how its adapter finished. */
  datatype Executed = Executed(nodeId: string, nodeType: Option<string>, input: string, outcome: Outcome)

  /** The state after a walk, and the nodes it executed in order. */
  datatype WalkResult = WalkResult(state: UiState, trace: seq<Executed>)

  /** The line appended when the last node of the chain has finished. */
  function Sentinel(): string {
    "\n\n\U{1F680} Execution Complete!"
  }

  function UnknownTypeMessage(nodeType: Option<string>): string {
    "Unknown node type: " + Template(nodeType)
  }

  /** `nodes.find(n => n.id === nodeId)`. */
  function FindNode(nodes: seq<FlowNode>, nodeId: string): (r: Option<FlowNode>)
    ensures r.Some? ==> r.value in nodes && r.value.id == nodeId
    ensures r.None? <==> forall i :: 0 <= i < |nodes| ==> nodes[i].id != nodeId
  {
    if |nodes| == 0 then None
    else if nodes[0].id == nodeId then Some(nodes[0])
    else FindNode(nodes[1..], nodeId)
  }

  /** `edges.find(edge => edge.source === source)`. */
  function FirstEdgeFrom(edges: seq<Edge>, source: string): (r: Option<Edge>)
    ensures r.Some? ==> r.value in edges && r.value.source == source
    ensures r.None? <==> forall i :: 0 <= i < |edges| ==> edges[i].source != source
  {
    if |edges| == 0 then None
    else if edges[0].source == source then Some(edges[0])
    else FirstEdgeFrom(edges[1..], source)
  }

  /** The edge found is the first one in array order leaving `source`. */
  lemma {:induction false} FirstEdgeFromIsFirst(edges: seq<Edge>, source: string, i: nat)
    requires i < |edges| && edges[i].source == source
    requires forall j :: 0 <= j < i ==> edges[j].source != source
    ensures FirstEdgeFrom(edges, source) == Some(edges[i])
  {
    if i > 0 {
      FirstEdgeFromIsFirst(edges[1..], source, i - 1);
    }
  }

  /** The node found is the first one in array order with that id. */
  lemma {:induction false} FindNodeIsFirst(nodes: seq<FlowNode>, nodeId: string, i: nat)
    requires i < |nodes| && nodes[i].id == nodeId
    requires forall j :: 0 <= j < i ==> nodes[j].id != nodeId
    ensures FindNode(nodes, nodeId) == Some(nodes[i])
  {
    if i > 0 {
      FindNodeIsFirst(nodes[1..], nodeId, i - 1);
    }
  }

  /** The dispatch on the node type: the two adapters, or the unknown-type error. */
  function Run(s: UiState, nodeType: Option<string>, nodeId: string, cfg: map<string, NodeData>, reply: Backends)
    : StepResult
  {
    if nodeType == Some("ollamaNode") then Ollama.Step(s, nodeId, cfg, reply.text)
    else if nodeType == Some("sdForgeNode") then SD.Step(s, nodeId, cfg, reply.image)
    else StepResult(s, Threw(UnknownTypeMessage(nodeType)))
  }

  /**
   * `executeNode`, one reply from the backends per executed node. The run stops when the
   * replies are used up, which bounds a walk around a cycle of edges.
   */
  function Walk(g: Graph, cfg: map<string, NodeData>, nodeId: string, input: string,
                replies: seq<Backends>, s: UiState): WalkResult
    decreases |replies|, 1
  {
    var node := FindNode(g.nodes, nodeId);
    if node.None? || |replies| == 0 then WalkResult(s, [])
    else AfterRun(g, cfg, nodeId, node.value.nodeType, input, replies[1..],
                  Run(s, node.value.nodeType, nodeId, cfg, replies[0]))
  }

  /**
   * What the walker does once the node's adapter has finished with `r`: echo the error,
   * or append the completion line, or go on with the target of the first edge leaving the node.
   */
  function AfterRun(g: Graph, cfg: map<string, NodeData>, nodeId: string, nodeType: Option<string>, input: string,
                    rest: seq<Backends>, r: StepResult): WalkResult
    decreases |rest| + 1, 0
  {
    var e := Executed(nodeId, nodeType, input, r.outcome);
    if r.outcome.Threw? then
      WalkResult(r.state.(transcript := r.state.transcript + ("\n" + r.outcome.message)), [e])
    else
      var next := FirstEdgeFrom(g.edges, nodeId);
      if next.None? then
        WalkResult(r.state.(transcript := r.state.transcript + Sentinel(), processing := false), [e])
      else
        var w := Walk(g, cfg, next.value.target, r.outcome.value, rest, r.state);
        WalkResult(w.state, [e] + w.trace)
  }

  /** Every adapter, and the unknown-type branch, only appends to the transcript. */
  lemma RunGrows(s: UiState, nodeType: Option<string>, nodeId: string, cfg: map<string, NodeData>, reply: Backends)
    ensures StartsWith(Run(s, nodeType, nodeId, cfg, reply).state.transcript, s.transcript)
  {
    if nodeType == Some("ollamaNode") {
      Ollama.StepGrows(s, nodeId, cfg, reply.text);
    } else if nodeType == Some("sdForgeNode") {
      SD.StepGrows(s, nodeId, cfg, reply.image);
    } else {
      StartsWithRefl(s.transcript);
    }
  }

  /** No adapter touches the walker's own flags. */
  lemma RunKeepsRunFlags(s: UiState, nodeType: Option<string>, nodeId: string, cfg: map<string, NodeData>, reply: Backends)
    ensures Run(s, nodeType, nodeId, cfg, reply).state.processing == s.processing
    ensures Run(s, nodeType, nodeId, cfg, reply).state.loading == s.loading
  {
    if nodeType == Some("ollamaNode") {
      Ollama.StepFrame(s, nodeId, cfg, reply.text);
    } else if nodeType == Some("sdForgeNode") {
      SD.StepFrame(s, nodeId, cfg, reply.image);
    }
  }

  /** A failing adapter has already written "\n" and its message at the end of the transcript. */
  lemma RunFailureWritten(s: UiState, nodeType: Option<string>, nodeId: string, cfg: map<string, NodeData>, reply: Backends)
    requires nodeType == Some("ollamaNode") || nodeType == Some("sdForgeNode")
    requires Run(s, nodeType, nodeId, cfg, reply).outcome.Threw?
    ensures EndsWith(Run(s, nodeType, nodeId, cfg, reply).state.transcript,
                     "\n" + Run(s, nodeType, nodeId, cfg, reply).outcome.message)
  {
    if nodeType == Some("ollamaNode") {
      Ollama.StepThrows(s, nodeId, cfg, reply.text);
    } else {
      SD.StepThrows(s, nodeId, cfg, reply.image);
    }
  }

  /** The transcript is append-only over a whole walk. */
  lemma {:induction false} WalkGrows(g: Graph, cfg: map<string, NodeData>, nodeId: string, input: string,
                                     replies: seq<Backends>, s: UiState)
    ensures StartsWith(Walk(g, cfg, nodeId, input, replies, s).state.transcript, s.transcript)
    decreases |replies|, 1
  {
    var node := FindNode(g.nodes, nodeId);
    if node.None? || |replies| == 0 {
      StartsWithRefl(s.transcript);
    } else {
      var r := Run(s, node.value.nodeType, nodeId, cfg, replies[0]);
      RunGrows(s, node.value.nodeType, nodeId, cfg, replies[0]);
      AfterRunGrows(g, cfg, nodeId, node.value.nodeType, input, replies[1..], r);
      StartsWithTrans(s.transcript, r.state.transcript, Walk(g, cfg, nodeId, input, replies, s).state.transcript);
    }
  }

  lemma {:induction false} AfterRunGrows(g: Graph, cfg: map<string, NodeData>, nodeId: string, nodeType: Option<string>,
                                         input: string, rest: seq<Backends>, r: StepResult)
    ensures StartsWith(AfterRun(g, cfg, nodeId, nodeType, input, rest, r).state.transcript, r.state.transcript)
    decreases |rest| + 1, 0
  {
    var next := FirstEdgeFrom(g.edges, nodeId);
    if r.outcome.Threw? {
      StartsWithAppend(r.state.transcript, "\n" + r.outcome.message);
    } else if next.None? {
      StartsWithAppend(r.state.transcript, Sentinel());
    } else {
      WalkGrows(g, cfg, next.value.target, r.outcome.value, rest, r.state);
    }
  }

  /**
   * The executed nodes form the chain: the first is `nodeId` with `input`; each later one is
   * the target of the first edge leaving its predecessor, runs only after that predecessor
   * returned, and receives the predecessor's output as its input.
   */
  predicate Chained(g: Graph, trace: seq<Executed>, nodeId: string, input: string) {
    && (|trace| > 0 ==> trace[0].nodeId == nodeId && trace[0].input == input)
    && forall i :: 0 <= i < |trace| - 1 ==>
         && trace[i].outcome.Returned?
         && FirstEdgeFrom(g.edges, trace[i].nodeId).Some?
         && trace[i + 1].nodeId == FirstEdgeFrom(g.edges, trace[i].nodeId).value.target
         && trace[i + 1].input == trace[i].outcome.value
  }

  /** A walk runs at most one node per backend reply, and the nodes it runs form the chain. */
  lemma {:induction false} WalkChained(g: Graph, cfg: map<string, NodeData>, nodeId: string, input: string,
                                       replies: seq<Backends>, s: UiState)
    ensures |Walk(g, cfg, nodeId, input, replies, s).trace| <= |replies|
    ensures Chained(g, Walk(g, cfg, nodeId, input, replies, s).trace, nodeId, input)
    decreases |replies|, 1
  {
    var node := FindNode(g.nodes, nodeId);
    if node.Some? && |replies| > 0 {
      AfterRunChained(g, cfg, nodeId, node.value.nodeType, input, replies[1..],
                      Run(s, node.value.nodeType, nodeId, cfg, replies[0]));
    }
  }

  lemma {:induction false} AfterRunChained(g: Graph, cfg: map<string, NodeData>, nodeId: string, nodeType: Option<string>,
                                           input: string, rest: seq<Backends>, r: StepResult)
    ensures |AfterRun(g, cfg, nodeId, nodeType, input, rest, r).trace| <= |rest| + 1
    ensures Chained(g, AfterRun(g, cfg, nodeId, nodeType, input, rest, r).trace, nodeId, input)
    decreases |rest| + 1, 0
  {
    var next := FirstEdgeFrom(g.edges, nodeId);
    if r.outcome.Returned? && next.Some? {
      var e := Executed(nodeId, nodeType, input, r.outcome);
      var w := Walk(g, cfg, next.value.target, r.outcome.value, rest, r.state);
      WalkChained(g, cfg, next.value.target, r.outcome.value, rest, r.state);
      var trace := [e] + w.trace;
      forall i | 0 <= i < |trace| - 1
        ensures trace[i].outcome.Returned? && FirstEdgeFrom(g.edges, trace[i].nodeId).Some?
        ensures trace[i + 1].nodeId == FirstEdgeFrom(g.edges, trace[i].nodeId).value.target
        ensures trace[i + 1].input == trace[i].outcome.value
      {
        if i > 0 {
          assert trace[i] == w.trace[i - 1] && trace[i + 1] == w.trace[i];
        }
      }
    }
  }

  /** The walk finished the chain: its last node returned and has no outgoing edge. */
  predicate Completed(g: Graph, trace: seq<Executed>) {
    && |trace| > 0
    && trace[|trace| - 1].outcome.Returned?
    && FirstEdgeFrom(g.edges, trace[|trace| - 1].nodeId).None?
  }

  /**
   * The walker's flags after a walk: processing is false after a completed chain and as it
   * was otherwise (after a failure, a missing node or when the replies ran out); loading is
   * never touched.
   */
  lemma {:induction false} WalkFlags(g: Graph, cfg: map<string, NodeData>, nodeId: string, input: string,
                                     replies: seq<Backends>, s: UiState)
    ensures Walk(g, cfg, nodeId, input, replies, s).state.processing
            == if Completed(g, Walk(g, cfg, nodeId, input, replies, s).trace) then false else s.processing
    ensures Walk(g, cfg, nodeId, input, replies, s).state.loading == s.loading
    decreases |replies|, 1
  {
    var node := FindNode(g.nodes, nodeId);
    if node.Some? && |replies| > 0 {
      RunKeepsRunFlags(s, node.value.nodeType, nodeId, cfg, replies[0]);
      AfterRunFlags(g, cfg, nodeId, node.value.nodeType, input, replies[1..],
                    Run(s, node.value.nodeType, nodeId, cfg, replies[0]));
    }
  }

  lemma {:induction false} AfterRunFlags(g: Graph, cfg: map<string, NodeData>, nodeId: string, nodeType: Option<string>,
                                         input: string, rest: seq<Backends>, r: StepResult)
    ensures AfterRun(g, cfg, nodeId, nodeType, input, rest, r).state.processing
            == if Completed(g, AfterRun(g, cfg, nodeId, nodeType, input, rest, r).trace) then false else r.state.processing
    ensures AfterRun(g, cfg, nodeId, nodeType, input, rest, r).state.loading == r.state.loading
    decreases |rest| + 1, 0
  {
    var next := FirstEdgeFrom(g.edges, nodeId);
    if r.outcome.Returned? && next.Some? {
      var e := Executed(nodeId, nodeType, input, r.outcome);
      var w := Walk(g, cfg, next.value.target, r.outcome.value, rest, r.state);
      WalkFlags(g, cfg, next.value.target, r.outcome.value, rest, r.state);
      if |w.trace| > 0 {
        assert ([e] + w.trace)[|w.trace|] == w.trace[|w.trace| - 1];
      }
    }
  }

  /** A completed chain leaves the completion line at the end of the transcript. */
  lemma {:induction false} WalkEndsWithSentinel(g: Graph, cfg: map<string, NodeData>, nodeId: string, input: string,
                                                replies: seq<Backends>, s: UiState)
    ensures Completed(g, Walk(g, cfg, nodeId, input, replies, s).trace) ==>
              EndsWith(Walk(g, cfg, nodeId, input, replies, s).state.transcript, Sentinel())
    decreases |replies|, 1
  {
    var node := FindNode(g.nodes, nodeId);
    if node.Some? && |replies| > 0 {
      AfterRunEndsWithSentinel(g, cfg, nodeId, node.value.nodeType, input, replies[1..],
                               Run(s, node.value.nodeType, nodeId, cfg, replies[0]));
    }
  }

  lemma {:induction false} AfterRunEndsWithSentinel(g: Graph, cfg: map<string, NodeData>, nodeId: string,
                                                    nodeType: Option<string>, input: string, rest: seq<Backends>,
                                                    r: StepResult)
    ensures Completed(g, AfterRun(g, cfg, nodeId, nodeType, input, rest, r).trace) ==>
              EndsWith(AfterRun(g, cfg, nodeId, nodeType, input, rest, r).state.transcript, Sentinel())
    decreases |rest| + 1, 0
  {
    var next := FirstEdgeFrom(g.edges, nodeId);
    if r.outcome.Threw? {
    } else if next.None? {
      EndsWithAppend(r.state.transcript, Sentinel());
    } else {
      WalkEndsWithSentinel(g, cfg, next.value.target, r.outcome.value, rest, r.state);
    }
  }

  /** A chain that stops at a failure leaves "\n" and the error message at the end of the transcript. */
  lemma {:induction false} WalkEndsWithError(g: Graph, cfg: map<string, NodeData>, nodeId: string, input: string,
                                             replies: seq<Backends>, s: UiState)
    ensures var t := Walk(g, cfg, nodeId, input, replies, s).trace;
            |t| > 0 && t[|t| - 1].outcome.Threw? ==>
              EndsWith(Walk(g, cfg, nodeId, input, replies, s).state.transcript, "\n" + t[|t| - 1].outcome.message)
    decreases |replies|, 1
  {
    var node := FindNode(g.nodes, nodeId);
    if node.Some? && |replies| > 0 {
      AfterRunEndsWithError(g, cfg, nodeId, node.value.nodeType, input, replies[1..],
                            Run(s, node.value.nodeType, nodeId, cfg, replies[0]));
    }
  }

  lemma {:induction false} AfterRunEndsWithError(g: Graph, cfg: map<string, NodeData>, nodeId: string,
                                                 nodeType: Option<string>, input: string, rest: seq<Backends>,
                                                 r: StepResult)
    ensures var t := AfterRun(g, cfg, nodeId, nodeType, input, rest, r).trace;
            |t| > 0 && t[|t| - 1].outcome.Threw? ==>
              EndsWith(AfterRun(g, cfg, nodeId, nodeType, input, rest, r).state.transcript, "\n" + t[|t| - 1].outcome.message)
    decreases |rest| + 1, 0
  {
    var next := FirstEdgeFrom(g.edges, nodeId);
    if r.outcome.Threw? {
      EndsWithAppend(r.state.transcript, "\n" + r.outcome.message);
    } else if next.None? {
    } else {
      var e := Executed(nodeId, nodeType, input, r.outcome);
      var w := Walk(g, cfg, next.value.target, r.outcome.value, rest, r.state);
      WalkEndsWithError(g, cfg, next.value.target, r.outcome.value, rest, r.state);
      if |w.trace| > 0 {
        assert ([e] + w.trace)[|w.trace|] == w.trace[|w.trace| - 1];
      }
    }
  }

  /** Only the last executed node can have failed. */
  lemma FailureIsLast(g: Graph, cfg: map<string, NodeData>, nodeId: string, input: string,
                      replies: seq<Backends>, s: UiState, i: nat)
    requires i < |Walk(g, cfg, nodeId, input, replies, s).trace|
    requires Walk(g, cfg, nodeId, input, replies, s).trace[i].outcome.Threw?
    ensures i == |Walk(g, cfg, nodeId, input, replies, s).trace| - 1
  {
    WalkChained(g, cfg, nodeId, input, replies, s);
  }

  /** A node id missing from the node list ends the walk at once, without a word. */
  lemma WalkMissingNode(g: Graph, cfg: map<string, NodeData>, nodeId: string, input: string,
                        replies: seq<Backends>, s: UiState)
    requires forall i :: 0 <= i < |g.nodes| ==> g.nodes[i].id != nodeId
    ensures Walk(g, cfg, nodeId, input, replies, s) == WalkResult(s, [])
  {
  }

  /**
   * A node of any other type fails with the unknown-type message, the walker echoes it, and
   * nothing else runs.
   */
  lemma WalkUnknownType(g: Graph, cfg: map<string, NodeData>, nodeId: string, input: string,
                        replies: seq<Backends>, s: UiState)
    requires |replies| > 0 && FindNode(g.nodes, nodeId).Some?
    requires FindNode(g.nodes, nodeId).value.nodeType !in {Some("ollamaNode"), Some("sdForgeNode")}
    ensures var t := FindNode(g.nodes, nodeId).value.nodeType;
            Walk(g, cfg, nodeId, input, replies, s)
            == WalkResult(s.(transcript := s.transcript + ("\n" + "Unknown node type: " + Template(t))),
                          [Executed(nodeId, t, input, Threw("Unknown node type: " + Template(t)))])
  {
  }

  /**
   * An adapter failure is written twice: once by the adapter, once more by the walker's catch
   * block; and the chain stops there.
   */
  lemma WalkAdapterFailure(g: Graph, cfg: map<string, NodeData>, nodeId: string, input: string,
                           replies: seq<Backends>, s: UiState)
    requires |replies| > 0 && FindNode(g.nodes, nodeId).Some?
    requires FindNode(g.nodes, nodeId).value.nodeType in {Some("ollamaNode"), Some("sdForgeNode")}
    requires Run(s, FindNode(g.nodes, nodeId).value.nodeType, nodeId, cfg, replies[0]).outcome.Threw?
    ensures var m := Run(s, FindNode(g.nodes, nodeId).value.nodeType, nodeId, cfg, replies[0]).outcome.message;
            && |Walk(g, cfg, nodeId, input, replies, s).trace| == 1
            && EndsWith(Walk(g, cfg, nodeId, input, replies, s).state.transcript, "\n" + m + ("\n" + m))
            && Walk(g, cfg, nodeId, input, replies, s).state.processing == s.processing
  {
    var nodeType := FindNode(g.nodes, nodeId).value.nodeType;
    var r := Run(s, nodeType, nodeId, cfg, replies[0]);
    RunFailureWritten(s, nodeType, nodeId, cfg, replies[0]);
    RunKeepsRunFlags(s, nodeType, nodeId, cfg, replies[0]);
    EndsWithExtend(r.state.transcript, "\n" + r.outcome.message, "\n" + r.outcome.message);
  }

  /**
   * `executeNode`: finds the node, runs its adapter, and either hands the output to the
   * target of the first edge leaving the node, or appends the completion line, or echoes the
   * error.
   */
  method ExecuteNode(s: Session, g: Graph, cfg: map<string, NodeData>, ollamaBaseUrl: string,
                     sdforgeBaseUrl: string, nodeId: string, input: string, replies: seq<Backends>)
    modifies s
    decreases |replies|
    ensures s.View() == Walk(g, cfg, nodeId, input, replies, old(s.View())).state
  {
    var node := FindNode(g.nodes, nodeId);
    if node.None? || |replies| == 0 {
      return;
    }
    var outcome := Dispatch(s, node.value.nodeType, nodeId, input, cfg, ollamaBaseUrl, sdforgeBaseUrl, replies[0]);
    if outcome.Threw? {
      s.Append("\n" + outcome.message);
      return;
    }
    var nextEdge := FirstEdgeFrom(g.edges, nodeId);
    if nextEdge.Some? {
      ExecuteNode(s, g, cfg, ollamaBaseUrl, sdforgeBaseUrl, nextEdge.value.target, outcome.value, replies[1..]);
    } else {
      s.Append(Sentinel());
      s.processing := false;
    }
  }

  /** The dispatch of `executeNode` on the node type. */
  method Dispatch(s: Session, nodeType: Option<string>, nodeId: string, input: string, cfg: map<string, NodeData>,
                  ollamaBaseUrl: string, sdforgeBaseUrl: string, reply: Backends)
    returns (outcome: Outcome)
    modifies s
    ensures StepResult(s.View(), outcome) == Run(old(s.View()), nodeType, nodeId, cfg, reply)
  {
    if nodeType == Some("ollamaNode") {
      var sent;
      outcome, sent := Ollama.ExecuteOllamaNode(s, nodeId, input, cfg, ollamaBaseUrl, reply.text);
    } else if nodeType == Some("sdForgeNode") {
      var sent;
      outcome, sent := SD.ExecuteSDForgeNode(s, nodeId, input, cfg, sdforgeBaseUrl, reply.random, reply.image);
    } else {
      outcome := Threw(UnknownTypeMessage(nodeType));
    }
  }

  /**
   * `startWorkflow`: opens the dialog with a fresh transcript and no images, then walks from
   * the target of the first edge leaving the start node; loading is cleared at the end.
   */
  function StartRun(s: UiState, g: Graph, cfg: map<string, NodeData>, startNodeId: string,
                    replies: seq<Backends>): UiState
  {
    var shown := Open(s);
    var firstEdge := FirstEdgeFrom(g.edges, startNodeId);
    if firstEdge.None? then shown.(loading := false)
    else Walk(g, cfg, firstEdge.value.target, "", replies, shown.(processing := true)).state.(loading := false)
  }

  /** The resets before the walk: loading on, an empty transcript, the dialog open, no images. */
  function Open(s: UiState): UiState {
    s.(loading := true, transcript := "", dialogOpen := true, finalImage := None, currentImage := None)
  }

  /** Without an edge leaving the start node nothing runs: the transcript stays empty and processing is not set. */
  lemma StartWithoutEdge(s: UiState, g: Graph, cfg: map<string, NodeData>, startNodeId: string, replies: seq<Backends>)
    requires forall i :: 0 <= i < |g.edges| ==> g.edges[i].source != startNodeId
    ensures StartRun(s, g, cfg, startNodeId, replies)
            == s.(transcript := "", dialogOpen := true, finalImage := None, currentImage := None, loading := false)
  {
  }

  /**
   * With an edge leaving the start node, the transcript is exactly what the walk from its
   * target wrote onto an empty one; processing stays set unless the chain completed; loading
   * always ends false.
   */
  lemma StartWithEdge(s: UiState, g: Graph, cfg: map<string, NodeData>, startNodeId: string, replies: seq<Backends>)
    requires FirstEdgeFrom(g.edges, startNodeId).Some?
    ensures var shown := s.(transcript := "", dialogOpen := true, finalImage := None, currentImage := None,
                             loading := true, processing := true);
            var w := Walk(g, cfg, FirstEdgeFrom(g.edges, startNodeId).value.target, "", replies, shown);
            && StartRun(s, g, cfg, startNodeId, replies).transcript == w.state.transcript
            && StartRun(s, g, cfg, startNodeId, replies).processing == !Completed(g, w.trace)
            && !StartRun(s, g, cfg, startNodeId, replies).loading
  {
    var shown := s.(transcript := "", dialogOpen := true, finalImage := None, currentImage := None,
                     loading := true, processing := true);
    WalkFlags(g, cfg, FirstEdgeFrom(g.edges, startNodeId).value.target, "", replies, shown);
  }

  /** `startWorkflow` over a session. */
  method StartWorkflow(s: Session, g: Graph, cfg: map<string, NodeData>, startNodeId: string,
                       ollamaBaseUrl: string, sdforgeBaseUrl: string, replies: seq<Backends>)
    modifies s
    ensures s.View() == StartRun(old(s.View()), g, cfg, startNodeId, replies)
  {
    OpenDialog(s);
    var firstEdge := FirstEdgeFrom(g.edges, startNodeId);
    if firstEdge.None? {
      s.loading := false;
      return;
    }
    s.processing := true;
    ExecuteNode(s, g, cfg, ollamaBaseUrl, sdforgeBaseUrl, firstEdge.value.target, "", replies);
    s.loading := false;
  }

  method OpenDialog(s: Session)
    modifies s
    ensures s.View() == Open(old(s.View()))
  {
    s.loading := true;
    s.transcript := "";
    s.dialogOpen := true;
    s.finalImage := None;
    s.currentImage := None;
  }

  /**
   * `handleCancel`: when the interrupt request went through, generation is marked canceled and
   * stopped and loading is cleared; when it was rejected nothing changes.
   */
  function Cancel(s: UiState, interrupted: bool): (r: UiState)
    ensures interrupted ==> r.canceled && !r.isGenerating && !r.loading
    ensures interrupted ==> r.(canceled := s.canceled, isGenerating := s.isGenerating, loading := s.loading) == s
    ensures !interrupted ==> r == s
  {
    if interrupted then s.(canceled := true, isGenerating := false, loading := false) else s
  }

  /** Canceling twice with the same result is canceling once. */
  lemma CancelIdempotent(s: UiState, interrupted: bool)
    ensures Cancel(Cancel(s, interrupted), interrupted) == Cancel(s, interrupted)
  {
  }

  /** `handleCancel` over a session; `interrupted` is whether the interrupt request resolved. */
  method HandleCancel(s: Session, sdforgeBaseUrl: string, interrupted: bool)
    modifies s
    ensures s.View() == Cancel(old(s.View()), interrupted)
  {
    if interrupted {
      s.canceled := true;
      s.isGenerating := false;
      s.loading := false;
    }
  }
}
