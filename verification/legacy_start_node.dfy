/**
 * The older walker inside the Start node component. Like `executeWorkflow.ts` it follows the
 * first edge leaving each node and hands each answer on as the next input, but every node sends
 * its text to the Ollama route and each node's header REPLACES the transcript, and so does an
 * error: the dialog only ever shows the node that ran last.
 */
module LegacyStartNode {
  import opened Js
  import opened Backend
  import opened FlowTypes
  import Ollama = OllamaNode
  import Workflow

  /** The component's own state (transcript, dialog, loading) and the store's per-node data. */
  datatype View = View(transcript: string, dialogOpen: bool, loading: bool, store: map<string, NodeData>)

  /** The state after a walk, and the requests it sent, one per executed node, in order. */
  datatype LegacyRun = LegacyRun(state: View, sent: seq<Ollama.OllamaRequest>)

  /** The text the header of a node sets the transcript to; an unlabelled node prints "undefined". */
  function Header(title: Option<string>): string {
    "Executing Node: " + Template(title) + "...\n"
  }

  /** The text an error sets the transcript to. */
  function ErrorText(title: Option<string>, message: string): string {
    "Error in " + Template(title) + ": " + message
  }

  /**
   * The inline `executeNode`, one backend reply per executed node: when the replies are used up
   * the walk stops, which bounds a walk around a cycle of edges.
   */
  function Walk(edges: seq<Edge>, cfg: map<string, NodeData>, baseUrl: string, nodeId: string, input: string,
                replies: seq<TextCall>, s: View): LegacyRun
    decreases |replies|, 1
  {
    if nodeId !in cfg || |replies| == 0 then LegacyRun(s, [])
    else
      var title := cfg[nodeId].nodeLabel;
      var req := Ollama.RequestFor(cfg[nodeId], input, baseUrl);
      var w := Respond(edges, cfg, baseUrl, nodeId, replies[1..], s.(transcript := Header(title), dialogOpen := true), replies[0]);
      LegacyRun(w.state, [req] + w.sent)
  }

  /** The `try` block after the header, and its `catch`. */
  function Respond(edges: seq<Edge>, cfg: map<string, NodeData>, baseUrl: string, nodeId: string,
                   rest: seq<TextCall>, s: View, call: TextCall): LegacyRun
    requires nodeId in cfg
    decreases |rest| + 1, 0
  {
    var title := cfg[nodeId].nodeLabel;
    if call.FetchFailed? then LegacyRun(s.(transcript := ErrorText(title, call.message)), [])
    else if call.NoBody? then LegacyRun(s.(transcript := ErrorText(title, "No response body")), [])
    else if call.readError.Some? then LegacyRun(s.(transcript := ErrorText(title, call.readError.value)), [])
    else
      var full := Concat(call.chunks);
      var stored := s.(transcript := s.transcript + full, store := UpdateNodeData(s.store, nodeId, Patch(None, Some(full), None, None)));
      var next := Workflow.FirstEdgeFrom(edges, nodeId);
      if next.None? then LegacyRun(stored.(transcript := stored.transcript + Workflow.Sentinel()), [])
      else Walk(edges, cfg, baseUrl, next.value.target, full, rest, stored)
  }

  /** `handleStart`: loading on, an empty transcript, the dialog open; then the walk; loading off. */
  function Start(edges: seq<Edge>, cfg: map<string, NodeData>, baseUrl: string, startNodeId: string,
                 replies: seq<TextCall>, s: View): LegacyRun
  {
    var shown := s.(loading := true, transcript := "", dialogOpen := true);
    var firstEdge := Workflow.FirstEdgeFrom(edges, startNodeId);
    if firstEdge.None? then LegacyRun(shown.(loading := false), [])
    else
      var w := Walk(edges, cfg, baseUrl, firstEdge.value.target, "", replies, shown);
      LegacyRun(w.state.(loading := false), w.sent)
  }

  class StartNode {
    var transcript: string
    var dialogOpen: bool
    var loading: bool
    var store: map<string, NodeData>

    function Current(): View
      reads this
    {
      View(transcript, dialogOpen, loading, store)
    }

    constructor (initial: View)
      ensures Current() == initial
    {
      transcript := initial.transcript;
      dialogOpen := initial.dialogOpen;
      loading := initial.loading;
      store := initial.store;
    }

    /** The inline `executeNode`. */
    method ExecuteNode(edges: seq<Edge>, cfg: map<string, NodeData>, baseUrl: string, nodeId: string,
                       input: string, replies: seq<TextCall>)
      returns (sent: seq<Ollama.OllamaRequest>)
      modifies this
      decreases |replies|, 1
      ensures LegacyRun(Current(), sent) == Walk(edges, cfg, baseUrl, nodeId, input, replies, old(Current()))
    {
      if nodeId !in cfg || |replies| == 0 {
        return [];
      }
      var d := cfg[nodeId];
      transcript := Header(d.nodeLabel);
      dialogOpen := true;
      var req := Ollama.OllamaRequest(if input != "" then Some(input) else d.prompt, d.instructions, d.model, baseUrl);
      var rest := RespondTo(edges, cfg, baseUrl, nodeId, replies[1..], replies[0]);
      sent := [req] + rest;
    }

    /** The `try` block after the header, and its `catch`. */
    method RespondTo(edges: seq<Edge>, cfg: map<string, NodeData>, baseUrl: string, nodeId: string,
                     rest: seq<TextCall>, call: TextCall)
      returns (sent: seq<Ollama.OllamaRequest>)
      requires nodeId in cfg
      modifies this
      decreases |rest| + 1, 0
      ensures LegacyRun(Current(), sent) == Respond(edges, cfg, baseUrl, nodeId, rest, old(Current()), call)
    {
      var title := cfg[nodeId].nodeLabel;
      if call.FetchFailed? {
        transcript := ErrorText(title, call.message);
        return [];
      } else if call.NoBody? {
        transcript := ErrorText(title, "No response body");
        return [];
      }
      var full := ReadStream(call.chunks);
      if call.readError.Some? {
        transcript := ErrorText(title, call.readError.value);
        return [];
      }
      store := UpdateNodeData(store, nodeId, Patch(None, Some(full), None, None));
      var nextEdge := Workflow.FirstEdgeFrom(edges, nodeId);
      if nextEdge.Some? {
        sent := ExecuteNode(edges, cfg, baseUrl, nextEdge.value.target, full, rest);
      } else {
        transcript := transcript + Workflow.Sentinel();
        sent := [];
      }
    }

    /** The reader loop: each chunk is added to the answer and appended to the transcript. */
    method ReadStream(chunks: seq<string>) returns (full: string)
      modifies this
      ensures full == Concat(chunks)
      ensures Current() == old(Current()).(transcript := old(transcript) + full)
    {
      full := "";
      var i := 0;
      while i < |chunks|
        invariant 0 <= i <= |chunks|
        invariant full == Concat(chunks[..i])
        invariant Current() == old(Current()).(transcript := old(transcript) + full)
      {
        assert chunks[..i + 1] == chunks[..i] + [chunks[i]];
        ConcatSnoc(chunks[..i], chunks[i]);
        full := full + chunks[i];
        transcript := transcript + chunks[i];
        i := i + 1;
      }
      assert chunks[..|chunks|] == chunks;
    }

    /** `handleStart`. */
    method HandleStart(edges: seq<Edge>, cfg: map<string, NodeData>, baseUrl: string, startNodeId: string,
                       replies: seq<TextCall>)
      returns (sent: seq<Ollama.OllamaRequest>)
      modifies this
      ensures LegacyRun(Current(), sent) == Start(edges, cfg, baseUrl, startNodeId, replies, old(Current()))
    {
      loading := true;
      transcript := "";
      dialogOpen := true;
      var firstEdge := Workflow.FirstEdgeFrom(edges, startNodeId);
      if firstEdge.None? {
        loading := false;
        return [];
      }
      sent := ExecuteNode(edges, cfg, baseUrl, firstEdge.value.target, "", replies);
      loading := false;
    }
  }

  // ---- Properties ----

  /** Without an edge leaving the start node nothing is sent and the transcript stays empty. */
  lemma StartWithoutEdge(edges: seq<Edge>, cfg: map<string, NodeData>, baseUrl: string, startNodeId: string,
                         replies: seq<TextCall>, s: View)
    requires forall i :: 0 <= i < |edges| ==> edges[i].source != startNodeId
    ensures Start(edges, cfg, baseUrl, startNodeId, replies, s) == LegacyRun(s.(transcript := "", dialogOpen := true, loading := false), [])
  {
  }

  /** A walk changes neither loading flag; so `handleStart` always ends with loading off. */
  lemma {:induction false} WalkKeepsLoading(edges: seq<Edge>, cfg: map<string, NodeData>, baseUrl: string, nodeId: string,
                                            input: string, replies: seq<TextCall>, s: View)
    ensures Walk(edges, cfg, baseUrl, nodeId, input, replies, s).state.loading == s.loading
    decreases |replies|, 1
  {
    if nodeId in cfg && |replies| > 0 {
      RespondKeepsLoading(edges, cfg, baseUrl, nodeId, replies[1..], s.(transcript := Header(cfg[nodeId].nodeLabel), dialogOpen := true), replies[0]);
    }
  }

  lemma {:induction false} RespondKeepsLoading(edges: seq<Edge>, cfg: map<string, NodeData>, baseUrl: string, nodeId: string,
                                               rest: seq<TextCall>, s: View, call: TextCall)
    requires nodeId in cfg
    ensures Respond(edges, cfg, baseUrl, nodeId, rest, s, call).state.loading == s.loading
    decreases |rest| + 1, 0
  {
    if call.Body? && call.readError.None? {
      var full := Concat(call.chunks);
      var stored := s.(transcript := s.transcript + full, store := UpdateNodeData(s.store, nodeId, Patch(None, Some(full), None, None)));
      var next := Workflow.FirstEdgeFrom(edges, nodeId);
      if next.Some? {
        WalkKeepsLoading(edges, cfg, baseUrl, next.value.target, full, rest, stored);
      }
    }
  }

  /** The transcript a walk leaves does not depend on what was shown before it: every node's header overwrites it. */
  lemma {:induction false} WalkForgets(edges: seq<Edge>, cfg: map<string, NodeData>, baseUrl: string, nodeId: string,
                                       input: string, replies: seq<TextCall>, s1: View, s2: View)
    requires nodeId in cfg && |replies| > 0
    ensures Walk(edges, cfg, baseUrl, nodeId, input, replies, s1).state.transcript
         == Walk(edges, cfg, baseUrl, nodeId, input, replies, s2).state.transcript
    decreases |replies|, 1
  {
    var title := cfg[nodeId].nodeLabel;
    RespondForgets(edges, cfg, baseUrl, nodeId, replies[1..], s1.(transcript := Header(title), dialogOpen := true),
                   s2.(transcript := Header(title), dialogOpen := true), replies[0]);
  }

  lemma {:induction false} RespondForgets(edges: seq<Edge>, cfg: map<string, NodeData>, baseUrl: string, nodeId: string,
                                          rest: seq<TextCall>, s1: View, s2: View, call: TextCall)
    requires nodeId in cfg && s1.transcript == s2.transcript
    ensures Respond(edges, cfg, baseUrl, nodeId, rest, s1, call).state.transcript
         == Respond(edges, cfg, baseUrl, nodeId, rest, s2, call).state.transcript
    decreases |rest| + 1, 0
  {
    if call.Body? && call.readError.None? {
      var full := Concat(call.chunks);
      var next := Workflow.FirstEdgeFrom(edges, nodeId);
      if next.Some? && next.value.target in cfg && |rest| > 0 {
        var p := Patch(None, Some(full), None, None);
        WalkForgets(edges, cfg, baseUrl, next.value.target, full, rest,
                    s1.(transcript := s1.transcript + full, store := UpdateNodeData(s1.store, nodeId, p)),
                    s2.(transcript := s2.transcript + full, store := UpdateNodeData(s2.store, nodeId, p)));
      }
    }
  }

  /**
   * A node whose stream completes and that has no successor leaves its header, its answer and
   * the completion line, and stores the answer as its output.
   */
  lemma LastNodeCompletes(edges: seq<Edge>, cfg: map<string, NodeData>, baseUrl: string, nodeId: string,
                          input: string, chunks: seq<string>, rest: seq<TextCall>, s: View)
    requires nodeId in cfg && Workflow.FirstEdgeFrom(edges, nodeId).None?
    ensures var w := Walk(edges, cfg, baseUrl, nodeId, input, [Body(chunks, None)] + rest, s);
            && w.state.transcript == Header(cfg[nodeId].nodeLabel) + Concat(chunks) + Workflow.Sentinel()
            && nodeId in w.state.store && w.state.store[nodeId].output == Some(Concat(chunks))
            && w.sent == [Ollama.RequestFor(cfg[nodeId], input, baseUrl)]
  {
    var replies := [Body(chunks, None)] + rest;
    assert replies[1..] == rest;
    var shown := s.(transcript := Header(cfg[nodeId].nodeLabel), dialogOpen := true);
    var store := UpdateNodeData(shown.store, nodeId, Patch(None, Some(Concat(chunks)), None, None));
    assert nodeId in store && store[nodeId].output == Some(Concat(chunks));
    assert Respond(edges, cfg, baseUrl, nodeId, rest, shown, replies[0]).state.store == store;
  }

  /** A failing node replaces the transcript by its error line; nothing after it runs and the store is untouched. */
  lemma FailureStops(edges: seq<Edge>, cfg: map<string, NodeData>, baseUrl: string, nodeId: string,
                     input: string, replies: seq<TextCall>, s: View)
    requires nodeId in cfg && |replies| > 0 && !(replies[0].Body? && replies[0].readError.None?)
    ensures var w := Walk(edges, cfg, baseUrl, nodeId, input, replies, s);
            var m := if replies[0].FetchFailed? then replies[0].message
                     else if replies[0].NoBody? then "No response body" else replies[0].readError.value;
            && w.state == s.(transcript := ErrorText(cfg[nodeId].nodeLabel, m), dialogOpen := true)
            && w.sent == [Ollama.RequestFor(cfg[nodeId], input, baseUrl)]
  {
  }

  /**
   * The successor is the target of the first edge leaving the node, and it is sent the node's
   * whole answer as its input (or its own prompt when the answer is empty).
   */
  lemma SuccessorGetsAnswer(edges: seq<Edge>, cfg: map<string, NodeData>, baseUrl: string, nodeId: string,
                            input: string, chunks: seq<string>, replies: seq<TextCall>, s: View)
    requires nodeId in cfg && |replies| > 1 && replies[0] == Body(chunks, None)
    requires Workflow.FirstEdgeFrom(edges, nodeId).Some? && Workflow.FirstEdgeFrom(edges, nodeId).value.target in cfg
    ensures var w := Walk(edges, cfg, baseUrl, nodeId, input, replies, s);
            var target := Workflow.FirstEdgeFrom(edges, nodeId).value.target;
            && |w.sent| >= 2
            && w.sent[0] == Ollama.RequestFor(cfg[nodeId], input, baseUrl)
            && w.sent[1] == Ollama.RequestFor(cfg[target], Concat(chunks), baseUrl)
  {
    var shown := s.(transcript := Header(cfg[nodeId].nodeLabel), dialogOpen := true);
    var full := Concat(chunks);
    var stored := shown.(transcript := shown.transcript + full,
                         store := UpdateNodeData(shown.store, nodeId, Patch(None, Some(full), None, None)));
    var target := Workflow.FirstEdgeFrom(edges, nodeId).value.target;
    var next := Walk(edges, cfg, baseUrl, target, full, replies[1..], stored);
    assert Respond(edges, cfg, baseUrl, nodeId, replies[1..], shown, replies[0]) == next;
    assert next.sent[0] == Ollama.RequestFor(cfg[target], full, baseUrl);
  }

  /** A node without a record ends the walk: nothing is sent and nothing changes. */
  lemma MissingConfigStops(edges: seq<Edge>, cfg: map<string, NodeData>, baseUrl: string, nodeId: string,
                           input: string, replies: seq<TextCall>, s: View)
    requires nodeId !in cfg
    ensures Walk(edges, cfg, baseUrl, nodeId, input, replies, s) == LegacyRun(s, [])
  {
  }
}
