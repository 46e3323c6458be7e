/** The `nodes` slice of the store: a node list that only grows. */
module NodeSlice {
  import opened Js
  import opened FlowTypes
  import FlowSlice

  class NodeStore {
    var nodes: seq<FlowNode>

    /** The initial state: no nodes. */
    constructor ()
      ensures nodes == []
    {
      nodes := [];
    }

    /**
     * `addNode`: the same node as the flow slice builds (id the old length plus one, label
     * "Ollama" or "SD Forge"), appended after the existing ones.
     */
    method AddNode(nodeType: string)
      modifies this
      ensures nodes == FlowSlice.Added(old(nodes), nodeType)
      ensures |nodes| == |old(nodes)| + 1 && nodes[..|old(nodes)|] == old(nodes)
    {
      var id := NatToString(|nodes| + 1);
      nodes := nodes + [FlowNode(id, Some(nodeType), if nodeType == "ollamaNode" then "Ollama" else "SD Forge")];
    }
  }
}
