/** The `flow` slice of the store: the canvas's node list and edge list. */
module FlowSlice {
  import opened Js
  import opened FlowTypes

  /** The label a new node gets: "Ollama" for a text node, "SD Forge" for any other type. */
  function LabelFor(nodeType: string): string {
    if nodeType == "ollamaNode" then "Ollama" else "SD Forge"
  }

  /** The node `addNode` builds when the list holds `count` nodes (its random position is not modelled). */
  function NewNode(count: nat, nodeType: string): FlowNode {
    FlowNode(NatToString(count + 1), Some(nodeType), LabelFor(nodeType))
  }

  /** The node list after `addNode`. */
  function Added(nodes: seq<FlowNode>, nodeType: string): seq<FlowNode> {
    nodes + [NewNode(|nodes|, nodeType)]
  }

  /** The node list after a run of `addNode`s, oldest first. */
  function AddedAll(nodes: seq<FlowNode>, types: seq<string>): (r: seq<FlowNode>)
    ensures |r| == |nodes| + |types|
  {
    if |types| == 0 then nodes else Added(AddedAll(nodes, types[..|types| - 1]), types[|types| - 1])
  }

  /**
   * From the empty list, `addNode` alone numbers the nodes "1", "2", … in order, each with the
   * requested type and its label.
   */
  lemma {:induction false} AddedFromEmpty(types: seq<string>)
    ensures forall i :: 0 <= i < |types| ==>
              AddedAll([], types)[i] == FlowNode(NatToString(i + 1), Some(types[i]), LabelFor(types[i]))
  {
    if |types| > 0 {
      AddedFromEmpty(types[..|types| - 1]);
    }
  }

  /** From the empty list, `addNode` alone never repeats an id. */
  lemma AddedIdsDistinct(types: seq<string>)
    ensures forall i, j :: 0 <= i < j < |types| ==> AddedAll([], types)[i].id != AddedAll([], types)[j].id
  {
    AddedFromEmpty(types);
    forall i, j | 0 <= i < j < |types|
      ensures AddedAll([], types)[i].id != AddedAll([], types)[j].id
    {
      NatToStringInjective(i + 1, j + 1);
    }
  }

  /**
   * Ids come from the length alone, so once the list was replaced (`updateNodes`) a new node
   * can take an id already in use.
   */
  lemma IdCanRepeat()
    ensures var nodes := [FlowNode("2", Some("ollamaNode"), "Ollama")];
            Added(nodes, "sdForgeNode")[0].id == Added(nodes, "sdForgeNode")[1].id
  {
    assert NatToString(2) == "2";
  }

  class FlowStore {
    var nodes: seq<FlowNode>
    var edges: seq<Edge>

    /** The initial state: no nodes, no edges. */
    constructor ()
      ensures nodes == [] && edges == []
    {
      nodes := [];
      edges := [];
    }

    /** `addNode`: one new node at the end; the others and the edges are untouched. */
    method AddNode(nodeType: string)
      modifies this
      ensures nodes == Added(old(nodes), nodeType) && edges == old(edges)
    {
      var id := NatToString(|nodes| + 1);
      nodes := nodes + [FlowNode(id, Some(nodeType), if nodeType == "ollamaNode" then "Ollama" else "SD Forge")];
    }

    /** `updateNodes`: the node list is replaced; the edges are untouched. */
    method UpdateNodes(newNodes: seq<FlowNode>)
      modifies this
      ensures nodes == newNodes && edges == old(edges)
    {
      nodes := newNodes;
    }

    /** `updateEdges`: the edge list is replaced; the nodes are untouched. */
    method UpdateEdges(newEdges: seq<Edge>)
      modifies this
      ensures edges == newEdges && nodes == old(nodes)
    {
      edges := newEdges;
    }

    /** `addEdge`: appended as given, with no check for a duplicate or for a second edge out of a node. */
    method AddEdge(e: Edge)
      modifies this
      ensures edges == old(edges) + [e] && nodes == old(nodes)
    {
      edges := edges + [e];
    }
  }
}
