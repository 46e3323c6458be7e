/** Node data records, graph nodes and edges, and the node-data type guards. */
module FlowTypes {
  import opened Js

  /**
   * The per-node configuration record kept under the node's id. Every field is optional,
   * as in the union of the base, Ollama and SDForge records.
   */
  datatype NodeData = NodeData(
    id: Option<string>,
    nodeLabel: Option<string>,
    output: Option<string>,
    outputType: Option<string>,
    image: Option<string>,
    model: Option<string>,
    prompt: Option<string>,
    instructions: Option<string>,
    imagePrompt: Option<string>,
    width: Option<int>,
    height: Option<int>,
    samplingSteps: Option<int>,
    samplingMethod: Option<string>,
    guidanceScale: Option<real>,
    schedulerType: Option<string>)

  function EmptyNodeData(): NodeData {
    NodeData(None, None, None, None, None, None, None, None, None, None, None, None, None, None, None)
  }

  /** `isOllamaNodeData`: both `prompt` and `instructions` are defined. */
  predicate IsOllamaNodeData(d: NodeData) {
    d.prompt.Some? && d.instructions.Some?
  }

  /** `isSDForgeNodeData`: both `prompt` and `samplingSteps` are defined. */
  predicate IsSDForgeNodeData(d: NodeData) {
    d.prompt.Some? && d.samplingSteps.Some?
  }

  /** The guards are not exclusive: some record satisfies both. */
  lemma GuardsNotExclusive()
    ensures exists d :: IsOllamaNodeData(d) && IsSDForgeNodeData(d)
  {
    var d := EmptyNodeData().(prompt := Some(""), instructions := Some(""), samplingSteps := Some(0));
    assert IsOllamaNodeData(d) && IsSDForgeNodeData(d);
  }

  /** Data without a prompt satisfies neither guard, whatever else it holds. */
  lemma NoPromptNoGuard(d: NodeData)
    requires d.prompt.None?
    ensures !IsOllamaNodeData(d) && !IsSDForgeNodeData(d)
  {
  }

  /** The fields an `updateNodeData` dispatch writes; an absent field is left as it was. */
  datatype Patch = Patch(id: Option<string>, output: Option<string>, outputType: Option<string>, image: Option<string>)

  function Overwrite<T>(old_: Option<T>, new_: Option<T>): Option<T> {
    if new_.Some? then new_ else old_
  }

  /**
   * `updateNodeData({id, data})`: the record under `key` takes every field the patch sets and
   * keeps the others; a new key starts from an empty record; the records under other keys are
   * untouched.
   */
  function UpdateNodeData(m: map<string, NodeData>, key: string, p: Patch): (r: map<string, NodeData>)
    ensures r.Keys == m.Keys + {key}
    ensures forall k :: k in m && k != key ==> r[k] == m[k]
    ensures p.id.Some? ==> r[key].id == p.id
    ensures p.output.Some? ==> r[key].output == p.output
    ensures p.outputType.Some? ==> r[key].outputType == p.outputType
    ensures p.image.Some? ==> r[key].image == p.image
    ensures key in m && p.id.None? ==> r[key].id == m[key].id
    ensures key in m && p.output.None? ==> r[key].output == m[key].output
    ensures key in m && p.outputType.None? ==> r[key].outputType == m[key].outputType
    ensures key in m && p.image.None? ==> r[key].image == m[key].image
    // every field the patch cannot name is the old record's
    ensures key in m ==>
              r[key].(id := m[key].id, output := m[key].output, outputType := m[key].outputType, image := m[key].image)
              == m[key]
    ensures key !in m ==>
              r[key] == EmptyNodeData().(id := p.id, output := p.output, outputType := p.outputType, image := p.image)
  {
    var d := if key in m then m[key] else EmptyNodeData();
    m[key := d.(id := Overwrite(d.id, p.id), output := Overwrite(d.output, p.output),
                outputType := Overwrite(d.outputType, p.outputType), image := Overwrite(d.image, p.image))]
  }

  /** A node of the graph as the flow store holds it (its canvas position is not modelled). */
  datatype FlowNode = FlowNode(id: string, nodeType: Option<string>, nodeLabel: string)

  datatype Edge = Edge(source: string, target: string)

  /** The flow a project saves and loads: its nodes, its edges and the per-node data. */
  datatype FlowState = FlowState(nodes: seq<FlowNode>, edges: seq<Edge>, nodeData: map<string, NodeData>)
}
