/** The text-generation adapter `executeOllamaNode`. */
module OllamaNode {
  import opened Js
  import opened Backend
  import opened FlowTypes
  import opened RunState
  import opened Steps

  /** The JSON body posted to `/api/ollama`. */
  datatype OllamaRequest = OllamaRequest(input: Option<string>, instructions: Option<string>, model: Option<string>, baseUrl: string)

  /** The transcript line written before the request. */
  function Header(nodeId: string): string {
    "\nExecuting Ollama Node: " + nodeId + "...\n"
  }

  function ErrorMessage(nodeId: string, message: string): string {
    "Error in Ollama Node " + nodeId + ": " + message
  }

  /** The request for a node: the upstream input when it is non-empty, else the node's own prompt. */
  function RequestFor(d: NodeData, input: string, baseUrl: string): (r: OllamaRequest)
    ensures input != "" ==> r.input == Some(input)
    ensures input == "" ==> r.input == d.prompt
    ensures r.instructions == d.instructions && r.model == d.model && r.baseUrl == baseUrl
  {
    OllamaRequest(StringOr(input, d.prompt), d.instructions, d.model, baseUrl)
  }

  /** The effect of `executeOllamaNode` on the run state, for a given outcome of the call. */
  function Step(s: UiState, nodeId: string, cfg: map<string, NodeData>, call: TextCall): StepResult
  {
    if nodeId !in cfg then StepResult(s, Returned(""))
    else Respond(s.(transcript := s.transcript + Header(nodeId)), nodeId, call)
  }

  /** What follows the header: the request, the stream and the catch block. */
  function Respond(s: UiState, nodeId: string, call: TextCall): StepResult
  {
    if call.FetchFailed? then Fail(s, s.transcript, nodeId, call.message)
    else if call.NoBody? then Fail(s, s.transcript, nodeId, "No response body")
    else
      var full := Concat(call.chunks);
      if call.readError.Some? then Fail(s, s.transcript + full, nodeId, call.readError.value)
      else
        StepResult(s.(transcript := s.transcript + full,
                      store := UpdateNodeData(s.store, nodeId, Patch(None, Some(full), None, None))),
                   Returned(full))
  }

  /** The catch block: the error line is appended and the error rethrown. */
  function Fail(s: UiState, written: string, nodeId: string, message: string): StepResult {
    StepResult(s.(transcript := written + ("\n" + ErrorMessage(nodeId, message))), Threw(ErrorMessage(nodeId, message)))
  }

  /** A missing node record changes nothing and hands "" to the next node. */
  lemma StepMissingConfig(s: UiState, nodeId: string, cfg: map<string, NodeData>, call: TextCall)
    requires nodeId !in cfg
    ensures Step(s, nodeId, cfg, call) == StepResult(s, Returned(""))
  {
  }

  /** After the header, only the transcript and the store change. */
  lemma RespondFrame(s: UiState, nodeId: string, call: TextCall)
    ensures SameRunFlags(s, Respond(s, nodeId, call).state)
    ensures Respond(s, nodeId, call).state.imageNode == s.imageNode
    ensures Respond(s, nodeId, call).state.progress == s.progress
    ensures Respond(s, nodeId, call).state.currentImage == s.currentImage
    ensures Respond(s, nodeId, call).state.finalImage == s.finalImage
  {
    if call.FetchFailed? {
    } else if call.NoBody? {
    } else if call.readError.Some? {
    } else {
    }
  }

  /** Only the transcript and the store change. */
  lemma StepFrame(s: UiState, nodeId: string, cfg: map<string, NodeData>, call: TextCall)
    ensures SameRunFlags(s, Step(s, nodeId, cfg, call).state)
    ensures Step(s, nodeId, cfg, call).state.imageNode == s.imageNode
    ensures Step(s, nodeId, cfg, call).state.progress == s.progress
    ensures Step(s, nodeId, cfg, call).state.currentImage == s.currentImage
    ensures Step(s, nodeId, cfg, call).state.finalImage == s.finalImage
  {
    if nodeId in cfg {
      RespondFrame(s.(transcript := s.transcript + Header(nodeId)), nodeId, call);
    }
  }

  /** After the header, the transcript only grows. */
  lemma RespondGrows(s: UiState, nodeId: string, call: TextCall)
    ensures StartsWith(Respond(s, nodeId, call).state.transcript, s.transcript)
  {
    var t := Respond(s, nodeId, call).state.transcript;
    if call.FetchFailed? {
      StartsWithAppend(s.transcript, "\n" + ErrorMessage(nodeId, call.message));
    } else if call.NoBody? {
      StartsWithAppend(s.transcript, "\n" + ErrorMessage(nodeId, "No response body"));
    } else {
      var full := s.transcript + Concat(call.chunks);
      StartsWithAppend(s.transcript, Concat(call.chunks));
      if call.readError.Some? {
        StartsWithAppend(full, "\n" + ErrorMessage(nodeId, call.readError.value));
        StartsWithTrans(s.transcript, full, t);
      }
    }
  }

  /** When the node has a record, the transcript grows by the header first. */
  lemma StepAppendsHeader(s: UiState, nodeId: string, cfg: map<string, NodeData>, call: TextCall)
    requires nodeId in cfg
    ensures StartsWith(Step(s, nodeId, cfg, call).state.transcript, s.transcript + Header(nodeId))
  {
    RespondGrows(s.(transcript := s.transcript + Header(nodeId)), nodeId, call);
  }

  /** The adapter only ever appends to the transcript. */
  lemma StepGrows(s: UiState, nodeId: string, cfg: map<string, NodeData>, call: TextCall)
    ensures StartsWith(Step(s, nodeId, cfg, call).state.transcript, s.transcript)
  {
    if nodeId in cfg {
      StepAppendsHeader(s, nodeId, cfg, call);
      StartsWithAppend(s.transcript, Header(nodeId));
      StartsWithTrans(s.transcript, s.transcript + Header(nodeId), Step(s, nodeId, cfg, call).state.transcript);
    } else {
      StartsWithRefl(s.transcript);
    }
  }

  /** Chunks already streamed stay in the transcript, whatever happens after them. */
  lemma StepKeepsChunks(s: UiState, nodeId: string, cfg: map<string, NodeData>, chunks: seq<string>, readError: Option<string>)
    requires nodeId in cfg
    ensures StartsWith(Step(s, nodeId, cfg, Body(chunks, readError)).state.transcript,
                       s.transcript + Header(nodeId) + Concat(chunks))
  {
    var written := s.transcript + Header(nodeId) + Concat(chunks);
    if readError.Some? {
      StartsWithAppend(written, "\n" + ErrorMessage(nodeId, readError.value));
    } else {
      StartsWithRefl(written);
    }
  }

  /**
   * The adapter throws exactly when the call did not end in a complete stream; the message
   * names the node, and the transcript ends with it.
   */
  lemma StepThrows(s: UiState, nodeId: string, cfg: map<string, NodeData>, call: TextCall)
    ensures Step(s, nodeId, cfg, call).outcome.Threw? <==> nodeId in cfg && !(call.Body? && call.readError.None?)
    ensures Step(s, nodeId, cfg, call).outcome.Threw? ==>
              && StartsWith(Step(s, nodeId, cfg, call).outcome.message, "Error in Ollama Node " + nodeId + ": ")
              && EndsWith(Step(s, nodeId, cfg, call).state.transcript, "\n" + Step(s, nodeId, cfg, call).outcome.message)
              && Step(s, nodeId, cfg, call).state.store == s.store
  {
    var r := Step(s, nodeId, cfg, call);
    if r.outcome.Threw? {
      var started := s.transcript + Header(nodeId);
      var m, before;
      match call {
        case FetchFailed(m') => m, before := m', started;
        case NoBody => m, before := "No response body", started;
        case Body(chunks, readError) => m, before := readError.value, started + Concat(chunks);
      }
      StartsWithAppend("Error in Ollama Node " + nodeId + ": ", m);
      EndsWithAppend(before, "\n" + ErrorMessage(nodeId, m));
    }
  }

  /** On success the answer is the whole stream, appended after the header and stored as the node's output. */
  lemma StepSucceeds(s: UiState, nodeId: string, cfg: map<string, NodeData>, call: TextCall)
    requires nodeId in cfg && Step(s, nodeId, cfg, call).outcome.Returned?
    ensures call.Body? && call.readError.None?
    ensures Step(s, nodeId, cfg, call).outcome.value == Concat(call.chunks)
    ensures Step(s, nodeId, cfg, call).state.transcript == s.transcript + Header(nodeId) + Concat(call.chunks)
    ensures Step(s, nodeId, cfg, call).state.store[nodeId].output == Some(Concat(call.chunks))
    ensures forall k :: k in s.store && k != nodeId ==> Step(s, nodeId, cfg, call).state.store[k] == s.store[k]
  {
  }

  /**
   * `executeOllamaNode`: writes the header, streams each chunk into the transcript as it
   * arrives while accumulating the full answer, then stores the answer as the node's output.
   */
  method ExecuteOllamaNode(s: Session, nodeId: string, input: string, cfg: map<string, NodeData>,
                           baseUrl: string, call: TextCall)
    returns (outcome: Outcome, sent: Option<OllamaRequest>)
    modifies s
    ensures StepResult(s.View(), outcome) == Step(old(s.View()), nodeId, cfg, call)
    ensures sent == if nodeId in cfg then Some(RequestFor(cfg[nodeId], input, baseUrl)) else None
  {
    if nodeId !in cfg {
      return Returned(""), None;
    }
    var d := cfg[nodeId];
    s.Append(Header(nodeId));
    sent := Some(OllamaRequest(if input != "" then Some(input) else d.prompt, d.instructions, d.model, baseUrl));
    outcome := RespondTo(s, nodeId, call);
  }

  /** The `try` block after the header, and its `catch`. */
  method RespondTo(s: Session, nodeId: string, call: TextCall) returns (outcome: Outcome)
    modifies s
    ensures StepResult(s.View(), outcome) == Respond(old(s.View()), nodeId, call)
  {
    if call.FetchFailed? {
      outcome := Throw(s, nodeId, call.message);
    } else if call.NoBody? {
      outcome := Throw(s, nodeId, "No response body");
    } else {
      var full := ReadStream(s, call.chunks);
      if call.readError.Some? {
        outcome := Throw(s, nodeId, call.readError.value);
      } else {
        s.store := UpdateNodeData(s.store, nodeId, Patch(None, Some(full), None, None));
        outcome := Returned(full);
      }
    }
  }

  /** The reader loop: each decoded chunk is added to the answer and appended to the transcript. */
  method ReadStream(s: Session, chunks: seq<string>) returns (full: string)
    modifies s
    ensures full == Concat(chunks)
    ensures s.View() == old(s.View()).(transcript := old(s.transcript) + full)
  {
    full := "";
    var i := 0;
    while i < |chunks|
      invariant 0 <= i <= |chunks|
      invariant full == Concat(chunks[..i])
      invariant s.View() == old(s.View()).(transcript := old(s.transcript) + full)
    {
      assert chunks[..i + 1] == chunks[..i] + [chunks[i]];
      ConcatSnoc(chunks[..i], chunks[i]);
      full := full + chunks[i];
      s.Append(chunks[i]);
      i := i + 1;
    }
    assert chunks[..|chunks|] == chunks;
  }

  /** The catch block: append the error line and rethrow it. */
  method Throw(s: Session, nodeId: string, message: string) returns (outcome: Outcome)
    modifies s
    ensures outcome == Threw(ErrorMessage(nodeId, message))
    ensures s.View() == old(s.View()).(transcript := old(s.transcript) + ("\n" + ErrorMessage(nodeId, message)))
  {
    var e := ErrorMessage(nodeId, message);
    s.Append("\n" + e);
    outcome := Threw(e);
  }
}
