/** The text-to-image adapter `executeSDForgeNode`. */
module SDForgeNode {
  import opened Js
  import opened Backend
  import opened FlowTypes
  import opened RunState
  import opened Steps

  /** The JSON body posted to `/sdapi/v1/txt2img` (the checkpoint is its `override_settings`). */
  datatype Txt2ImgRequest = Txt2ImgRequest(
    prompt: Option<string>,
    width: Option<int>,
    height: Option<int>,
    steps: Option<int>,
    samplerName: Option<string>,
    cfgScale: Option<real>,
    scheduler: Option<string>,
    seed: int,
    checkpoint: Option<string>,
    baseUrl: string)

  function Header(nodeId: string): string {
    "\nExecuting SDForge Node: " + nodeId + "...\n"
  }

  function ErrorMessage(nodeId: string, message: string): string {
    "Error in SDForge Node " + nodeId + ": " + message
  }

  /** The message thrown for a response whose status is not in the 2xx range. */
  function HttpErrorMessage(status: nat): string {
    "HTTP error! status: " + NatToString(status)
  }

  function SuccessLine(): string {
    "\nImage generated successfully!\n"
  }

  /** The image shown in the dialog: the base64 payload as a PNG data URL. */
  function DataUrl(image: string): string {
    "data:image/png;base64," + image
  }

  /**
   * The request for a node: the upstream input when it is non-empty, else the node's image
   * prompt; the other fields are passed through as stored, and the seed is drawn from `random`.
   */
  function RequestFor(d: NodeData, input: string, baseUrl: string, random: real): (r: Txt2ImgRequest)
    ensures input != "" ==> r.prompt == Some(input)
    ensures input == "" ==> r.prompt == d.imagePrompt
    ensures r.width == d.width && r.height == d.height && r.steps == d.samplingSteps
    ensures r.samplerName == d.samplingMethod && r.cfgScale == d.guidanceScale
    ensures r.scheduler == d.schedulerType && r.checkpoint == d.model && r.baseUrl == baseUrl
    ensures IsRandom(random) ==> 0 <= r.seed < 1000000000
  {
    Txt2ImgRequest(StringOr(input, d.imagePrompt), d.width, d.height, d.samplingSteps, d.samplingMethod,
                   d.guidanceScale, d.schedulerType, Seed(random), d.model, baseUrl)
  }

  /** The flag resets and the header that precede the request. */
  function Start(s: UiState, nodeId: string): UiState {
    s.(progress := 0, currentImage := None, finalImage := None, canceled := false, isGenerating := true,
       transcript := s.transcript + Header(nodeId))
  }

  /** The effect of `executeSDForgeNode` on the run state, for a given outcome of the request. */
  function Step(s: UiState, nodeId: string, cfg: map<string, NodeData>, call: ImageCall): StepResult {
    if nodeId !in cfg then StepResult(s, Returned(""))
    else Respond(Start(s, nodeId), nodeId, call)
  }

  /** The `try` block after the header, and its `catch`. */
  function Respond(s: UiState, nodeId: string, call: ImageCall): StepResult {
    if call.RequestFailed? then Fail(s, nodeId, call.message)
    else if !HttpOk(call.status) then Fail(s, nodeId, HttpErrorMessage(call.status))
    else Succeed(s, nodeId, call.image)
  }

  /** Publishing the image: final image, full progress, the store write and the success line. */
  function Succeed(s: UiState, nodeId: string, image: string): StepResult {
    StepResult(s.(finalImage := Some(DataUrl(image)), progress := 100, isGenerating := false,
                  store := UpdateNodeData(s.store, nodeId, Patch(None, Some(image), Some("image"), None)),
                  transcript := s.transcript + SuccessLine()),
               Returned(image))
  }

  /** The catch block: generation stops, the error line is appended and the error rethrown. */
  function Fail(s: UiState, nodeId: string, message: string): StepResult {
    StepResult(s.(isGenerating := false, transcript := s.transcript + ("\n" + ErrorMessage(nodeId, message))),
               Threw(ErrorMessage(nodeId, message)))
  }

  /** A missing node record changes no flag and no text, and hands "" to the next node. */
  lemma StepMissingConfig(s: UiState, nodeId: string, cfg: map<string, NodeData>, call: ImageCall)
    requires nodeId !in cfg
    ensures Step(s, nodeId, cfg, call) == StepResult(s, Returned(""))
  {
  }

  /**
   * Once the node has a record, the run ends with generation stopped, not canceled and no
   * preview image; progress and the final image tell success from failure.
   */
  lemma StepFlags(s: UiState, nodeId: string, cfg: map<string, NodeData>, call: ImageCall)
    requires nodeId in cfg
    ensures !Step(s, nodeId, cfg, call).state.isGenerating
    ensures !Step(s, nodeId, cfg, call).state.canceled
    ensures Step(s, nodeId, cfg, call).state.currentImage == None
    ensures Step(s, nodeId, cfg, call).outcome.Returned? ==>
              && Step(s, nodeId, cfg, call).state.progress == 100
              && Step(s, nodeId, cfg, call).state.finalImage == Some(DataUrl(Step(s, nodeId, cfg, call).outcome.value))
    ensures Step(s, nodeId, cfg, call).outcome.Threw? ==>
              && Step(s, nodeId, cfg, call).state.progress == 0
              && Step(s, nodeId, cfg, call).state.finalImage == None
  {
    if call.RequestFailed? {
    } else if !HttpOk(call.status) {
    } else {
    }
  }

  /** The run flags the walker owns, and the image-to-image map, are left alone. */
  lemma StepFrame(s: UiState, nodeId: string, cfg: map<string, NodeData>, call: ImageCall)
    ensures Step(s, nodeId, cfg, call).state.processing == s.processing
    ensures Step(s, nodeId, cfg, call).state.loading == s.loading
    ensures Step(s, nodeId, cfg, call).state.dialogOpen == s.dialogOpen
    ensures Step(s, nodeId, cfg, call).state.imageNode == s.imageNode
  {
    if nodeId in cfg {
      if call.RequestFailed? {
      } else if !HttpOk(call.status) {
      } else {
      }
    }
  }

  /** After the header the transcript only grows, by the success line or by the error line. */
  lemma RespondGrows(s: UiState, nodeId: string, call: ImageCall)
    ensures StartsWith(Respond(s, nodeId, call).state.transcript, s.transcript)
  {
    if call.RequestFailed? {
      StartsWithAppend(s.transcript, "\n" + ErrorMessage(nodeId, call.message));
    } else if !HttpOk(call.status) {
      StartsWithAppend(s.transcript, "\n" + ErrorMessage(nodeId, HttpErrorMessage(call.status)));
    } else {
      StartsWithAppend(s.transcript, SuccessLine());
    }
  }

  /** When the node has a record, the header is appended before anything else. */
  lemma StepAppendsHeader(s: UiState, nodeId: string, cfg: map<string, NodeData>, call: ImageCall)
    requires nodeId in cfg
    ensures StartsWith(Step(s, nodeId, cfg, call).state.transcript, s.transcript + Header(nodeId))
  {
    RespondGrows(Start(s, nodeId), nodeId, call);
  }

  /** The adapter only ever appends to the transcript. */
  lemma StepGrows(s: UiState, nodeId: string, cfg: map<string, NodeData>, call: ImageCall)
    ensures StartsWith(Step(s, nodeId, cfg, call).state.transcript, s.transcript)
  {
    if nodeId in cfg {
      StepAppendsHeader(s, nodeId, cfg, call);
      StartsWithAppend(s.transcript, Header(nodeId));
      StartsWithTrans(s.transcript, s.transcript + Header(nodeId), Step(s, nodeId, cfg, call).state.transcript);
    } else {
      StartsWithRefl(s.transcript);
    }
  }

  /**
   * The adapter throws exactly when the request failed or was answered with a non-2xx status;
   * the message names the node, the transcript ends with it and the store is untouched.
   */
  lemma StepThrows(s: UiState, nodeId: string, cfg: map<string, NodeData>, call: ImageCall)
    ensures Step(s, nodeId, cfg, call).outcome.Threw? <==> nodeId in cfg && !(call.Responded? && HttpOk(call.status))
    ensures Step(s, nodeId, cfg, call).outcome.Threw? ==>
              && StartsWith(Step(s, nodeId, cfg, call).outcome.message, "Error in SDForge Node " + nodeId + ": ")
              && EndsWith(Step(s, nodeId, cfg, call).state.transcript, "\n" + Step(s, nodeId, cfg, call).outcome.message)
              && Step(s, nodeId, cfg, call).state.store == s.store
  {
    if nodeId in cfg && !(call.Responded? && HttpOk(call.status)) {
      var m := if call.RequestFailed? then call.message else HttpErrorMessage(call.status);
      StartsWithAppend("Error in SDForge Node " + nodeId + ": ", m);
      EndsWithAppend(Start(s, nodeId).transcript, "\n" + ErrorMessage(nodeId, m));
    }
  }

  /** A non-2xx status is reported with its decimal code. */
  lemma StepHttpError(s: UiState, nodeId: string, cfg: map<string, NodeData>, status: nat, image: string)
    requires nodeId in cfg && !HttpOk(status)
    ensures Step(s, nodeId, cfg, Responded(status, image)).outcome
            == Threw(ErrorMessage(nodeId, "HTTP error! status: " + NatToString(status)))
  {
  }

  /**
   * On success the raw base64 image is returned and stored as the node's output of type
   * "image", and the transcript gains the header and the success line.
   */
  lemma StepSucceeds(s: UiState, nodeId: string, cfg: map<string, NodeData>, call: ImageCall)
    requires nodeId in cfg && Step(s, nodeId, cfg, call).outcome.Returned?
    ensures call.Responded? && HttpOk(call.status)
    ensures Step(s, nodeId, cfg, call).outcome.value == call.image
    ensures Step(s, nodeId, cfg, call).state.transcript == s.transcript + Header(nodeId) + SuccessLine()
    ensures Step(s, nodeId, cfg, call).state.store[nodeId].output == Some(call.image)
    ensures Step(s, nodeId, cfg, call).state.store[nodeId].outputType == Some("image")
    ensures forall k :: k in s.store && k != nodeId ==> Step(s, nodeId, cfg, call).state.store[k] == s.store[k]
  {
  }

  /**
   * `executeSDForgeNode`: resets the image flags, writes the header, posts the request and
   * either publishes the image or reports the error.
   */
  method ExecuteSDForgeNode(s: Session, nodeId: string, input: string, cfg: map<string, NodeData>,
                            baseUrl: string, random: real, call: ImageCall)
    returns (outcome: Outcome, sent: Option<Txt2ImgRequest>)
    modifies s
    ensures StepResult(s.View(), outcome) == Step(old(s.View()), nodeId, cfg, call)
    ensures sent == if nodeId in cfg then Some(RequestFor(cfg[nodeId], input, baseUrl, random)) else None
  {
    if nodeId !in cfg {
      return Returned(""), None;
    }
    var d := cfg[nodeId];
    Begin(s, nodeId);
    var prompt := if input != "" then Some(input) else d.imagePrompt;
    sent := Some(Txt2ImgRequest(prompt, d.width, d.height, d.samplingSteps, d.samplingMethod, d.guidanceScale,
                                d.schedulerType, (random * 1000000000.0).Floor, d.model, baseUrl));
    outcome := RespondTo(s, nodeId, call);
  }

  /** The flag resets and the header. */
  method Begin(s: Session, nodeId: string)
    modifies s
    ensures s.View() == Start(old(s.View()), nodeId)
  {
    s.progress := 0;
    s.currentImage := None;
    s.finalImage := None;
    s.canceled := false;
    s.isGenerating := true;
    s.Append(Header(nodeId));
  }

  /** The `try` block after the header, and its `catch`. */
  method RespondTo(s: Session, nodeId: string, call: ImageCall) returns (outcome: Outcome)
    modifies s
    ensures StepResult(s.View(), outcome) == Respond(old(s.View()), nodeId, call)
  {
    if call.RequestFailed? {
      outcome := Throw(s, nodeId, call.message);
    } else if !HttpOk(call.status) {
      outcome := Throw(s, nodeId, "HTTP error! status: " + NatToString(call.status));
    } else {
      outcome := Publish(s, nodeId, call.image);
    }
  }

  method Publish(s: Session, nodeId: string, image: string) returns (outcome: Outcome)
    modifies s
    ensures StepResult(s.View(), outcome) == Succeed(old(s.View()), nodeId, image)
  {
    var finalImageUrl := DataUrl(image);
    s.finalImage := Some(finalImageUrl);
    s.progress := 100;
    s.isGenerating := false;
    s.store := UpdateNodeData(s.store, nodeId, Patch(None, Some(image), Some("image"), None));
    s.Append(SuccessLine());
    outcome := Returned(image);
  }

  /** The catch block. */
  method Throw(s: Session, nodeId: string, message: string) returns (outcome: Outcome)
    modifies s
    ensures StepResult(s.View(), outcome) == Fail(old(s.View()), nodeId, message)
  {
    s.isGenerating := false;
    var errorMessage := ErrorMessage(nodeId, message);
    s.Append("\n" + errorMessage);
    outcome := Threw(errorMessage);
  }
}
