/** The image-to-image adapter `executeSDImageToImageNode`. */
module SDImageToImageNode {
  import opened Js
  import opened Backend
  import opened FlowTypes
  import opened RunState
  import opened Steps
  import SD = SDForgeNode

  /** A value a `catch` block receives: an `Error` carries a message, anything else prints as text. */
  datatype Thrown = ErrorValue(message: string) | OtherValue(rendered: string)

  /** How the catch block writes a thrown value into its message. */
  function Describe(t: Thrown): string {
    match t
    case ErrorValue(m) => m
    case OtherValue(r) => r
  }

  /** What reading an attached file as a data URL produced. */
  datatype FileRead = Loaded(dataUrl: string) | ReadFailed(thrown: Thrown)

  /** A file stored for the node, with its MIME type. */
  datatype Attachment = Attachment(mimeType: string, read: FileRead)

  /** The image sent to the backend, or the message the attachment was rejected with. */
  datatype Source = Ready(encoded: Option<string>) | Rejected(message: string)

  /** The JSON body posted to `/sdapi/v1/img2img` (the checkpoint is its `override_settings`). */
  datatype Img2ImgRequest = Img2ImgRequest(
    initImage: Option<string>,
    prompt: Option<string>,
    width: int,
    height: int,
    steps: int,
    samplerName: string,
    cfgScale: real,
    scheduler: string,
    seed: int,
    checkpoint: string,
    baseUrl: string)

  function Header(nodeId: string): string {
    "\n" + ("Executing SD Image to Image Node: " + nodeId + "...") + "\n"
  }

  function NotSDForgeMessage(nodeId: string): string {
    "Node " + nodeId + " is not an SDForge node!"
  }

  /** `v || d` on a number: `undefined` and 0 are falsy. */
  function IntOr(v: Option<int>, d: int): (r: int)
    ensures v.Some? && v.value != 0 ==> r == v.value
    ensures (v.None? || v.value == 0) ==> r == d
  {
    if v.Some? && v.value != 0 then v.value else d
  }

  function RealOr(v: Option<real>, d: real): (r: real)
    ensures v.Some? && v.value != 0.0 ==> r == v.value
    ensures (v.None? || v.value == 0.0) ==> r == d
  {
    if v.Some? && v.value != 0.0 then v.value else d
  }

  /** `v || d` on a string: `undefined` and "" are falsy. */
  function StrOr(v: Option<string>, d: string): (r: string)
    ensures v.Some? && v.value != "" ==> r == v.value
    ensures (v.None? || v.value == "") ==> r == d
  {
    if v.Some? && v.value != "" then v.value else d
  }

  /**
   * The image to send: the `image` argument unless the node has an attached file, which must
   * have an image MIME type and is then read as a data URL.
   */
  function SourceImage(image: Option<string>, attachment: Option<Attachment>): (r: Source)
    ensures attachment.None? ==> r == Ready(image)
    ensures attachment.Some? && !StartsWith(attachment.value.mimeType, "image/") ==>
              r == Rejected("Unsupported file type: " + attachment.value.mimeType)
    ensures attachment.Some? && StartsWith(attachment.value.mimeType, "image/") ==>
              r == match attachment.value.read
                   case Loaded(url) => Ready(Some(url))
                   case ReadFailed(t) => Rejected(Describe(t))
  {
    if attachment.None? then Ready(image)
    else if !StartsWith(attachment.value.mimeType, "image/") then
      Rejected("Unsupported file type: " + attachment.value.mimeType)
    else
      match attachment.value.read
      case Loaded(url) => Ready(Some(url))
      case ReadFailed(t) => Rejected(Describe(t))
  }

  /**
   * The request for a node: the prompt is the upstream input when non-empty, else the node's
   * prompt; every falsy setting is replaced by its default, so none of them is ever falsy.
   */
  function RequestFor(d: NodeData, input: string, encoded: Option<string>, baseUrl: string, random: real)
    : (r: Img2ImgRequest)
    ensures r.initImage == encoded && r.baseUrl == baseUrl
    ensures r.prompt == StringOr(input, d.prompt)
    ensures r.width != 0 && r.height != 0 && r.steps != 0 && r.cfgScale != 0.0
    ensures r.samplerName != "" && r.scheduler != "" && r.checkpoint != ""
    ensures (d.width.None? || d.width.value == 0) ==> r.width == 512
    ensures (d.height.None? || d.height.value == 0) ==> r.height == 512
    ensures (d.samplingSteps.None? || d.samplingSteps.value == 0) ==> r.steps == 50
    ensures (d.samplingMethod.None? || d.samplingMethod.value == "") ==> r.samplerName == "Euler a"
    ensures (d.guidanceScale.None? || d.guidanceScale.value == 0.0) ==> r.cfgScale == 7.5
    ensures (d.schedulerType.None? || d.schedulerType.value == "") ==> r.scheduler == "Karras"
    ensures (d.model.None? || d.model.value == "") ==> r.checkpoint == "stable-diffusion-v1-5"
    ensures d.width.Some? && d.width.value != 0 ==> r.width == d.width.value
    ensures d.model.Some? && d.model.value != "" ==> r.checkpoint == d.model.value
    ensures IsRandom(random) ==> 0 <= r.seed < 1000000000
  {
    Img2ImgRequest(encoded, StringOr(input, d.prompt), IntOr(d.width, 512), IntOr(d.height, 512),
                   IntOr(d.samplingSteps, 50), StrOr(d.samplingMethod, "Euler a"), RealOr(d.guidanceScale, 7.5),
                   StrOr(d.schedulerType, "Karras"), Seed(random), StrOr(d.model, "stable-diffusion-v1-5"), baseUrl)
  }

  /** The flag resets and the header that precede the request. */
  function Start(s: UiState, nodeId: string): UiState {
    s.(progress := 0, currentImage := None, finalImage := None, canceled := false, isGenerating := true,
       transcript := s.transcript + Header(nodeId))
  }

  /** The effect of `executeSDImageToImageNode`; `isImageToImage` is the result of the node-data guard. */
  function Step(s: UiState, nodeId: string, cfg: map<string, NodeData>, isImageToImage: bool,
                image: Option<string>, attachment: Option<Attachment>, call: ImageCall): StepResult
  {
    if nodeId !in cfg then StepResult(s, Returned(""))
    else if !isImageToImage then StepResult(s, Threw(NotSDForgeMessage(nodeId)))
    else Respond(Start(s, nodeId), nodeId, SourceImage(image, attachment), call)
  }

  /** The `try` block after the header, and its `catch`. */
  function Respond(s: UiState, nodeId: string, source: Source, call: ImageCall): StepResult {
    if source.Rejected? then SD.Fail(s, nodeId, source.message)
    else Request(s, nodeId, call)
  }

  /** The request and what follows it, once the source image is known. */
  function Request(s: UiState, nodeId: string, call: ImageCall): StepResult {
    if call.RequestFailed? then SD.Fail(s, nodeId, call.message)
    else if !HttpOk(call.status) then SD.Fail(s, nodeId, SD.HttpErrorMessage(call.status))
    else Succeed(s, nodeId, call.image)
  }

  /** Publishing the image: the node's map entry, the final image, the store write and the success line. */
  function Succeed(s: UiState, nodeId: string, image: string): StepResult {
    StepResult(s.(imageNode := s.imageNode[nodeId := SD.DataUrl(image)], finalImage := Some(SD.DataUrl(image)),
                  progress := 100, isGenerating := false,
                  store := UpdateNodeData(s.store, nodeId, Patch(Some(nodeId), None, None, Some(image))),
                  transcript := s.transcript + SD.SuccessLine()),
               Returned(image))
  }

  /** A missing node record changes nothing and yields "". */
  lemma StepMissingConfig(s: UiState, nodeId: string, cfg: map<string, NodeData>, isImageToImage: bool,
                          image: Option<string>, attachment: Option<Attachment>, call: ImageCall)
    requires nodeId !in cfg
    ensures Step(s, nodeId, cfg, isImageToImage, image, attachment, call) == StepResult(s, Returned(""))
  {
  }

  /** A record that fails the guard is rejected before any flag or text changes. */
  lemma StepNotImageToImage(s: UiState, nodeId: string, cfg: map<string, NodeData>,
                            image: Option<string>, attachment: Option<Attachment>, call: ImageCall)
    requires nodeId in cfg
    ensures Step(s, nodeId, cfg, false, image, attachment, call).state == s
    ensures Step(s, nodeId, cfg, false, image, attachment, call).outcome == Threw("Node " + nodeId + " is not an SDForge node!")
  {
  }

  /** An attachment that is not an image fails the node with the MIME type in the message. */
  lemma StepUnsupportedFile(s: UiState, nodeId: string, cfg: map<string, NodeData>,
                            image: Option<string>, a: Attachment, call: ImageCall)
    requires nodeId in cfg && !StartsWith(a.mimeType, "image/")
    ensures Step(s, nodeId, cfg, true, image, Some(a), call).outcome
            == Threw(SD.ErrorMessage(nodeId, "Unsupported file type: " + a.mimeType))
    ensures EndsWith(Step(s, nodeId, cfg, true, image, Some(a), call).state.transcript,
                     "\n" + SD.ErrorMessage(nodeId, "Unsupported file type: " + a.mimeType))
    ensures !Step(s, nodeId, cfg, true, image, Some(a), call).state.isGenerating
    ensures Step(s, nodeId, cfg, true, image, Some(a), call).state.imageNode == s.imageNode
    ensures Step(s, nodeId, cfg, true, image, Some(a), call).state.store == s.store
  {
    EndsWithAppend(Start(s, nodeId).transcript, "\n" + SD.ErrorMessage(nodeId, "Unsupported file type: " + a.mimeType));
  }

  /** A file that cannot be read fails the node alike, whether the reader threw an `Error` or not. */
  lemma StepReadFailed(s: UiState, nodeId: string, cfg: map<string, NodeData>,
                       image: Option<string>, mimeType: string, t: Thrown, call: ImageCall)
    requires nodeId in cfg && StartsWith(mimeType, "image/")
    ensures Step(s, nodeId, cfg, true, image, Some(Attachment(mimeType, ReadFailed(t))), call).outcome
            == Threw(SD.ErrorMessage(nodeId, Describe(t)))
    ensures EndsWith(Step(s, nodeId, cfg, true, image, Some(Attachment(mimeType, ReadFailed(t))), call).state.transcript,
                     "\n" + SD.ErrorMessage(nodeId, Describe(t)))
  {
    EndsWithAppend(Start(s, nodeId).transcript, "\n" + SD.ErrorMessage(nodeId, Describe(t)));
  }

  /** After the header, generation always ends stopped; the request part succeeds exactly on a 2xx answer. */
  lemma RespondOutcome(s: UiState, nodeId: string, source: Source, call: ImageCall)
    ensures !Respond(s, nodeId, source, call).state.isGenerating
    ensures Respond(s, nodeId, source, call).state.canceled == s.canceled
    ensures Respond(s, nodeId, source, call).outcome.Returned? <==> source.Ready? && call.Responded? && HttpOk(call.status)
  {
    if source.Rejected? {
    } else if call.RequestFailed? {
    } else if !HttpOk(call.status) {
    } else {
    }
  }

  /**
   * Past the guard the run ends with generation stopped; it succeeds exactly when the source
   * image was available and the request was answered with a 2xx status.
   */
  lemma StepOutcome(s: UiState, nodeId: string, cfg: map<string, NodeData>,
                    image: Option<string>, attachment: Option<Attachment>, call: ImageCall)
    requires nodeId in cfg
    ensures !Step(s, nodeId, cfg, true, image, attachment, call).state.isGenerating
    ensures !Step(s, nodeId, cfg, true, image, attachment, call).state.canceled
    ensures Step(s, nodeId, cfg, true, image, attachment, call).outcome.Returned?
            <==> SourceImage(image, attachment).Ready? && call.Responded? && HttpOk(call.status)
  {
    RespondOutcome(Start(s, nodeId), nodeId, SourceImage(image, attachment), call);
  }

  /**
   * On success the node's entry in the image map becomes the data URL and no other entry
   * changes; the final image is the same URL, the raw image is returned and stored.
   */
  lemma StepSucceeds(s: UiState, nodeId: string, cfg: map<string, NodeData>,
                     image: Option<string>, attachment: Option<Attachment>, call: ImageCall)
    requires nodeId in cfg && Step(s, nodeId, cfg, true, image, attachment, call).outcome.Returned?
    ensures call.Responded? && Step(s, nodeId, cfg, true, image, attachment, call).outcome.value == call.image
    ensures Step(s, nodeId, cfg, true, image, attachment, call).state.imageNode.Keys == s.imageNode.Keys + {nodeId}
    ensures Step(s, nodeId, cfg, true, image, attachment, call).state.imageNode[nodeId] == "data:image/png;base64," + call.image
    ensures forall k :: k in s.imageNode && k != nodeId ==>
              Step(s, nodeId, cfg, true, image, attachment, call).state.imageNode[k] == s.imageNode[k]
    ensures Step(s, nodeId, cfg, true, image, attachment, call).state.finalImage == Some("data:image/png;base64," + call.image)
    ensures Step(s, nodeId, cfg, true, image, attachment, call).state.progress == 100
    ensures Step(s, nodeId, cfg, true, image, attachment, call).state.store[nodeId].image == Some(call.image)
    ensures Step(s, nodeId, cfg, true, image, attachment, call).state.store[nodeId].id == Some(nodeId)
    ensures forall k :: k in s.store && k != nodeId ==>
              Step(s, nodeId, cfg, true, image, attachment, call).state.store[k] == s.store[k]
    ensures Step(s, nodeId, cfg, true, image, attachment, call).state.transcript
            == s.transcript + Header(nodeId) + "\nImage generated successfully!\n"
  {
  }

  /**
   * After the header, the `try` block throws exactly when the attachment was rejected, the
   * request failed or the answer was not 2xx; the catch prefixes the node, appends the
   * message on a new line and touches neither the image map nor the store.
   */
  lemma RespondThrows(s: UiState, nodeId: string, source: Source, call: ImageCall)
    ensures Respond(s, nodeId, source, call).outcome.Threw?
            <==> source.Rejected? || !(call.Responded? && HttpOk(call.status))
    ensures Respond(s, nodeId, source, call).outcome.Threw? ==>
              && StartsWith(Respond(s, nodeId, source, call).outcome.message, "Error in SDForge Node " + nodeId + ": ")
              && EndsWith(Respond(s, nodeId, source, call).state.transcript, "\n" + Respond(s, nodeId, source, call).outcome.message)
              && Respond(s, nodeId, source, call).state.imageNode == s.imageNode
              && Respond(s, nodeId, source, call).state.store == s.store
  {
    if source.Rejected? || !(call.Responded? && HttpOk(call.status)) {
      var m := if source.Rejected? then source.message
               else if call.RequestFailed? then call.message
               else SD.HttpErrorMessage(call.status);
      assert Respond(s, nodeId, source, call) == SD.Fail(s, nodeId, m);
      StartsWithAppend("Error in SDForge Node " + nodeId + ": ", m);
      EndsWithAppend(s.transcript, "\n" + SD.ErrorMessage(nodeId, m));
    }
  }

  /**
   * Past the guard the adapter throws exactly when the attachment was rejected, the request
   * failed or the answer was not 2xx; the message names the node, the transcript ends with
   * it, and the image map and the store are untouched.
   */
  lemma StepThrows(s: UiState, nodeId: string, cfg: map<string, NodeData>,
                   image: Option<string>, attachment: Option<Attachment>, call: ImageCall)
    requires nodeId in cfg
    ensures Step(s, nodeId, cfg, true, image, attachment, call).outcome.Threw?
            <==> SourceImage(image, attachment).Rejected? || !(call.Responded? && HttpOk(call.status))
    ensures Step(s, nodeId, cfg, true, image, attachment, call).outcome.Threw? ==>
              && StartsWith(Step(s, nodeId, cfg, true, image, attachment, call).outcome.message,
                            "Error in SDForge Node " + nodeId + ": ")
              && EndsWith(Step(s, nodeId, cfg, true, image, attachment, call).state.transcript,
                          "\n" + Step(s, nodeId, cfg, true, image, attachment, call).outcome.message)
              && Step(s, nodeId, cfg, true, image, attachment, call).state.imageNode == s.imageNode
              && Step(s, nodeId, cfg, true, image, attachment, call).state.store == s.store
  {
    RespondThrows(Start(s, nodeId), nodeId, SourceImage(image, attachment), call);
  }

  /** A non-2xx status, once the source image is known, is reported with its decimal code. */
  lemma StepHttpError(s: UiState, nodeId: string, cfg: map<string, NodeData>,
                      image: Option<string>, attachment: Option<Attachment>, status: nat, result: string)
    requires nodeId in cfg && SourceImage(image, attachment).Ready? && !HttpOk(status)
    ensures Step(s, nodeId, cfg, true, image, attachment, Responded(status, result)).outcome
            == Threw(SD.ErrorMessage(nodeId, "HTTP error! status: " + NatToString(status)))
  {
  }

  /** After the header, a failure leaves the image map and the store as they were. */
  lemma RespondFailureKeepsMaps(s: UiState, nodeId: string, source: Source, call: ImageCall)
    requires Respond(s, nodeId, source, call).outcome.Threw?
    ensures Respond(s, nodeId, source, call).state.imageNode == s.imageNode
    ensures Respond(s, nodeId, source, call).state.store == s.store
  {
    if source.Rejected? {
    } else if call.RequestFailed? {
    } else {
    }
  }

  /** A failure leaves the image map and the store as they were. */
  lemma StepFailureKeepsMaps(s: UiState, nodeId: string, cfg: map<string, NodeData>, isImageToImage: bool,
                             image: Option<string>, attachment: Option<Attachment>, call: ImageCall)
    requires Step(s, nodeId, cfg, isImageToImage, image, attachment, call).outcome.Threw?
    ensures Step(s, nodeId, cfg, isImageToImage, image, attachment, call).state.imageNode == s.imageNode
    ensures Step(s, nodeId, cfg, isImageToImage, image, attachment, call).state.store == s.store
  {
    if nodeId in cfg && isImageToImage {
      RespondFailureKeepsMaps(Start(s, nodeId), nodeId, SourceImage(image, attachment), call);
    }
  }

  /** After the header, the flags the walker owns are left alone. */
  lemma RespondFrame(s: UiState, nodeId: string, source: Source, call: ImageCall)
    ensures SameRunFlags(Respond(s, nodeId, source, call).state.(canceled := s.canceled, isGenerating := s.isGenerating), s)
  {
    if source.Rejected? {
    } else if call.RequestFailed? {
    } else if !HttpOk(call.status) {
    } else {
    }
  }

  /** The flags the walker owns are left alone. */
  lemma StepFrame(s: UiState, nodeId: string, cfg: map<string, NodeData>, isImageToImage: bool,
                  image: Option<string>, attachment: Option<Attachment>, call: ImageCall)
    ensures Step(s, nodeId, cfg, isImageToImage, image, attachment, call).state.processing == s.processing
    ensures Step(s, nodeId, cfg, isImageToImage, image, attachment, call).state.loading == s.loading
    ensures Step(s, nodeId, cfg, isImageToImage, image, attachment, call).state.dialogOpen == s.dialogOpen
  {
    if nodeId in cfg && isImageToImage {
      RespondFrame(Start(s, nodeId), nodeId, SourceImage(image, attachment), call);
    }
  }

  /**
   * `executeSDImageToImageNode`: checks the guard, resets the flags, writes the header, picks
   * the source image, posts the request with defaults filled in, and publishes the result.
   */
  method ExecuteSDImageToImageNode(s: Session, nodeId: string, input: string, image: Option<string>,
                                   cfg: map<string, NodeData>, isImageToImage: bool,
                                   attachment: Option<Attachment>, baseUrl: string, random: real, call: ImageCall)
    returns (outcome: Outcome, sent: Option<Img2ImgRequest>)
    modifies s
    ensures StepResult(s.View(), outcome) == Step(old(s.View()), nodeId, cfg, isImageToImage, image, attachment, call)
    ensures sent == if nodeId in cfg && isImageToImage && SourceImage(image, attachment).Ready?
                    then Some(RequestFor(cfg[nodeId], input, SourceImage(image, attachment).encoded, baseUrl, random))
                    else None
  {
    if nodeId !in cfg {
      return Returned(""), None;
    }
    if !isImageToImage {
      return Threw(NotSDForgeMessage(nodeId)), None;
    }
    var d := cfg[nodeId];
    Begin(s, nodeId);
    var encodedImage := image;
    if attachment.Some? {
      var mimeType := attachment.value.mimeType;
      if !StartsWith(mimeType, "image/") {
        outcome := SD.Throw(s, nodeId, "Unsupported file type: " + mimeType);
        return outcome, None;
      }
      match attachment.value.read
      case ReadFailed(t) =>
        outcome := SD.Throw(s, nodeId, Describe(t));
        return outcome, None;
      case Loaded(url) =>
        encodedImage := Some(url);
    }
    sent := Some(Img2ImgRequest(encodedImage, if input != "" then Some(input) else d.prompt,
                                IntOr(d.width, 512), IntOr(d.height, 512), IntOr(d.samplingSteps, 50),
                                StrOr(d.samplingMethod, "Euler a"), RealOr(d.guidanceScale, 7.5),
                                StrOr(d.schedulerType, "Karras"), (random * 1000000000.0).Floor,
                                StrOr(d.model, "stable-diffusion-v1-5"), baseUrl));
    outcome := RespondTo(s, nodeId, call);
  }

  /** The flag resets and the header. */
  method Begin(s: Session, nodeId: string)
    modifies s
    ensures s.View() == Start(old(s.View()), nodeId)
  {
    s.progress := 0;
    s.currentImage := None;
    s.finalImage := None;
    s.canceled := false;
    s.isGenerating := true;
    s.Append(Header(nodeId));
  }

  /** The request and what follows it, once the source image is known. */
  method RespondTo(s: Session, nodeId: string, call: ImageCall) returns (outcome: Outcome)
    modifies s
    ensures StepResult(s.View(), outcome) == Request(old(s.View()), nodeId, call)
  {
    if call.RequestFailed? {
      outcome := SD.Throw(s, nodeId, call.message);
    } else if !HttpOk(call.status) {
      outcome := SD.Throw(s, nodeId, "HTTP error! status: " + NatToString(call.status));
    } else {
      outcome := Publish(s, nodeId, call.image);
    }
  }

  method Publish(s: Session, nodeId: string, image: string) returns (outcome: Outcome)
    modifies s
    ensures StepResult(s.View(), outcome) == Succeed(old(s.View()), nodeId, image)
  {
    var finalImageUrl := SD.DataUrl(image);
    var stored := UpdateNodeData(s.store, nodeId, Patch(Some(nodeId), None, None, Some(image)));
    s.imageNode := s.imageNode[nodeId := finalImageUrl];
    s.finalImage := Some(finalImageUrl);
    s.progress := 100;
    s.isGenerating := false;
    s.store := stored;
    s.Append(SD.SuccessLine());
    outcome := Returned(image);
  }
}
