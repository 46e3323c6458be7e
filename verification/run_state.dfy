/**
 * The state a workflow run touches through its setters: the transcript, the image-generation
 * progress and images, the run flags, the store's per-node data and the image-to-image map.
 */
module RunState {
  import opened Js
  import opened FlowTypes

  datatype UiState = UiState(
    transcript: string,
    progress: int,
    currentImage: Option<string>,
    finalImage: Option<string>,
    canceled: bool,
    isGenerating: bool,
    processing: bool,
    loading: bool,
    dialogOpen: bool,
    store: map<string, NodeData>,
    imageNode: map<string, string>)

  /** The run flags agree in both states. */
  predicate SameRunFlags(a: UiState, b: UiState) {
    && a.canceled == b.canceled && a.isGenerating == b.isGenerating && a.processing == b.processing
    && a.loading == b.loading && a.dialogOpen == b.dialogOpen
  }

  class Session {
    var transcript: string
    var progress: int
    var currentImage: Option<string>
    var finalImage: Option<string>
    var canceled: bool
    var isGenerating: bool
    var processing: bool
    var loading: bool
    var dialogOpen: bool
    var store: map<string, NodeData>
    var imageNode: map<string, string>

    function View(): UiState
      reads this
    {
      UiState(transcript, progress, currentImage, finalImage, canceled, isGenerating,
              processing, loading, dialogOpen, store, imageNode)
    }

    constructor (initial: UiState)
      ensures View() == initial
    {
      transcript := initial.transcript;
      progress := initial.progress;
      currentImage := initial.currentImage;
      finalImage := initial.finalImage;
      canceled := initial.canceled;
      isGenerating := initial.isGenerating;
      processing := initial.processing;
      loading := initial.loading;
      dialogOpen := initial.dialogOpen;
      store := initial.store;
      imageNode := initial.imageNode;
    }

    /** The setter built by `createStreamingOutputSetter`: it appends to the transcript. */
    method Append(text: string)
      modifies this
      ensures View() == old(View()).(transcript := old(transcript) + text)
    {
      transcript := transcript + text;
    }
  }
}

/** What an adapter leaves behind: the new state and how it finished. */
module Steps {
  import opened Backend
  import opened RunState

  datatype StepResult = StepResult(state: UiState, outcome: Outcome)
}
