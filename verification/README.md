# neuroflow core, modelled in Dafny

neuroflow is a node-based workflow editor. A canvas holds a chain of nodes: a Start node, text
nodes that call an Ollama server, and image nodes that call a Stable Diffusion Forge server.
Running the chain walks it from the Start node along the first edge leaving each node. Each node
is sent the previous node's answer (or its own prompt), and everything that happens is written
into one streaming transcript. The output page cuts a saved transcript back into one section per
node. A Redux store keeps the canvas, the backend settings and the fetch status of every
server resource.

This project models:

- the walker `executeWorkflow` with its start and cancel handlers;
- the three node adapters (text, text-to-image, image-to-image) and the session state they
  update;
- the transcript parser and the delete filter of the output page;
- the `/api/ollama` route;
- the older walker built into the Start node component;
- the node-data type guards;
- the store slices `flow`, `nodes`, `base`, `sd`, `ollama`, `project` and `output`;
- the sidebar's add-node guard and its project-load effect.

Modules, one per source file:

| module | models |
|---|---|
| `Js`, `JsText` | the JavaScript string and value behaviours the code relies on: `\|\|`, `??`, template literals, `trim`, a global `replace`, decimal printing |
| `Backend` | abstract outcomes of the network calls (a chunk stream, an HTTP status and image, an error) and the seed bound |
| `FlowTypes` | `src/types/flowTypes.ts` |
| `RunState` | the run-time state of the page that hosts a run (class `Session`) |
| `OllamaNode`, `SDForgeNode`, `SDImageToImageNode` | the three adapters in `src/lib/execute/` |
| `Workflow` | `src/lib/execute/executeWorkflow.ts` |
| `OutputPage` | `src/app/output/page.tsx` |
| `OllamaRoute` | `src/app/api/ollama/route.ts` |
| `LegacyStartNode` | `src/components/nodes/StartNode.tsx` |
| `FetchStatus` | the status/data/error triple all fetch slices share, and the thunks' error text |
| `FlowSlice`, `NodeSlice`, `BaseSlice`, `SdSlice`, `OllamaSlice`, `ProjectSlice`, `OutputSlice` | the store slices in `src/lib/features/` |
| `NavMain` | `src/components/nav-main.tsx` |

Code that changes state step by step is modelled as methods. The adapters and the walker
mutate a `Session`, and the slices are classes whose fields the reducers assign. Each such
method is proved equal to a pure function of the old state, such as `OllamaNode.Step`,
`Workflow.Walk` or `FetchStatus.Apply`. The lemmas about those functions state what the code
promises.

Two behaviours of the code shape the model:

- A node whose data record is missing makes its adapter return "" without an error, and the
  chain goes on with the next node. A node id that is not in the node list ends the walk
  silently.
- The transcript does not survive a print/parse round trip: parsing trims each section and
  removes the completion line. What is proved instead:
  - splitting and joining the transcript round-trip exactly;
  - every header a node writes opens exactly one section of its kind, titled with its id;
  - the image-to-image header opens none.

## Model

| member | source | states |
|---|---|---|
| `Workflow.FindNode` | src/lib/execute/executeWorkflow.ts:42-46 | the node found is in the list and has the id; none is found exactly when no node has it |
| `Workflow.FindNodeIsFirst` | src/lib/execute/executeWorkflow.ts:42-46 | the node found is the first one in array order with that id |
| `Workflow.FirstEdgeFrom` | src/lib/execute/executeWorkflow.ts:77-80 | the edge found leaves the node; none is found exactly when no edge leaves it |
| `Workflow.FirstEdgeFromIsFirst` | src/lib/execute/executeWorkflow.ts:77-80 | the successor is chosen by the first outgoing edge in array order |
| `Workflow.RunGrows` | src/lib/execute/executeWorkflow.ts:50-75 | both adapters and the unknown-type branch only append to the transcript |
| `Workflow.RunKeepsRunFlags` | src/lib/execute/executeWorkflow.ts:50-75 | no adapter touches the walker's `processing` and `loading` flags |
| `Workflow.RunFailureWritten` | src/lib/execute/executeWorkflow.ts:50-75 | a failing adapter has already written a line break and its message at the end of the transcript |
| `Workflow.WalkGrows` | src/lib/execute/executeWorkflow.ts:25-103 | the transcript is append-only over a whole walk |
| `Workflow.AfterRunGrows` | src/lib/execute/executeWorkflow.ts:77-102 | the rest of a walk after one node only appends |
| `Workflow.WalkChained` | src/lib/execute/executeWorkflow.ts:25-103 | the walk runs at most one node per backend reply. It starts at the given node, and each next node is the target of the first edge leaving the previous one and receives its returned answer |
| `Workflow.AfterRunChained` | src/lib/execute/executeWorkflow.ts:77-95 | the same chain property for the walk after one node has run |
| `Workflow.WalkFlags` | src/lib/execute/executeWorkflow.ts:96-99 | `processing` ends false after a completed chain and as it was otherwise (after a failure, a missing node or when the replies run out); `loading` is never touched |
| `Workflow.AfterRunFlags` | src/lib/execute/executeWorkflow.ts:96-99 | the same flag property for the walk after one node |
| `Workflow.WalkEndsWithSentinel` | src/lib/execute/executeWorkflow.ts:96-99 | a chain that completes leaves the completion line at the end of the transcript |
| `Workflow.AfterRunEndsWithSentinel` | src/lib/execute/executeWorkflow.ts:96-99 | the same, for the walk after one node |
| `Workflow.WalkEndsWithError` | src/lib/execute/executeWorkflow.ts:100-102 | a chain that stops at a failing node ends with a line break and that node's error message |
| `Workflow.AfterRunEndsWithError` | src/lib/execute/executeWorkflow.ts:100-102 | the same, for the walk after one node |
| `Workflow.FailureIsLast` | src/lib/execute/executeWorkflow.ts:100-102 | the adapters' catch blocks rethrow; a throw skips the successor lookup inside the walker's `try`, and the walker's catch appends the message and swallows it, so only the last executed node can have failed |
| `Workflow.WalkMissingNode` | src/lib/execute/executeWorkflow.ts:42-48 | an id missing from the node list ends the walk at once with nothing changed |
| `Workflow.WalkUnknownType` | src/lib/execute/executeWorkflow.ts:73-74 | an unknown node type appends "Unknown node type: <type>" on a new line and ends the walk after that one node, with nothing else changed |
| `Workflow.WalkAdapterFailure` | src/lib/execute/executeWorkflow.ts:100-102 | an adapter's error is written twice, once by the adapter and once by the walker's catch block; the walk ends after that one node and processing is unchanged |
| `Workflow.ExecuteNode` | src/lib/execute/executeWorkflow.ts:25-103 | the walker method leaves the session in exactly the state the specification walk computes |
| `Workflow.Dispatch` | src/lib/execute/executeWorkflow.ts:50-75 | the dispatch on the node type has the effect and the outcome of the adapter it selects, or of the unknown-type error |
| `Workflow.StartWithoutEdge` | src/lib/execute/executeWorkflow.ts:168-179 | without an edge leaving the start node nothing runs: the transcript is reset to empty, the dialog opens and loading ends off |
| `Workflow.StartWithEdge` | src/lib/execute/executeWorkflow.ts:168-207 | with an edge, the transcript is exactly what the walk from the edge's target, with an empty input, writes onto an empty one; processing stays set unless the chain completed; loading always ends false |
| `Workflow.StartWorkflow` | src/lib/execute/executeWorkflow.ts:133-208 | the start handler leaves the session in the state `StartRun` specifies |
| `Workflow.OpenDialog` | src/lib/execute/executeWorkflow.ts:168-172 | the resets before the walk: loading on, empty transcript, dialog open, no images |
| `Workflow.Cancel` | src/lib/execute/executeWorkflow.ts:105-122 | when the interrupt succeeds, canceled is set and generating and loading are cleared, with nothing else changed; when it fails, nothing changes |
| `Workflow.CancelIdempotent` | src/lib/execute/executeWorkflow.ts:105-122 | canceling twice is canceling once |
| `Workflow.HandleCancel` | src/lib/execute/executeWorkflow.ts:105-122 | the cancel handler leaves the session in the state `Cancel` specifies |
| `RunState.Session.Append` | src/lib/execute/executeWorkflow.ts:125-131 | the streaming setter appends its text to the transcript and changes nothing else |
| `OllamaNode.RequestFor` | src/lib/execute/executeOllamaNode.ts:37 | the request carries the upstream input when it is non-empty and the node's own prompt otherwise, with the node's model, instructions and the base URL |
| `OllamaNode.StepMissingConfig` | src/lib/execute/executeOllamaNode.ts:23-27 | a node without a data record changes nothing and hands "" to the next node |
| `OllamaNode.RespondFrame` | src/lib/execute/executeOllamaNode.ts:33-67 | after the header only the transcript and the store change |
| `OllamaNode.StepFrame` | src/lib/execute/executeOllamaNode.ts:23-67 | the adapter changes only the transcript and the store |
| `OllamaNode.RespondGrows` | src/lib/execute/executeOllamaNode.ts:33-67 | after the header the transcript only grows |
| `OllamaNode.StepAppendsHeader` | src/lib/execute/executeOllamaNode.ts:30 | the header is appended before anything else |
| `OllamaNode.StepGrows` | src/lib/execute/executeOllamaNode.ts:23-67 | the adapter only appends to the transcript |
| `OllamaNode.StepKeepsChunks` | src/lib/execute/executeOllamaNode.ts:48-56 | chunks already streamed stay in the transcript, whether or not the stream later fails |
| `OllamaNode.StepThrows` | src/lib/execute/executeOllamaNode.ts:44-67 | the adapter throws exactly when the node has a record and the call or the stream failed, and the error message names the node |
| `OllamaNode.StepSucceeds` | src/lib/execute/executeOllamaNode.ts:48-62 | on success the answer is the concatenated stream, the transcript is the header followed by the chunks, the store holds the answer as the node's output, and other nodes' records are unchanged |
| `OllamaNode.ExecuteOllamaNode` | src/lib/execute/executeOllamaNode.ts:18-68 | the adapter method has the effect and outcome of `Step`, and sends exactly `RequestFor` when the node has a record |
| `OllamaNode.RespondTo` | src/lib/execute/executeOllamaNode.ts:33-67 | the `try`/`catch` part has the effect of `Respond` |
| `OllamaNode.ReadStream` | src/lib/execute/executeOllamaNode.ts:48-56 | the reader loop returns the concatenation of the chunks and appends exactly that to the transcript |
| `OllamaNode.Throw` | src/lib/execute/executeOllamaNode.ts:63-67 | the catch block appends a line break and the error line, and rethrows that message |
| `SDForgeNode.RequestFor` | src/lib/execute/executeSDForgeNode.ts:58-75 | the prompt is the input when non-empty, else the node's image prompt; every other field comes from the node data, and the seed lies in [0, 10^9) |
| `SDForgeNode.StepMissingConfig` | src/lib/execute/executeSDForgeNode.ts:32-36 | a node without a data record changes nothing and hands "" to the next node |
| `SDForgeNode.StepFlags` | src/lib/execute/executeSDForgeNode.ts:38-104 | generation ends stopped and not canceled and the current image is cleared. Success sets full progress and the final image; failure leaves progress at 0 and no final image |
| `SDForgeNode.StepFrame` | src/lib/execute/executeSDForgeNode.ts:32-104 | the walker's flags, the dialog and the image-to-image map are left alone |
| `SDForgeNode.RespondGrows` | src/lib/execute/executeSDForgeNode.ts:57-104 | after the header the transcript only grows |
| `SDForgeNode.StepAppendsHeader` | src/lib/execute/executeSDForgeNode.ts:55 | the header is appended before anything else |
| `SDForgeNode.StepGrows` | src/lib/execute/executeSDForgeNode.ts:32-104 | the adapter only appends to the transcript |
| `SDForgeNode.StepThrows` | src/lib/execute/executeSDForgeNode.ts:77-104 | the adapter throws exactly when the node has a record and the request failed or answered a non-2xx status, and the message names the node |
| `SDForgeNode.StepHttpError` | src/lib/execute/executeSDForgeNode.ts:77 | a non-2xx status is reported with its decimal code |
| `SDForgeNode.StepSucceeds` | src/lib/execute/executeSDForgeNode.ts:79-98 | on success the answer is the image, the transcript is the header and the success line, the store records the image with output type "image", and other nodes are unchanged |
| `SDForgeNode.ExecuteSDForgeNode` | src/lib/execute/executeSDForgeNode.ts:27-105 | the adapter method has the effect and outcome of `Step`, and sends exactly `RequestFor` when the node has a record |
| `SDForgeNode.Begin` | src/lib/execute/executeSDForgeNode.ts:38-55 | the flag resets and the header |
| `SDForgeNode.RespondTo` | src/lib/execute/executeSDForgeNode.ts:57-104 | the `try`/`catch` part has the effect of `Respond` |
| `SDForgeNode.Publish` | src/lib/execute/executeSDForgeNode.ts:79-98 | publishing sets the final image, full progress, the store record and the success line |
| `SDForgeNode.Throw` | src/lib/execute/executeSDForgeNode.ts:99-104 | the catch block stops generation, appends the error line and rethrows |
| `SDImageToImageNode.IntOr` | src/lib/execute/execureSDImageToImageNode.ts:90-103 | `v \|\| d` on a number: a missing value or 0 gives the default |
| `SDImageToImageNode.RealOr` | src/lib/execute/execureSDImageToImageNode.ts:90-103 | `v \|\| d` on a number with a fraction: a missing value or 0 gives the default |
| `SDImageToImageNode.StrOr` | src/lib/execute/execureSDImageToImageNode.ts:90-103 | `v \|\| d` on a string: a missing value or "" gives the default |
| `SDImageToImageNode.SourceImage` | src/lib/execute/execureSDImageToImageNode.ts:67-88 | without an attachment the stored image is used. A non-image attachment is rejected with its MIME type, and an image attachment's data URL becomes the source or its read error the rejection |
| `SDImageToImageNode.RequestFor` | src/lib/execute/execureSDImageToImageNode.ts:90-111 | the defaults 512, 512, 50 steps, "Euler a", 7.5, "Karras" and "stable-diffusion-v1-5" apply exactly to falsy fields, so no field is ever falsy; the prompt is the input or the node's prompt; the seed lies in [0, 10^9) |
| `SDImageToImageNode.StepMissingConfig` | src/lib/execute/execureSDImageToImageNode.ts:38-43 | a node without a data record changes nothing and yields "" |
| `SDImageToImageNode.StepNotImageToImage` | src/lib/execute/execureSDImageToImageNode.ts:45-151 | a record that fails the guard is rejected before any flag or text changes |
| `SDImageToImageNode.StepUnsupportedFile` | src/lib/execute/execureSDImageToImageNode.ts:72-147 | a non-image attachment fails the node with "Error in SDForge Node <id>: Unsupported file type: <type>", the transcript ends with that line, generation stops, and the image map and the store are left alone |
| `SDImageToImageNode.StepReadFailed` | src/lib/execute/execureSDImageToImageNode.ts:79-147 | a file that cannot be read fails the node, and the transcript ends with the error line |
| `SDImageToImageNode.RespondOutcome` | src/lib/execute/execureSDImageToImageNode.ts:105-147 | after the header generation always ends stopped, and the node succeeds exactly when the source image is ready and the answer is 2xx |
| `SDImageToImageNode.StepOutcome` | src/lib/execute/execureSDImageToImageNode.ts:46-147 | for an image-to-image record, generation ends stopped and not canceled, and the node succeeds exactly when the source is ready and the answer is 2xx |
| `SDImageToImageNode.StepSucceeds` | src/lib/execute/execureSDImageToImageNode.ts:63-135 | on success the image map gains exactly this node's data URL and keeps every other entry; the final image is that URL, progress is 100, the store record gets the id and the image and every other record is kept, and the transcript gains exactly the header and the success line |
| `SDImageToImageNode.RespondThrows` | src/lib/execute/execureSDImageToImageNode.ts:65-147 | after the header, the `try` block throws exactly on a rejected attachment, a failed request or a non-2xx answer; the catch prefixes the node id, appends the message on a new line and changes neither the image map nor the store |
| `SDImageToImageNode.StepThrows` | src/lib/execute/execureSDImageToImageNode.ts:45-147 | past the guard the adapter throws exactly on a rejected attachment, a failed request or a non-2xx answer; the rethrown message starts "Error in SDForge Node <id>: ", the transcript ends with it, and the image map and the store are unchanged |
| `SDImageToImageNode.StepHttpError` | src/lib/execute/execureSDImageToImageNode.ts:110-140 | a non-2xx answer fails the node with "HTTP error! status: <code>" behind the node prefix |
| `SDImageToImageNode.RespondFailureKeepsMaps` | src/lib/execute/execureSDImageToImageNode.ts:136-147 | after the header a failure leaves the image map and the store as they were |
| `SDImageToImageNode.StepFailureKeepsMaps` | src/lib/execute/execureSDImageToImageNode.ts:38-147 | any failure leaves the image map and the store as they were |
| `SDImageToImageNode.RespondFrame` | src/lib/execute/execureSDImageToImageNode.ts:65-147 | after the header the walker's flags are left alone |
| `SDImageToImageNode.StepFrame` | src/lib/execute/execureSDImageToImageNode.ts:38-151 | the walker's flags and the dialog are left alone |
| `SDImageToImageNode.ExecuteSDImageToImageNode` | src/lib/execute/execureSDImageToImageNode.ts:31-152 | the adapter method has the effect and outcome of `Step`, and sends `RequestFor` exactly when the record passes the guard and the source image is ready |
| `SDImageToImageNode.Begin` | src/lib/execute/execureSDImageToImageNode.ts:46-63 | the flag resets and the header |
| `SDImageToImageNode.RespondTo` | src/lib/execute/execureSDImageToImageNode.ts:105-147 | the request part has the effect of `Request` |
| `SDImageToImageNode.Publish` | src/lib/execute/execureSDImageToImageNode.ts:113-135 | publishing writes the map entry, the final image, the store and the success line |
| `OutputPage.MarkerShape` | src/app/output/page.tsx:109 | both split points begin with their only line break |
| `OutputPage.Split` | src/app/output/page.tsx:109 | the split always yields an odd number of pieces: text, name, text, … |
| `OutputPage.SplitJoin` | src/app/output/page.tsx:109 | splitting loses nothing: joining the pieces with their split points gives back the transcript |
| `OutputPage.SplitPlain` | src/app/output/page.tsx:109 | text without a line break stays one piece |
| `OutputPage.SplitAt` | src/app/output/page.tsx:109 | splitting distributes over text joined at a line break: the last piece of the left glues to the first of the right |
| `OutputPage.SplitFindsMarkers` | src/app/output/page.tsx:109 | the captured names are exactly the split points in the text, in order |
| `OutputPage.MarkerKindsAppend` | src/app/output/page.tsx:109 | split points accumulate over text joined at a line break |
| `OutputPage.MarkerSplits` | src/app/output/page.tsx:109 | each split point contributes its name and starts a new piece |
| `OutputPage.SplitAfterMarker` | src/app/output/page.tsx:109 | a split point at the front yields an empty piece, its name, then the pieces of the rest |
| `OutputPage.IdRunLongest` | src/app/output/page.tsx:126-127 | the captured id is the longest leading run of `[a-zA-Z0-9-_]` |
| `OutputPage.IdRunStops` | src/app/output/page.tsx:126-127 | an id written before a character outside the class is read back exactly |
| `OutputPage.PreambleShown` | src/app/output/page.tsx:112-118 | an "Initialization" section of kind Other exists exactly when the text before the first split point is not blank, and it holds that text trimmed |
| `OutputPage.NodeSections` | src/app/output/page.tsx:121-137 | one section per split point |
| `OutputPage.NodeSectionsAt` | src/app/output/page.tsx:121-137 | section i comes from split point i: its captured name and the text after it |
| `OutputPage.Parse` | src/app/output/page.tsx:99-100 | an empty transcript has no sections |
| `OutputPage.ParseFollowsMarkers` | src/app/output/page.tsx:109-137 | the section count is the preamble's plus the number of split points, and the kinds follow the split points in order |
| `OutputPage.ParseStreamingOutput` | src/app/output/page.tsx:99-140 | the parser method returns exactly the sections `Parse` specifies |
| `OutputPage.SectionsOf` | src/app/output/page.tsx:112-137 | the loop stepping two pieces at a time yields the preamble and then one section per split point |
| `OutputPage.PreambleOf` | src/app/output/page.tsx:112-118 | the "Initialization" section is built when the first piece is not blank |
| `OutputPage.AppendSection` | src/app/output/page.tsx:132-136 | one turn of the loop appends the section for the next split point |
| `OutputPage.SentinelBorderless` | src/app/output/page.tsx:130 | the completion line cannot overlap itself |
| `OutputPage.SentinelDropped` | src/app/output/page.tsx:130 | a section that ends with the completion line shows the text before it, trimmed |
| `OutputPage.FirstPieceId` | src/app/output/page.tsx:126-127 | the id a header writes is read back from the section text |
| `OutputPage.HeaderSplits` | src/app/output/page.tsx:109-127 | a header is a split point followed by the node id and "...", and the section reads the id back |
| `OutputPage.OllamaHeaderSection` | src/app/output/page.tsx:109-133 | the Ollama adapter's header opens an "Ollama" section titled "Ollama Node: <id>" |
| `OutputPage.SDForgeHeaderSection` | src/app/output/page.tsx:109-133 | the SDForge adapter's header opens an "SDForge" section titled "SDForge Node: <id>" |
| `OutputPage.ImageToImageHeaderNoSection` | src/app/output/page.tsx:109 | the image-to-image header is not a split point: it adds no section |
| `OutputPage.DeleteByIdKeeps` | src/app/output/page.tsx:65 | every entry with the id goes, and every other entry stays |
| `OutputPage.DeleteDistributes` | src/app/output/page.tsx:65 | the filter works entry by entry, so the kept entries keep their order |
| `OutputPage.DeleteAbsent` | src/app/output/page.tsx:65 | deleting an id nobody has changes nothing |
| `OutputPage.DeleteIdempotent` | src/app/output/page.tsx:65 | deleting twice is deleting once |
| `JsText.TrimStartSpec` | src/app/output/page.tsx:130 | `trimStart` drops only white space and keeps a suffix that starts with none |
| `JsText.TrimEndSpec` | src/app/output/page.tsx:130 | `trimEnd` drops only white space and keeps a prefix that ends with none |
| `JsText.TrimSlice` | src/app/output/page.tsx:130 | the trimmed text is a slice with only white space around it and none at its ends |
| `JsText.TrimBlank` | src/app/output/page.tsx:116 | a text trims to "" exactly when it is all white space |
| `JsText.TrimIdempotent` | src/app/output/page.tsx:130 | trimming twice is trimming once |
| `JsText.RemoveAll` | src/app/output/page.tsx:130 | removing a pattern never lengthens the text |
| `JsText.RemoveAllNoMatch` | src/app/output/page.tsx:130 | without a match nothing is removed |
| `JsText.RemoveAllTrailing` | src/app/output/page.tsx:130 | a non-overlapping pattern appended to text without a match is removed and nothing else is |
| `Js.StringOr` | src/lib/execute/executeOllamaNode.ts:37 | `a \|\| b` on a string: "" gives way to `b` |
| `Js.Template` | src/components/nodes/StartNode.tsx:33 | an undefined value prints as "undefined" in a template literal |
| `Js.ConcatAppend` | src/lib/execute/executeOllamaNode.ts:48-56 | the accumulated text distributes over splitting the chunk sequence |
| `Js.NatToString` | src/lib/features/flowSlice.ts:29 | the printed decimal is non-empty and made of digits |
| `Js.ParseNatToString` | src/lib/features/flowSlice.ts:29 | printing a number in decimal loses nothing: reading it back gives the number |
| `Js.NatToStringInjective` | src/lib/features/flowSlice.ts:29 | distinct numbers print as distinct ids |
| `Backend.Seed` | src/lib/execute/executeSDForgeNode.ts:70 | the seed built from `Math.random()` lies in [0, 10^9) |
| `OllamaRoute.BuildRequest` | src/app/api/ollama/route.ts:16-48 | the prompt and images built by reassignment are those `Prepare` specifies |
| `OllamaRoute.Forward` | src/app/api/ollama/route.ts:60-70 | the stream loop enqueues exactly the non-empty fragments, in order |
| `OllamaRoute.HandlePost` | src/app/api/ollama/route.ts:14-81 | the route's answer is the one `Post` specifies |
| `OllamaRoute.RejectsIff` | src/app/api/ollama/route.ts:16-21 | the route answers 400 exactly when the model or the base URL is missing or empty |
| `OllamaRoute.RejectedIgnoresReply` | src/app/api/ollama/route.ts:16-21 | a rejected form makes no generation call: the answer does not depend on it |
| `OllamaRoute.PromptWithoutFile` | src/app/api/ollama/route.ts:24 | without a file the prompt is the instructions, a blank line and the input, or the input alone |
| `OllamaRoute.ImageFile` | src/app/api/ollama/route.ts:32-35 | an image file leaves the prompt alone and becomes the one image unless `sdImage` is set |
| `OllamaRoute.PdfFile` | src/app/api/ollama/route.ts:36-39 | a PDF's text is appended after "pdf content:\n", with no separator before it |
| `OllamaRoute.TextFile` | src/app/api/ollama/route.ts:40-43 | a text file's contents are appended after "text content:\n" |
| `OllamaRoute.OtherFile` | src/app/api/ollama/route.ts:28-44 | a file of any other type changes neither prompt nor images |
| `OllamaRoute.SdImageWins` | src/app/api/ollama/route.ts:46-48 | a set `sdImage` replaces any image taken from the file |
| `OllamaRoute.FailuresAnswer500` | src/app/api/ollama/route.ts:75-80 | every failure before the stream is returned answers 500 "Failed to process request" |
| `OllamaRoute.Answers500Iff` | src/app/api/ollama/route.ts:14-81 | the route answers 500 exactly when the form cannot be read, the PDF cannot be parsed or the generation call throws; a throw while the stream is read is not a 500 |
| `OllamaRoute.StreamFailureErrorsStream` | src/app/api/ollama/route.ts:61-74 | a generation stream that throws partway gives a 200 text stream with the non-empty fragments read so far, which then errors instead of closing |
| `OllamaRoute.NonEmptyOnly` | src/app/api/ollama/route.ts:63-67 | only non-empty fragments are forwarded, and every non-empty one is |
| `OllamaRoute.NonEmptyKeepsText` | src/app/api/ollama/route.ts:63-67 | dropping empty fragments does not change the streamed text |
| `OllamaRoute.NonEmptyAppend` | src/app/api/ollama/route.ts:63-67 | the filter works fragment by fragment, so order is kept |
| `LegacyStartNode.StartNode.constructor` | src/components/nodes/StartNode.tsx:20-22 | the component starts from the given view |
| `LegacyStartNode.StartNode.ExecuteNode` | src/components/nodes/StartNode.tsx:25-77 | the recursive walker leaves the state and the sent requests that `Walk` specifies |
| `LegacyStartNode.StartNode.RespondTo` | src/components/nodes/StartNode.tsx:39-76 | the `try`/`catch` part has the effect of `Respond` |
| `LegacyStartNode.StartNode.ReadStream` | src/components/nodes/StartNode.tsx:54-60 | the reader loop returns the concatenated chunks and appends exactly them to the transcript |
| `LegacyStartNode.StartNode.HandleStart` | src/components/nodes/StartNode.tsx:79-93 | the start handler has the effect `Start` specifies |
| `LegacyStartNode.StartWithoutEdge` | src/components/nodes/StartNode.tsx:84-89 | without an outgoing edge nothing is sent, the transcript stays empty and loading returns to false |
| `LegacyStartNode.WalkKeepsLoading` | src/components/nodes/StartNode.tsx:80-92 | a walk never changes loading, so the handler always ends with loading off |
| `LegacyStartNode.RespondKeepsLoading` | src/components/nodes/StartNode.tsx:39-76 | the same, for the part after the header |
| `LegacyStartNode.WalkForgets` | src/components/nodes/StartNode.tsx:33 | every header overwrites the transcript, so the text a walk leaves does not depend on what was shown before |
| `LegacyStartNode.RespondForgets` | src/components/nodes/StartNode.tsx:39-76 | the same, for the part after the header |
| `LegacyStartNode.LastNodeCompletes` | src/components/nodes/StartNode.tsx:54-73 | a node that streams successfully and has no successor leaves its header, its answer and the completion line, and stores the answer as its output |
| `LegacyStartNode.FailureStops` | src/components/nodes/StartNode.tsx:74-76 | a failure replaces the transcript by "Error in <label>: <message>", nothing after it runs and the store is untouched |
| `LegacyStartNode.SuccessorGetsAnswer` | src/components/nodes/StartNode.tsx:41-73 | the successor is the target of the first edge leaving the node and is sent its whole answer, or its own prompt when the answer is empty |
| `LegacyStartNode.MissingConfigStops` | src/components/nodes/StartNode.tsx:26-30 | a node without a record ends the chain: nothing is sent, nothing changes and no completion line is written |
| `FlowTypes.GuardsNotExclusive` | src/types/flowTypes.ts:46-58 | some node data satisfies both guards |
| `FlowTypes.NoPromptNoGuard` | src/types/flowTypes.ts:46-58 | data without a prompt satisfies neither guard |
| `FlowTypes.UpdateNodeData` | src/types/flowTypes.ts:69-72 | the patch adds the key and keeps every other record; set fields overwrite, absent ones are kept |
| `FlowSlice.AddedAll` | src/lib/features/flowSlice.ts:28-42 | each `addNode` adds exactly one node |
| `FlowSlice.AddedFromEmpty` | src/lib/features/flowSlice.ts:29-39 | from the empty list, node i gets id "i+1", the requested type and the label "Ollama" or "SD Forge" |
| `FlowSlice.AddedIdsDistinct` | src/lib/features/flowSlice.ts:29 | from the empty list `addNode` alone never repeats an id |
| `FlowSlice.IdCanRepeat` | src/lib/features/flowSlice.ts:29 | ids are counts, not unique keys: a list that does not start empty can get a repeated id |
| `FlowSlice.FlowStore.constructor` | src/lib/features/flowSlice.ts:18-21 | the store starts with no nodes and no edges |
| `FlowSlice.FlowStore.AddNode` | src/lib/features/flowSlice.ts:28-42 | one new node at the end; the other nodes and the edges are untouched |
| `FlowSlice.FlowStore.UpdateNodes` | src/lib/features/flowSlice.ts:43-45 | the node list is replaced and the edges are untouched |
| `FlowSlice.FlowStore.UpdateEdges` | src/lib/features/flowSlice.ts:46-48 | the edge list is replaced and the nodes are untouched |
| `FlowSlice.FlowStore.AddEdge` | src/lib/features/flowSlice.ts:49-51 | the edge is appended as given, without a duplicate check |
| `NodeSlice.NodeStore.constructor` | src/lib/features/nodeSlice.ts:15-17 | the node list starts empty |
| `NodeSlice.NodeStore.AddNode` | src/lib/features/nodeSlice.ts:23-40 | the list grows by the same node `flowSlice` builds and keeps its prefix |
| `BaseSlice.InitialSettings` | src/lib/features/baseSlice.ts:5-14 | both backends start switched off on their local URLs |
| `BaseSlice.BaseUrlsOnly` | src/lib/features/baseSlice.ts:16-19 | `setBaseUrl` sets both URLs, keeps both switches, and applying it twice is applying it once |
| `BaseSlice.UseOnly` | src/lib/features/baseSlice.ts:20-23 | `setUse` sets both switches, keeps both URLs, and applying it twice is applying it once |
| `BaseSlice.ReducersCommute` | src/lib/features/baseSlice.ts:16-23 | the two reducers touch disjoint fields, so their order does not matter |
| `BaseSlice.BaseStore.constructor` | src/lib/features/baseSlice.ts:5-14 | the store starts from the initial settings |
| `BaseSlice.BaseStore.SetBaseUrl` | src/lib/features/baseSlice.ts:16-19 | the reducer's new state is `WithBaseUrls` of the old one |
| `BaseSlice.BaseStore.SetUse` | src/lib/features/baseSlice.ts:20-23 | the reducer's new state is `WithUse` of the old one |
| `NavMain.HasStartCount` | src/components/nav-main.tsx:111 | `some` agrees with counting: there is a Start node exactly when the count is positive |
| `NavMain.AddThroughNavCases` | src/components/nav-main.tsx:110-118 | a second Start node is refused and nothing changes; any other request appends the node `addNode` builds |
| `NavMain.AtMostOneStart` | src/components/nav-main.tsx:110-118 | through the sidebar the canvas never holds more than one Start node |
| `NavMain.HandleAddNode` | src/components/nav-main.tsx:110-118 | the handler leaves the node list `AddThroughNav` specifies and the edges untouched |
| `NavMain.LoadReplacesIff` | src/components/nav-main.tsx:90-104 | a fetched project replaces the canvas and resets the status exactly when every backend it needs is switched on |
| `NavMain.RefusedKeepsFlow` | src/components/nav-main.tsx:91-100 | a refused project leaves the canvas and the status as they were, and the Ollama error takes precedence |
| `NavMain.OtherStatuses` | src/components/nav-main.tsx:105-107 | a failed fetch empties the canvas, and any other status leaves everything alone |
| `NavMain.Workspace.OnProjectStatus` | src/components/nav-main.tsx:90-108 | the effect leaves the canvas, status and error `LoadGate` specifies |
| `FetchStatus.Initial` | src/lib/features/sdSlice.ts:97-109 | a resource starts idle with its empty data and the `{}` error |
| `FetchStatus.StatusFollowsLast` | src/lib/features/sdSlice.ts:112-152 | pending sets "loading", fulfilled "succeeded" and rejected "failed": the status is the last action's |
| `FetchStatus.DataFromLastFulfilled` | src/lib/features/sdSlice.ts:117-120 | the data is the value of the last fulfilled action, or the initial data |
| `FetchStatus.ErrorFromLastRejected` | src/lib/features/sdSlice.ts:121-124 | the error is the one derived from the last rejected action, or the initial error |
| `FetchStatus.ErrorTextFirstDefined` | src/lib/features/sdSlice.ts:41-46 | the thunk's error text is the first defined of the response message, the error message and the fallback; "" counts as defined |
| `FetchStatus.Settle` | src/lib/features/projectSlice.ts:17-27 | a thunk resolves exactly when its call answered |
| `FetchStatus.PayloadOr` | src/lib/features/outputSlice.ts:83-86 | `payload \|\| fallback`: a missing or empty payload gives way |
| `SdSlice.ThunkOutcomes` | src/lib/features/sdSlice.ts:28-93 | unconfigured, a thunk rejects with "SD base url is not set"; an answer resolves with its data; a failure rejects with the first defined error text |
| `SdSlice.RejectionMessages` | src/lib/features/sdSlice.ts:121-152 | a rejection stores the error message, or that resource's own fallback |
| `SdSlice.SdStore.constructor` | src/lib/features/sdSlice.ts:97-109 | three empty lists, all idle |
| `SdSlice.SdStore.ModelsCase` | src/lib/features/sdSlice.ts:114-124 | the models cases update the models triple only |
| `SdSlice.SdStore.SamplersCase` | src/lib/features/sdSlice.ts:127-138 | the samplers cases update the samplers triple only |
| `SdSlice.SdStore.SchedulersCase` | src/lib/features/sdSlice.ts:141-152 | the schedulers cases update the schedulers triple only |
| `OllamaSlice.Thunk` | src/lib/features/ollamaSlice.ts:19-38 | the thunk resolves exactly when Ollama is configured and the call answered |
| `OllamaSlice.ThunkOutcomes` | src/lib/features/ollamaSlice.ts:24-28 | unconfigured it rejects with "Ollama base url is not set"; an answer resolves with its `models`; a failure rejects with the error text |
| `OllamaSlice.OllamaStore.constructor` | src/lib/features/ollamaSlice.ts:42-46 | no models, idle |
| `OllamaSlice.OllamaStore.ModelsCase` | src/lib/features/ollamaSlice.ts:50-60 | the three cases, a rejection storing the payload or "Something went wrong" |
| `ProjectSlice.ThunkFallbacks` | src/lib/features/projectSlice.ts:21-26 | a failure with no message at all rejects with each thunk's own fallback |
| `ProjectSlice.ProjectStore.constructor` | src/lib/features/projectSlice.ts:65-79 | nothing created, no projects, no project, all idle |
| `ProjectSlice.ProjectStore.ResetProjectStatus` | src/lib/features/projectSlice.ts:81-83 | only the loaded project's status goes back to idle |
| `ProjectSlice.ProjectStore.CreateCase` | src/lib/features/projectSlice.ts:88-98 | the create cases update the create triple only, a rejection storing the payload or `{}` |
| `ProjectSlice.ProjectStore.AllCase` | src/lib/features/projectSlice.ts:100-110 | the list cases update the list triple only |
| `ProjectSlice.ProjectStore.GetCase` | src/lib/features/projectSlice.ts:112-122 | the get cases update the project triple only, storing the fetched project |
| `ProjectSlice.SucceededHasProject` | src/lib/features/projectSlice.ts:112-122 | once fetched, "succeeded" always comes with a project to show |
| `ProjectSlice.LiftedKeepsProject` | src/lib/features/projectSlice.ts:112-122 | the same, over any run of actions that carry a project |
| `OutputSlice.ThunkFallbacks` | src/lib/features/outputSlice.ts:13-19 | a failure with no message at all rejects with each thunk's own fallback |
| `OutputSlice.RejectionLeavesMessage` | src/lib/features/outputSlice.ts:83-86 | after any rejection the error is a message, never the initial `{}` |
| `OutputSlice.LastRejected` | src/lib/features/outputSlice.ts:83-86 | finds the last rejection at or after a given one |
| `OutputSlice.OutputStore.constructor` | src/lib/features/outputSlice.ts:58-72 | `{}`, `[]` and `{}`, all idle |
| `OutputSlice.OutputStore.CreateCase` | src/lib/features/outputSlice.ts:76-86 | the create cases update the create triple only |
| `OutputSlice.OutputStore.AllCase` | src/lib/features/outputSlice.ts:87-97 | the list cases update the list triple only |
| `OutputSlice.OutputStore.GetCase` | src/lib/features/outputSlice.ts:98-108 | the get cases update the output triple only |

## Left out

- Network and foreign calls: `fetch`, axios, the `ollama` client, `pdf-parse`, `FileReader` and the interrupt endpoint. Each is an abstract outcome passed in (a chunk sequence with an optional read error, the route's generation stream that ends or throws after some fragments, a status with an image, a failure with its messages).
- Termination of a walk over a cyclic edge list: the code has no cycle guard. A walk is bounded by the sequence of backend replies, one per executed node, and a walk that runs out of replies stops there.
- Floating point: `Math.random` is a real in [0, 1) passed in, and only the seed's integer bound is kept. Numbers such as `cfg_scale` are carried as reals without arithmetic.
- Node positions on the canvas (random in `addNode`), timestamps of saved projects, and the selected node id.
- Async interleaving: React state batching, effects racing a run, and progress polling. Each run is one sequential pass.
- Persistence: `localStorage` on the output page, MongoDB, the models, and the project and output API routes.
- UI rendering: dialogs, toasts, the sidebar layout, the canvas components and the settings form. The settings form's only state change goes through `setUse`, which is modelled.
- `handleDeleteOutput`'s `localStorage` write and dialog close, and `handleViewOutput`: only the filter is modelled.
- `SDImageToImageFileStorage` and `isSDImageToImageNodeData` are not part of this model. The stored file is the attachment parameter, and the guard's result is the `isImageToImage` parameter.
- `updateNodeData`, `setFlowData`, `deleteAll` and `deleteNode` are used by the components, but `flowSlice.ts` does not define them. `updateNodeData` is modelled as a per-id patch of the node-data map (`FlowTypes.UpdateNodeData`). `setFlowData` is the canvas replacement inside `NavMain.LoadGate`. The two delete actions are not modelled. The slice's own state (`src/lib/features/flowSlice.ts:12-15`) has no `nodeData` field, yet the components read `state.flow.nodeData` (`src/components/nodes/StartNode.tsx:18`); the model follows the exported `FlowState` type in `src/types/flowTypes.ts:61-66`, which has it.
- `store.ts` registers only the `flow` slice. Every slice is modelled on its own.
- `SDForgeNode.StepSucceeds` and `SDForgeNode.StepThrows`: a 2xx answer is assumed to be a JSON body with a non-empty `images` list. A body that is not JSON or has no `images` field makes `res.json()` or `data.images[0]` throw into the catch block; an empty list "succeeds" with the text `undefined` as the image. Neither reply is modelled, because `ImageCall.Responded` carries the first image itself.
- `SDImageToImageNode.StepSucceeds`, `SDImageToImageNode.StepOutcome` and `SDImageToImageNode.StepThrows`: the same assumption about a 2xx answer as for `SDForgeNode.StepSucceeds`; a malformed body or an empty `images` list is not modelled.
- The text adapter posts JSON while the route reads form data. The two are modelled separately, and the adapter's request is the record it sends.
- The text-to-image adapter reads `imagePrompt` while the type declares `prompt`. The model keeps `imagePrompt` as the code reads it.
- `SdSlice.RejectionMessages`: the error message of a rejected action is a parameter. Under Redux Toolkit a thunk that returns `rejectWithValue` gives the action the message "Rejected", so the slices store "Rejected" and not the thunk's text; that derivation is not modelled.
- JavaScript's `null` and `undefined` are one `None` in the model. The guards test `!== undefined`, so a `null` field passes them, and a `null` label prints as "null"; neither case is modelled.
- `SDImageToImageNode.IntOr` and `SDImageToImageNode.RealOr`: `NaN`, which `||` also treats as falsy, is not a value of the model.
- `FetchStatus.ErrorTextFirstDefined`: the mapping from an RTK rejected action to `error.message` is a parameter of the action and is not derived.
- A byte-exact print/parse round trip of the transcript is not claimed, because parsing trims and drops the completion line. Split/join round-trips exactly (`OutputPage.SplitJoin`).
