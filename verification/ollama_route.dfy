/**
 * The server route that a text node posts to: it checks the form, assembles the prompt from
 * the instructions, the input and an attached file, and streams the generated text back.
 */
module OllamaRoute {
  import opened Js

  /**
   * A file in the form, with what the foreign converters make of its bytes: their base64
   * text, their UTF-8 decoding, and the text the PDF parser extracts (`None` when it throws).
   */
  datatype Upload = Upload(mimeType: string, base64: string, utf8: string, pdfText: Option<string>)

  /** The form fields the route reads; a missing field is `None` (`null`). */
  datatype Form = Form(
    input: Option<string>,
    instructions: Option<string>,
    model: Option<string>,
    baseUrl: Option<string>,
    file: Option<Upload>,
    sdImage: Option<string>)

  /** The arguments of the generation call; `prompt` is `None` when it is `null`. */
  datatype GenerateRequest = GenerateRequest(model: string, prompt: Option<string>, images: Option<seq<string>>)

  /**
   * What the generation call does: throw before it returns a stream, or return a stream whose
   * fragments' `response` texts are read to the end, or read until the stream throws.
   */
  datatype Reply = Streamed(fragments: seq<string>) | StreamFailed(fragments: seq<string>) | GenerateFailed

  /**
   * The route's answer: a JSON error with a status, or a 200 text stream of chunks that either
   * closes or, when reading the generation stream threw inside `start`, errors after them.
   */
  datatype Response = Json(status: nat, error: string) | TextStream(chunks: seq<string>, failed: bool)

  /** The request up to the generation call. */
  datatype Prepared = Invalid | Unparsable | Ready(request: GenerateRequest)

  const RequiredMessage := "Model, and baseUrl are required"
  const FailureMessage := "Failed to process request"

  /** A form value used as a condition: missing and "" are falsy. */
  predicate Truthy(v: Option<string>) {
    v.Some? && v.value != ""
  }

  /** A form value in a template literal or after `+=`: `null` renders as "null". */
  function Text(v: Option<string>): (r: string)
    ensures v.Some? ==> r == v.value
  {
    if v.Some? then v.value else "null"
  }

  predicate IsImage(u: Upload) {
    StartsWith(u.mimeType, "image/")
  }

  predicate IsPdf(u: Upload) {
    !IsImage(u) && u.mimeType == "application/pdf"
  }

  predicate IsText(u: Upload) {
    !IsImage(u) && !IsPdf(u) && StartsWith(u.mimeType, "text/")
  }

  /** The prompt before any file: the instructions and the input with a blank line between them, or the input alone. */
  function BasePrompt(form: Form): Option<string> {
    if Truthy(form.instructions) then Some(form.instructions.value + "\n\n" + Text(form.input)) else form.input
  }

  /** The text a file adds to the prompt, if any. */
  function FileText(u: Upload): Option<string> {
    if IsPdf(u) then Some("pdf content:\n" + u.pdfText.GetOr(""))
    else if IsText(u) then Some("text content:\n" + u.utf8)
    else None
  }

  /** The prompt sent: the base prompt, followed by the file's text when the file has one. */
  function PromptFor(form: Form): Option<string> {
    if form.file.Some? && FileText(form.file.value).Some? then
      Some(Text(BasePrompt(form)) + FileText(form.file.value).value)
    else BasePrompt(form)
  }

  /** The images sent: the `sdImage` field if set, otherwise an image file's base64 text. */
  function ImagesFor(form: Form): Option<seq<string>> {
    if Truthy(form.sdImage) then Some([form.sdImage.value])
    else if form.file.Some? && IsImage(form.file.value) then Some([form.file.value.base64])
    else None
  }

  /** The route up to the generation call, as a reference definition. */
  function Prepare(form: Form): Prepared {
    if !Truthy(form.model) || !Truthy(form.baseUrl) then Invalid
    else if form.file.Some? && IsPdf(form.file.value) && form.file.value.pdfText.None? then Unparsable
    else Ready(GenerateRequest(form.model.value, PromptFor(form), ImagesFor(form)))
  }

  /** The fragments forwarded to the client: the non-empty ones, in order. */
  function NonEmpty(fragments: seq<string>): seq<string> {
    if |fragments| == 0 then []
    else
      var last := fragments[|fragments| - 1];
      NonEmpty(fragments[..|fragments| - 1]) + (if last != "" then [last] else [])
  }

  /** `POST`: `form` is `None` when the form data cannot be read. */
  function Post(form: Option<Form>, reply: Reply): Response {
    if form.None? then Json(500, FailureMessage)
    else
      match Prepare(form.value)
      case Invalid => Json(400, RequiredMessage)
      case Unparsable => Json(500, FailureMessage)
      case Ready(_) =>
        if reply.GenerateFailed? then Json(500, FailureMessage)
        else TextStream(NonEmpty(reply.fragments), reply.StreamFailed?)
  }

  /** The prompt and images built by reassignment, as the route does. */
  method BuildRequest(form: Form) returns (prepared: Prepared)
    ensures prepared == Prepare(form)
  {
    if !Truthy(form.model) || !Truthy(form.baseUrl) {
      return Invalid;
    }
    var prompt := if Truthy(form.instructions) then Some(form.instructions.value + "\n\n" + Text(form.input)) else form.input;
    var images: Option<seq<string>> := None;
    if form.file.Some? {
      var file := form.file.value;
      if StartsWith(file.mimeType, "image/") {
        images := Some([file.base64]);
      } else if file.mimeType == "application/pdf" {
        if file.pdfText.None? {
          return Unparsable;
        }
        prompt := Some(Text(prompt) + ("pdf content:\n" + file.pdfText.value));
      } else if StartsWith(file.mimeType, "text/") {
        prompt := Some(Text(prompt) + ("text content:\n" + file.utf8));
      }
    }
    if Truthy(form.sdImage) {
      images := Some([form.sdImage.value]);
    }
    prepared := Ready(GenerateRequest(form.model.value, prompt, images));
  }

  /**
   * The stream loop: each fragment with a non-empty `response` is enqueued, in order; when the
   * generation stream throws, `fragments` are those read before it did.
   */
  method Forward(fragments: seq<string>) returns (sent: seq<string>)
    ensures sent == NonEmpty(fragments)
  {
    sent := [];
    var i := 0;
    while i < |fragments|
      invariant 0 <= i <= |fragments|
      invariant sent == NonEmpty(fragments[..i])
    {
      assert fragments[..i + 1][..i] == fragments[..i];
      if fragments[i] != "" {
        sent := sent + [fragments[i]];
      }
      i := i + 1;
    }
    assert fragments[..i] == fragments;
  }

  /** The whole route. */
  method HandlePost(form: Option<Form>, reply: Reply) returns (response: Response)
    ensures response == Post(form, reply)
  {
    if form.None? {
      return Json(500, FailureMessage);
    }
    var prepared := BuildRequest(form.value);
    if prepared.Invalid? {
      return Json(400, RequiredMessage);
    }
    if prepared.Unparsable? || reply.GenerateFailed? {
      return Json(500, FailureMessage);
    }
    var sent := Forward(reply.fragments);
    response := TextStream(sent, reply.StreamFailed?);
  }

  // ---- Properties ----

  /** The route answers 400 exactly when the model or the base URL is missing or empty. */
  lemma RejectsIff(form: Form, reply: Reply)
    ensures Post(Some(form), reply) == Json(400, RequiredMessage) <==> !Truthy(form.model) || !Truthy(form.baseUrl)
  {
  }

  /** A rejected form makes no generation call: the answer does not depend on it. */
  lemma RejectedIgnoresReply(form: Form, r1: Reply, r2: Reply)
    requires !Truthy(form.model) || !Truthy(form.baseUrl)
    ensures Post(Some(form), r1) == Post(Some(form), r2)
  {
  }

  /** Without a file, the prompt is the instructions, a blank line and the input, or the input alone. */
  lemma PromptWithoutFile(form: Form)
    requires form.file.None?
    ensures Truthy(form.instructions) ==> PromptFor(form) == Some(form.instructions.value + "\n\n" + Text(form.input))
    ensures !Truthy(form.instructions) ==> PromptFor(form) == form.input
  {
  }

  /** An image file leaves the prompt alone and becomes the one image, unless `sdImage` is set. */
  lemma ImageFile(form: Form)
    requires form.file.Some? && StartsWith(form.file.value.mimeType, "image/")
    ensures PromptFor(form) == BasePrompt(form)
    ensures !Truthy(form.sdImage) ==> ImagesFor(form) == Some([form.file.value.base64])
  {
  }

  /** A PDF's extracted text is appended to the prompt after "pdf content:\n", with no separator before it. */
  lemma PdfFile(form: Form, text: string)
    requires form.file.Some? && form.file.value.mimeType == "application/pdf" && form.file.value.pdfText == Some(text)
    ensures PromptFor(form) == Some(Text(BasePrompt(form)) + ("pdf content:\n" + text))
    ensures !Truthy(form.sdImage) ==> ImagesFor(form).None?
  {
    assert form.file.value.mimeType[0] != "image/"[0];
    assert !IsImage(form.file.value);
  }

  /** A text file's contents are appended to the prompt after "text content:\n". */
  lemma TextFile(form: Form)
    requires form.file.Some? && StartsWith(form.file.value.mimeType, "text/")
    ensures PromptFor(form) == Some(Text(BasePrompt(form)) + ("text content:\n" + form.file.value.utf8))
  {
    assert form.file.value.mimeType[0] == "text/"[0];
    assert !IsImage(form.file.value) && !IsPdf(form.file.value);
  }

  /** A file of any other type changes nothing. */
  lemma OtherFile(form: Form)
    requires form.file.Some?
    requires !StartsWith(form.file.value.mimeType, "image/") && !StartsWith(form.file.value.mimeType, "text/")
    requires form.file.value.mimeType != "application/pdf"
    ensures PromptFor(form) == BasePrompt(form)
    ensures ImagesFor(form) == (if Truthy(form.sdImage) then Some([form.sdImage.value]) else None)
  {
  }

  /** A set `sdImage` replaces any image taken from the file. */
  lemma SdImageWins(form: Form)
    requires Truthy(form.sdImage)
    ensures ImagesFor(form) == Some([form.sdImage.value])
  {
  }

  /** Every failure before the stream is returned answers 500 "Failed to process request". */
  lemma FailuresAnswer500(form: Option<Form>, reply: Reply)
    requires form.None? || (Prepare(form.value) != Invalid && (Prepare(form.value) == Unparsable || reply.GenerateFailed?))
    ensures Post(form, reply) == Json(500, FailureMessage)
  {
  }

  /**
   * The route answers 500 exactly when the form cannot be read, the PDF cannot be parsed or the
   * generation call throws; a stream that throws while it is read is not caught by the `try`,
   * because `start` runs after the response is returned.
   */
  lemma Answers500Iff(form: Option<Form>, reply: Reply)
    ensures Post(form, reply) == Json(500, FailureMessage)
            <==> form.None? || Prepare(form.value) == Unparsable || (Prepare(form.value).Ready? && reply.GenerateFailed?)
  {
  }

  /**
   * A generation stream that throws partway yields a 200 text stream: the non-empty fragments
   * read so far reach the client, then the stream errors.
   */
  lemma StreamFailureErrorsStream(form: Form, fragments: seq<string>)
    requires Prepare(form).Ready?
    ensures Post(Some(form), StreamFailed(fragments)) == TextStream(NonEmpty(fragments), true)
    ensures Post(Some(form), StreamFailed(fragments)).chunks == Post(Some(form), Streamed(fragments)).chunks
    ensures !Post(Some(form), Streamed(fragments)).failed
  {
  }

  /** Only non-empty fragments are forwarded. */
  lemma {:induction false} NonEmptyOnly(fragments: seq<string>)
    ensures forall i :: 0 <= i < |NonEmpty(fragments)| ==> NonEmpty(fragments)[i] != ""
    ensures forall f :: f in fragments && f != "" ==> f in NonEmpty(fragments)
  {
    if |fragments| > 0 {
      var front := fragments[..|fragments| - 1];
      NonEmptyOnly(front);
      assert fragments == front + [fragments[|fragments| - 1]];
    }
  }

  /** Dropping the empty fragments does not change the streamed text. */
  lemma {:induction false} NonEmptyKeepsText(fragments: seq<string>)
    ensures Concat(NonEmpty(fragments)) == Concat(fragments)
  {
    if |fragments| > 0 {
      var front := fragments[..|fragments| - 1];
      var last := fragments[|fragments| - 1];
      NonEmptyKeepsText(front);
      if last != "" {
        ConcatSnoc(NonEmpty(front), last);
      } else {
        assert NonEmpty(fragments) == NonEmpty(front) + [];
        assert NonEmpty(front) + [] == NonEmpty(front);
        assert Concat(fragments) == Concat(front) + "";
        assert Concat(front) + "" == Concat(front);
      }
    }
  }

  /** Fragments are forwarded in the order received: the filter works fragment by fragment. */
  lemma {:induction false} NonEmptyAppend(a: seq<string>, b: seq<string>)
    ensures NonEmpty(a + b) == NonEmpty(a) + NonEmpty(b)
    decreases |b|
  {
    if |b| == 0 {
      assert a + b == a;
    } else {
      var front := b[..|b| - 1];
      assert (a + b)[..|a + b| - 1] == a + front;
      NonEmptyAppend(a, front);
    }
  }
}
