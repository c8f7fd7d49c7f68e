/** The image upload panel: the files accepted for upload, the descriptor
    kept for each uploaded image, and the messages handed to the chat when
    an image is analysed or its text extracted. */
module UploadSession {
  import opened Common
  import opened Json
  import opened Records
  import opened ChatHistory

  /** A file offered by the picker or by a drop. */
  datatype FileInfo = FileInfo(name: string, size: nat, mime: string)

  /** What processing one file yields before the file path is chosen: the
      id and time given to it, its preview reference, its base64 text and
      the upload response, or the error that stopped it. */
  datatype UploadOutcome =
    | Uploaded(id: int, at: int, previewUrl: string, base64: string, response: Json)
    | UploadFailed(error: Json)

  const NoTextFound := "Không tìm thấy text trong ảnh"
  const VisionUnavailable := "Không thể trích xuất text bằng vision model"
  const DefaultAnalysisPrompt := "Hãy mô tả chi tiết những gì bạn thấy trong ảnh này"
  const AnalysisFallbackNotice := "⚠️ Không thể phân tích ảnh trực tiếp.\n\n"
  const AnalysisTips := "\n\n💡 Thử:\n- Sử dụng ảnh định dạng JPG/PNG\n- Chọn model khác (GPT-4o, Claude Vision)\n- Upload ảnh kích thước nhỏ hơn"
  const OcrHeading := "**Text được trích xuất:**\n\n"
  const VisionHeading := "**Text được trích xuất (via Vision):**\n\n"
  const AnalysisErrorPrefix := "❌ Lỗi phân tích ảnh: "
  const OcrErrorPrefix := "❌ Lỗi trích xuất text: "
  const OcrTips := "\n\n💡 Thử:\n- Ảnh có text rõ ràng hơn\n- Định dạng JPG/PNG\n- Model khác có vision capability"

  // ---------------------------------------------------------------------
  // Accepting files.
  // ---------------------------------------------------------------------

  /** `file.type.startsWith('image/')`. */
  predicate IsImage(f: FileInfo) {
    StartsWith(f.mime, "image/")
  }

  function ImageFiles(files: seq<FileInfo>): (r: seq<FileInfo>)
    ensures forall f :: f in r <==> f in files && IsImage(f)
    ensures IsSubsequence(r, files)
    ensures forall f :: f in files ==> multiset(r)[f] == if IsImage(f) then multiset(files)[f] else 0
  {
    FilterIsSubsequence(files, IsImage);
    FilterCounts(files, IsImage);
    Filter(files, IsImage)
  }

  /** The file path chosen from an upload response: the first element's
      `path` or else its `name` for a non-empty array, else the response's
      truthy `path`, else its `name` or else the file's own name. `None`
      where reading a property of `null` or `undefined` throws. */
  function FilePath(response: Json, fileName: string): (r: Option<Json>)
    ensures r.None? <==>
      response.Null? || response.Undefined? ||
      (response.Arr? && response.elems != [] && (response.elems[0].Null? || response.elems[0].Undefined?))
    ensures response.Arr? && response.elems != [] && r.Some? ==>
      r.value == Or(Get(response.elems[0], "path"), Get(response.elems[0], "name"))
    ensures !(response.Arr? && response.elems != []) && Truthy(Get(response, "path")) ==>
      r == Some(Get(response, "path"))
    ensures !response.Obj? && !(response.Arr? && response.elems != []) && r.Some? ==>
      r == Some(Str(fileName))
    ensures response.Obj? && !Truthy(Get(response, "path")) ==>
      r == Some(Or(Get(response, "name"), Str(fileName)))
  {
    if response.Arr? && response.elems != [] then
      var first := response.elems[0];
      if first.Null? || first.Undefined? then None
      else Some(Or(Get(first, "path"), Get(first, "name")))
    else if response.Null? || response.Undefined? then None
    else if Truthy(Get(response, "path")) then Some(Get(response, "path"))
    else Some(Or(Get(response, "name"), Str(fileName)))
  }

  /** The descriptor built for one accepted file, if processing it
      succeeds. */
  function Describe(file: FileInfo, outcome: UploadOutcome): (d: Option<Descriptor>)
    ensures d.Some? <==> outcome.Uploaded? && FilePath(outcome.response, file.name).Some?
    ensures d.Some? ==> d.value.name == file.name && d.value.size == file.size && d.value.mime == file.mime
    ensures d.Some? ==> d.value.id == outcome.id && d.value.filePath == FilePath(outcome.response, file.name).value
  {
    match outcome
    case UploadFailed(_) => None
    case Uploaded(id, at, previewUrl, base64, response) =>
      var path := FilePath(response, file.name);
      if path.None? then None
      else Some(Descriptor(id, file.name, file.size, file.mime, previewUrl, path.value, base64, response, at))
  }

  /** The descriptors appended for `files`, where `outcomes[i]` is what
      processing `files[i]` yields: one per file that succeeds, in order. */
  function Uploads(files: seq<FileInfo>, outcomes: seq<UploadOutcome>): (r: seq<Descriptor>)
    requires |outcomes| == |files|
    ensures |r| <= |files|
    decreases |files|
  {
    if files == [] then []
    else
      var n := |files| - 1;
      var d := Describe(files[n], outcomes[n]);
      Uploads(files[..n], outcomes[..n]) + (if d.Some? then [d.value] else [])
  }

  /** A failure on one file neither stops nor disturbs the others: the
      uploads of two batches are the uploads of each, one after the other. */
  lemma {:induction false} UploadsAppend(f1: seq<FileInfo>, o1: seq<UploadOutcome>,
                                         f2: seq<FileInfo>, o2: seq<UploadOutcome>)
    requires |o1| == |f1| && |o2| == |f2|
    ensures Uploads(f1 + f2, o1 + o2) == Uploads(f1, o1) + Uploads(f2, o2)
    decreases |f2|
  {
    if f2 == [] {
      assert f1 + f2 == f1 && o1 + o2 == o1;
    } else {
      var n := |f2| - 1;
      assert (f1 + f2)[..|f1| + n] == f1 + f2[..n];
      assert (o1 + o2)[..|o1| + n] == o1 + o2[..n];
      UploadsAppend(f1, o1, f2[..n], o2[..n]);
    }
  }

  /** Processing one more file appends at most its own descriptor. */
  lemma UploadsStep(files: seq<FileInfo>, outcomes: seq<UploadOutcome>, i: nat)
    requires |outcomes| == |files| && i < |files|
    ensures var d := Describe(files[i], outcomes[i]);
      Uploads(files[..i + 1], outcomes[..i + 1]) ==
      Uploads(files[..i], outcomes[..i]) + (if d.Some? then [d.value] else [])
  {
    assert files[..i + 1][..i] == files[..i];
    assert outcomes[..i + 1][..i] == outcomes[..i];
  }

  /** Every uploaded descriptor is one of the accepted files, an image. */
  lemma {:induction false} UploadsAreImages(files: seq<FileInfo>, outcomes: seq<UploadOutcome>)
    requires |outcomes| == |files|
    requires forall f :: f in files ==> IsImage(f)
    ensures forall d :: d in Uploads(files, outcomes) ==> StartsWith(d.mime, "image/")
    decreases |files|
  {
    if files != [] {
      var n := |files| - 1;
      assert files[n] in files;
      assert forall f :: f in files[..n] ==> f in files;
      UploadsAreImages(files[..n], outcomes[..n]);
    }
  }

  /** With every file succeeding, each file gets exactly one descriptor. */
  lemma {:induction false} UploadsAllSucceed(files: seq<FileInfo>, outcomes: seq<UploadOutcome>)
    requires |outcomes| == |files|
    requires forall i :: 0 <= i < |files| ==> Describe(files[i], outcomes[i]).Some?
    ensures |Uploads(files, outcomes)| == |files|
    decreases |files|
  {
    if files != [] {
      var n := |files| - 1;
      UploadsAllSucceed(files[..n], outcomes[..n]);
    }
  }

  /** The uploads without `id`, the others in their order. */
  function RemoveUpload(images: seq<Descriptor>, id: int): (r: seq<Descriptor>)
    ensures forall d :: d in r <==> d in images && d.id != id
    ensures IsSubsequence(r, images)
    ensures forall d :: d in images ==> multiset(r)[d] == if d.id != id then multiset(images)[d] else 0
    ensures (forall j :: 0 <= j < |images| ==> images[j].id != id) ==> r == images
  {
    var keep := (d: Descriptor) => d.id != id;
    FilterIsSubsequence(images, keep);
    FilterCounts(images, keep);
    if forall j :: 0 <= j < |images| ==> images[j].id != id then
      FilterKeepsAll(images, keep);
      Filter(images, keep)
    else
      Filter(images, keep)
  }

  // ---------------------------------------------------------------------
  // What is handed to the chat.
  // ---------------------------------------------------------------------

  /** A message and the ready response, if any, handed to the chat's
      `sendMessage`. */
  datatype Outgoing = Outgoing(message: string, response: Option<string>)

  /** The `customResponse` a value gives `sendMessage`: its text when it is
      truthy, none when it is falsy. A truthy value whose text is empty
      (an empty array, say) is still a response. */
  function CustomResponse(v: Json): (r: Option<string>)
    ensures r.Some? <==> Truthy(v)
    ensures v.Str? && v.s != "" ==> r == Some(v.s)
    ensures r.Some? ==> r.value == ToText(v)
  {
    if Truthy(v) then Some(ToText(v)) else None
  }

  /** The analysis prompt: the question, a blank line and the file name. */
  function AnalysisPrompt(prompt: string, name: string): (r: string)
    ensures prompt <= r
    ensures |r| == |prompt| + |name| + 19
    ensures r[|prompt|..] == "\n\n[Phân tích ảnh: " + name + "]"
  {
    prompt + "\n\n[Phân tích ảnh: " + name + "]"
  }

  /** The reply text `analyzeImage` takes from a provider response. */
  function AnalysisReply(response: Json): (r: Json)
    ensures response.Str? ==> r == response
    ensures HasMessageContent(response) ==> r == ContentValue(Get(Get(response, "message"), "content"))
    ensures !HasMessageContent(response) && Truthy(Get(response, "content")) ==> r == Get(response, "content")
    ensures !response.Str? && !HasMessageContent(response) && !Truthy(Get(response, "content")) ==>
      r == Str(UnreadableReply)
    ensures !response.Str? && !Truthy(response) ==> r == Str(UnreadableReply)
  {
    if response.Str? then response
    else if HasMessageContent(response) then ContentValue(Get(Get(response, "message"), "content"))
    else if Truthy(response) && Truthy(Get(response, "content")) then Get(response, "content")
    else Str(UnreadableReply)
  }

  /** On the response shapes both recognise, the analysis reply and the
      chat's own reply text agree. */
  lemma AnalysisAgreesWithChat(response: Json, model: string)
    requires response.Str? || HasMessageContent(response) || (response.Obj? && Truthy(Get(response, "content")))
    ensures ToText(AnalysisReply(response)) == ReplyText(response, model)
  {
  }

  /** `analyzeImage(image, prompt)` given the answer of the vision call and,
      when that fails, of the fallback call made from the file name. */
  function AnalyzeImage(d: Descriptor, prompt: string, primary: ChatReply, fallback: ChatReply): (r: Outgoing)
    ensures primary.Replied? ==>
      r == Outgoing(AnalysisPrompt(prompt, d.name), CustomResponse(AnalysisReply(primary.response)))
    ensures primary.ChatFailed? ==> r.message == "Phân tích ảnh: " + d.name && r.response.Some?
    ensures primary.ChatFailed? && fallback.Replied? ==>
      r.response == Some(AnalysisFallbackNotice + ToText(fallback.response))
    ensures primary.ChatFailed? && fallback.ChatFailed? ==>
      r.response == Some(AnalysisErrorPrefix + ToText(Get(primary.error, "message")) + AnalysisTips)
  {
    match primary
    case Replied(response) =>
      Outgoing(AnalysisPrompt(prompt, d.name), CustomResponse(AnalysisReply(response)))
    case ChatFailed(error) =>
      match fallback
      case Replied(answer) =>
        Outgoing("Phân tích ảnh: " + d.name, Some(AnalysisFallbackNotice + ToText(answer)))
      case ChatFailed(_) =>
        Outgoing("Phân tích ảnh: " + d.name,
                 Some(AnalysisErrorPrefix + ToText(Get(error, "message")) + AnalysisTips))
  }

  /** The outcome of one `puter.ai.img2txt` call. */
  datatype OcrReply = Read(text: Json) | OcrFailed(error: Json)

  /** The text the vision fallback of `extractText` takes from a response. */
  function VisionText(response: Json): (r: Json)
    ensures response.Str? ==> r == response
    ensures HasMessageContent(response) ==> r == ContentValue(Get(Get(response, "message"), "content"))
    ensures !response.Str? && !HasMessageContent(response) ==> r == Str(VisionUnavailable)
  {
    if response.Str? then response
    else if HasMessageContent(response) then ContentValue(Get(Get(response, "message"), "content"))
    else Str(VisionUnavailable)
  }

  /** `extractText(image)` given the OCR answer and, when it fails, the
      answer of the vision fallback. An empty OCR text is replaced by a
      fixed notice; a failed fallback reports the OCR error. */
  function ExtractText(d: Descriptor, ocr: OcrReply, vision: ChatReply): (r: Outgoing)
    ensures r.response.Some?
    ensures ocr.Read? ==> r.message == "Trích xuất text từ ảnh: " + d.name
    ensures ocr.Read? && !Truthy(ocr.text) ==> r.response == Some(OcrHeading + NoTextFound)
    ensures ocr.Read? && Truthy(ocr.text) ==> r.response == Some(OcrHeading + ToText(ocr.text))
    ensures ocr.Read? && ocr.text.Str? && ocr.text.s != "" ==> r.response == Some(OcrHeading + ocr.text.s)
    ensures ocr.OcrFailed? ==> r.message == "OCR ảnh: " + d.name
    ensures ocr.OcrFailed? && vision.Replied? ==>
      r.response == Some(VisionHeading + ToText(VisionText(vision.response)))
    ensures ocr.OcrFailed? && vision.ChatFailed? ==>
      r.response == Some(OcrErrorPrefix + ToText(Get(ocr.error, "message")) + OcrTips)
  {
    match ocr
    case Read(text) =>
      Outgoing("Trích xuất text từ ảnh: " + d.name,
               Some(OcrHeading + ToText(Or(text, Str(NoTextFound)))))
    case OcrFailed(error) =>
      match vision
      case Replied(response) =>
        Outgoing("OCR ảnh: " + d.name,
                 Some(VisionHeading + ToText(VisionText(response))))
      case ChatFailed(_) =>
        Outgoing("OCR ảnh: " + d.name,
                 Some(OcrErrorPrefix + ToText(Get(error, "message")) + OcrTips))
  }

  // ---------------------------------------------------------------------
  // The component's state.
  // ---------------------------------------------------------------------

  class UploadPanel {
    var uploadedImages: seq<Descriptor>
    var isUploading: bool

    constructor ()
      ensures uploadedImages == [] && !isUploading
    {
      uploadedImages := [];
      isUploading := false;
    }

    /** `handleFiles(files)`: keep the image files; with none, change
        nothing. Otherwise process them one by one, appending a descriptor
        for each that succeeds; `outcomes[i]` is what processing the `i`th
        image file yields. */
    method HandleFiles(files: seq<FileInfo>, outcomes: seq<UploadOutcome>)
      requires |outcomes| == |ImageFiles(files)|
      modifies this
      ensures ImageFiles(files) == [] ==>
        uploadedImages == old(uploadedImages) && isUploading == old(isUploading)
      ensures ImageFiles(files) != [] ==>
        uploadedImages == old(uploadedImages) + Uploads(ImageFiles(files), outcomes) && !isUploading
    {
      var imageFiles := ImageFiles(files);
      if |imageFiles| == 0 {
        return;
      }
      isUploading := true;
      AppendUploads(imageFiles, outcomes);
      isUploading := false;
    }

    /** The loop of `handleFiles`: each file in turn, its descriptor
        appended when processing it succeeds. */
    method AppendUploads(imageFiles: seq<FileInfo>, outcomes: seq<UploadOutcome>)
      requires |outcomes| == |imageFiles|
      modifies this`uploadedImages
      ensures uploadedImages == old(uploadedImages) + Uploads(imageFiles, outcomes)
    {
      var i := 0;
      while i < |imageFiles|
        invariant 0 <= i <= |imageFiles|
        invariant uploadedImages == old(uploadedImages) + Uploads(imageFiles[..i], outcomes[..i])
      {
        var d := Describe(imageFiles[i], outcomes[i]);
        UploadsStep(imageFiles, outcomes, i);
        if d.Some? {
          uploadedImages := uploadedImages + [d.value];
        }
        i := i + 1;
      }
      assert imageFiles[..i] == imageFiles && outcomes[..i] == outcomes;
    }

    /** `removeImage(id)`. */
    method RemoveImage(id: int)
      modifies this`uploadedImages
      ensures uploadedImages == RemoveUpload(old(uploadedImages), id)
    {
      uploadedImages := RemoveUpload(uploadedImages, id);
    }
  }
}
