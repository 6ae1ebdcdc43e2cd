/** Document ingestion: an upload is dispatched on its declared MIME type to the
    image branch or the PDF branch, and the selected image is handed to OCR.
    Image decoding, PDF rendering and text recognition are foreign libraries and
    come in as function parameters. */
module Ingestion {
  import opened Text
  import opened Wrappers

  /** The three branches of the upload handler. */
  datatype FileKind = ImageFile | PdfFile | Unsupported

  const PDF_MIME: string := "application/pdf"

  /** Chooses the branch for a declared MIME type. Both tests are case-sensitive. */
  function Dispatch(mime: string): (k: FileKind)
    ensures k == ImageFile <==> StartsWith(mime, "image")
    ensures k == PdfFile <==> mime == PDF_MIME
    ensures k == Unsupported <==> !StartsWith(mime, "image") && mime != PDF_MIME
  {
    assert StartsWith(mime, "image") ==> mime[0] == 'i' != PDF_MIME[0];
    if StartsWith(mime, "image") then ImageFile
    else if mime == PDF_MIME then PdfFile
    else Unsupported
  }

  /** The MIME types the uploader produces for its accepted extensions. */
  lemma AcceptedTypesDispatch()
    ensures Dispatch("image/png") == ImageFile
    ensures Dispatch("image/jpeg") == ImageFile
    ensures Dispatch(PDF_MIME) == PdfFile
  {
    assert "image/png"[..5] == "image";
    assert "image/jpeg"[..5] == "image";
  }

  /** A type whose letters differ in case from an accepted one is unsupported. */
  lemma DispatchIsCaseSensitive()
    ensures Dispatch("Image/png") == Unsupported
    ensures Dispatch("APPLICATION/PDF") == Unsupported
  {
    assert "Image/png"[0] != "image"[0];
    assert "APPLICATION/PDF"[0] != "image"[0];
    assert "APPLICATION/PDF"[0] != PDF_MIME[0];
  }

  /** The first element of the rendered pages, when there is one. */
  function FirstPage<T>(pages: seq<T>): (p: Option<T>)
    ensures p.Some? <==> |pages| > 0
    ensures p.Some? ==> p.value == pages[0]
  {
    if |pages| > 0 then Some(pages[0]) else None
  }

  /** Pages after the first never influence the selection. */
  lemma FirstPageIgnoresLaterPages<T>(first: T, rest1: seq<T>, rest2: seq<T>)
    ensures FirstPage([first] + rest1) == FirstPage([first] + rest2) == Some(first)
  {
    assert ([first] + rest1)[0] == first;
    assert ([first] + rest2)[0] == first;
  }

  /** What the PDF renderer gives back: the rendered pages, or the exception it raised. */
  datatype Rendered<Img> = Pages(pages: seq<Img>) | RenderError(cause: string)

  const NO_PAGES_MESSAGE: string := "No images found in the PDF."
  const PDF_ERROR_PREFIX: string := "Error processing PDF: "
  const UNSUPPORTED_MESSAGE: string :=
    "Unsupported file type. Please upload a PNG, JPG, JPEG, or PDF file."

  /** The result of processing a PDF: the selected page, or the error message shown. */
  datatype PdfOutcome<Img> = PdfOutcome(page: Option<Img>, error: Option<string>)

  /** Selects the first rendered page; an empty rendering and a rendering failure
      are both reported and give no page. */
  function ProcessPdf<Img>(rendered: Rendered<Img>): (r: PdfOutcome<Img>)
    ensures r.page.Some? != r.error.Some?
    ensures r.page.Some? <==> rendered.Pages? && |rendered.pages| > 0
    ensures r.page.Some? ==> r.page.value == rendered.pages[0]
    ensures rendered == Pages([]) ==> r.error == Some(NO_PAGES_MESSAGE)
    ensures rendered.RenderError? ==> r.error == Some(PDF_ERROR_PREFIX + rendered.cause)
  {
    match rendered
    case Pages(pages) =>
      var page := FirstPage(pages);
      if page.Some? then PdfOutcome(page, None) else PdfOutcome(None, Some(NO_PAGES_MESSAGE))
    case RenderError(cause) => PdfOutcome(None, Some(PDF_ERROR_PREFIX + cause))
  }

  /** An uploaded file: its declared MIME type and its content. */
  datatype Upload = Upload(mime: string, content: seq<bv8>)

  /** What one ingestion leaves behind: the extracted text shown later, and the error
      message the page displayed, if any. */
  datatype Extraction = Extraction(text: string, error: Option<string>)

  /** Ingestion as a value: no upload or a failed branch leaves the text empty. */
  function Extract<Img>(
    upload: Option<Upload>,
    decode: seq<bv8> -> Img,
    render: seq<bv8> -> Rendered<Img>,
    ocr: Img -> string
  ): (x: Extraction)
    ensures upload.None? ==> x == Extraction("", None)
    ensures x.error.Some? ==> x.text == ""
    ensures upload.Some? && Dispatch(upload.value.mime) == Unsupported ==>
      x == Extraction("", Some(UNSUPPORTED_MESSAGE))
    ensures upload.Some? && Dispatch(upload.value.mime) == ImageFile ==> x.error.None?
  {
    match upload
    case None => Extraction("", None)
    case Some(file) =>
      match Dispatch(file.mime)
      case ImageFile => Extraction(ocr(decode(file.content)), None)
      case PdfFile =>
        var outcome := ProcessPdf(render(file.content));
        if outcome.page.Some? then Extraction(ocr(outcome.page.value), None)
        else Extraction("", outcome.error)
      case Unsupported => Extraction("", Some(UNSUPPORTED_MESSAGE))
  }

  /** The upload handler, which starts from an empty text and overwrites it in the
      branch the MIME type selects. */
  method Ingest<Img>(
    upload: Option<Upload>,
    decode: seq<bv8> -> Img,
    render: seq<bv8> -> Rendered<Img>,
    ocr: Img -> string
  ) returns (extractedText: string, error: Option<string>)
    ensures Extraction(extractedText, error) == Extract(upload, decode, render, ocr)
  {
    extractedText := "";
    error := None;
    if upload.Some? {
      var fileType := upload.value.mime;
      if StartsWith(fileType, "image") {
        var image := decode(upload.value.content);
        extractedText := ocr(image);
      } else if fileType == PDF_MIME {
        var imageFromPdf := ProcessPdf(render(upload.value.content));
        error := imageFromPdf.error;
        if imageFromPdf.page.Some? {
          extractedText := ocr(imageFromPdf.page.value);
        }
      } else {
        error := Some(UNSUPPORTED_MESSAGE);
      }
    }
  }

  /** For a PDF, only the first rendered page reaches OCR: two renderings that agree
      on page 0 give the same extracted text, whatever pages follow. */
  lemma OnlyFirstPageMatters<Img>(
    file: Upload,
    decode: seq<bv8> -> Img,
    render1: seq<bv8> -> Rendered<Img>,
    render2: seq<bv8> -> Rendered<Img>,
    ocr: Img -> string
  )
    requires Dispatch(file.mime) == PdfFile
    requires render1(file.content).Pages? && render2(file.content).Pages?
    requires |render1(file.content).pages| > 0 && |render2(file.content).pages| > 0
    requires render1(file.content).pages[0] == render2(file.content).pages[0]
    ensures Extract(Some(file), decode, render1, ocr) == Extract(Some(file), decode, render2, ocr)
    ensures Extract(Some(file), decode, render1, ocr).text == ocr(render1(file.content).pages[0])
  {
  }

  /** A PDF that renders no page, or fails to render, yields no text and a message;
      the OCR engine and the image decoder are never consulted. */
  lemma PdfWithoutPageExtractsNothing<Img>(
    file: Upload,
    decode: seq<bv8> -> Img,
    render: seq<bv8> -> Rendered<Img>,
    ocr: Img -> string
  )
    requires Dispatch(file.mime) == PdfFile
    requires render(file.content) == Pages([]) || render(file.content).RenderError?
    ensures Extract(Some(file), decode, render, ocr).text == ""
    ensures Extract(Some(file), decode, render, ocr).error ==
      if render(file.content).RenderError? then Some(PDF_ERROR_PREFIX + render(file.content).cause)
      else Some(NO_PAGES_MESSAGE)
  {
  }

  /** For an unsupported type nothing is decoded, rendered or recognised: the outcome is
      the same whatever the collaborators do. */
  lemma UnsupportedIgnoresCollaborators<Img>(
    file: Upload,
    decode1: seq<bv8> -> Img, render1: seq<bv8> -> Rendered<Img>, ocr1: Img -> string,
    decode2: seq<bv8> -> Img, render2: seq<bv8> -> Rendered<Img>, ocr2: Img -> string
  )
    requires Dispatch(file.mime) == Unsupported
    ensures Extract(Some(file), decode1, render1, ocr1) == Extract(Some(file), decode2, render2, ocr2)
  {
  }
}
