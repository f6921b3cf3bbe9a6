/** The upload page (app/dashboard/upload/page.tsx): the user picks or drops
    one file, the page validates it (type first, then size), keeps it with a
    preview for images, tracks whether a drag hovers over the drop zone, and
    uploads the kept file, going to the new document's page on success. */
module Upload {
  import opened Js
  import opened Api
  import RouteGuard

  /** The MIME types the page accepts. */
  const ValidTypes: seq<string> := ["image/jpeg", "image/png", "image/jpg", "application/pdf"]
  /** 10 MiB: the largest accepted size, in bytes. */
  const MaxFileSize: nat := 10 * 1024 * 1024
  const InvalidTypeMessage: string := "Tipo de arquivo inválido. Use JPEG, PNG ou PDF."
  const TooLargeMessage: string := "Arquivo muito grande. Máximo: 10MB"
  const UploadErrorFallback: string := "Erro ao fazer upload"
  const UploadEndpoint: string := "/documents/upload"

  /** The part of the upload response the page uses: the new document's id. */
  datatype UploadedDocument = UploadedDocument(id: string)

  /** The error a chosen file is rejected with, or None when it is accepted.
      The type is checked before the size. */
  function Validate(f: File): (r: Option<string>)
    ensures f.mimeType !in ValidTypes ==> r == Some(InvalidTypeMessage)
    ensures f.mimeType in ValidTypes && f.size > MaxFileSize ==> r == Some(TooLargeMessage)
    ensures r == None <==> f.mimeType in ValidTypes && f.size <= MaxFileSize
  {
    if f.mimeType !in ValidTypes then Some(InvalidTypeMessage)
    else if f.size > MaxFileSize then Some(TooLargeMessage)
    else None
  }

  /** Images get a preview; `type.startsWith('image/')`. */
  predicate IsImage(f: File)
  {
    StartsWith(f.mimeType, "image/")
  }

  /** The size bound is inclusive: 10485760 bytes pass, one more byte does not. */
  lemma SizeBoundary(name: string, mimeType: string)
    requires mimeType in ValidTypes
    ensures Validate(File(name, mimeType, 10485760)) == None
    ensures Validate(File(name, mimeType, 10485761)) == Some(TooLargeMessage)
  {
  }

  /** Of the accepted files, exactly those that are not PDFs get a preview. */
  lemma {:induction false} PreviewForAcceptedImagesOnly(f: File)
    requires Validate(f) == None
    ensures IsImage(f) <==> f.mimeType != "application/pdf"
  {
    var t := f.mimeType;
    assert t == ValidTypes[0] || t == ValidTypes[1] || t == ValidTypes[2] || t == ValidTypes[3];
    if t == "application/pdf" {
      assert t[0] != "image/"[0];
    } else {
      assert t[..6] == "image/";
    }
  }

  /** The state of the page. */
  class UploadPage {
    /** the file chosen for upload */
    var file: Option<File>
    /** the data URL shown as a preview */
    var preview: Option<string>
    var isUploading: bool
    var error: Option<string>
    /** whether a drag hovers over the drop zone */
    var dragActive: bool
    /** the files whose `FileReader` was started and has not finished, oldest first */
    var previewReads: seq<File>
    /** the page `router.push` was sent to, if any */
    var navigation: Option<string>

    constructor ()
      ensures file == None && preview == None && !isUploading && error == None && !dragActive
      ensures previewReads == [] && navigation == None
    {
      file := None;
      preview := None;
      isUploading := false;
      error := None;
      dragActive := false;
      previewReads := [];
      navigation := None;
    }

    /** `handleFileChange(selected)` */
    method HandleFileChange(selected: Option<File>)
      modifies this
      ensures selected.None? ==> unchanged(this)
      ensures selected.Some? && Validate(selected.value).Some? ==>
        && error == Validate(selected.value)
        && file == old(file) && preview == old(preview) && previewReads == old(previewReads)
      ensures selected.Some? && Validate(selected.value).None? ==>
        && file == selected && error == None
        && (IsImage(selected.value) ==> preview == old(preview) && previewReads == old(previewReads) + [selected.value])
        && (!IsImage(selected.value) ==> preview == None && previewReads == old(previewReads))
      ensures isUploading == old(isUploading) && dragActive == old(dragActive) && navigation == old(navigation)
    {
      if selected.None? {
        return;
      }
      var f := selected.value;
      if f.mimeType !in ValidTypes {
        error := Some(InvalidTypeMessage);
        return;
      }
      if f.size > MaxFileSize {
        error := Some(TooLargeMessage);
        return;
      }
      file := Some(f);
      error := None;
      if IsImage(f) {
        previewReads := previewReads + [f];
      } else {
        preview := None;
      }
    }

    /** The pending `FileReader` number `i` finished (`reader.onloadend`):
        `result` is its data URL, or None when the read failed or was aborted,
        and becomes the preview either way; the read is no longer pending.
        Reads may finish in any order. */
    method PreviewLoaded(i: nat, result: Option<string>)
      requires i < |previewReads|
      modifies this
      ensures preview == result
      ensures previewReads == old(previewReads)[..i] + old(previewReads)[i + 1..]
      ensures file == old(file) && error == old(error) && isUploading == old(isUploading)
      ensures dragActive == old(dragActive) && navigation == old(navigation)
    {
      preview := result;
      previewReads := previewReads[..i] + previewReads[i + 1..];
    }

    /** The button that discards the chosen file. */
    method RemoveFile()
      modifies this
      ensures file == None && preview == None
      ensures error == old(error) && isUploading == old(isUploading)
      ensures dragActive == old(dragActive) && previewReads == old(previewReads) && navigation == old(navigation)
    {
      file := None;
      preview := None;
    }

    /** `handleDrag(e)` for an event whose `type` is `eventType`. */
    method HandleDrag(eventType: string)
      modifies this
      ensures eventType == "dragenter" || eventType == "dragover" ==> dragActive
      ensures eventType == "dragleave" ==> !dragActive
      ensures eventType != "dragenter" && eventType != "dragover" && eventType != "dragleave" ==>
        dragActive == old(dragActive)
      ensures file == old(file) && preview == old(preview) && error == old(error) && isUploading == old(isUploading)
      ensures previewReads == old(previewReads) && navigation == old(navigation)
    {
      if eventType == "dragenter" || eventType == "dragover" {
        dragActive := true;
      } else if eventType == "dragleave" {
        dragActive := false;
      }
    }

    /** `handleDrop(e)`, where `files` is `e.dataTransfer.files`. */
    method HandleDrop(files: seq<File>)
      modifies this
      ensures !dragActive
      ensures files == [] ==>
        && file == old(file) && preview == old(preview) && error == old(error)
        && previewReads == old(previewReads)
      ensures files != [] && Validate(files[0]).Some? ==>
        && error == Validate(files[0])
        && file == old(file) && preview == old(preview) && previewReads == old(previewReads)
      ensures files != [] && Validate(files[0]).None? ==>
        && file == Some(files[0]) && error == None
        && (IsImage(files[0]) ==> preview == old(preview) && previewReads == old(previewReads) + [files[0]])
        && (!IsImage(files[0]) ==> preview == None && previewReads == old(previewReads))
      ensures isUploading == old(isUploading) && navigation == old(navigation)
    {
      dragActive := false;
      if |files| > 0 {
        HandleFileChange(Some(files[0]));
      }
    }

    /** `handleUpload()`, where the server answers the upload with `fetched`.
        Returns the request sent, if one was. */
    method HandleUpload(client: ApiClient, fetched: Fetched<UploadedDocument>) returns (sent: Option<Request>)
      modifies this, client
      ensures sent.None? <==> old(file).None?
      ensures sent.Some? ==>
        && sent.value.url == client.apiUrl + UploadEndpoint && sent.value.formFile == old(file)
        && sent.value.httpMethod == Some("POST")
      ensures file == old(file) && preview == old(preview) && dragActive == old(dragActive)
      ensures previewReads == old(previewReads)
      ensures old(file).None? ==>
        && isUploading == old(isUploading) && error == old(error) && navigation == old(navigation)
        && client.storage == old(client.storage) && client.location == old(client.location)
      ensures old(file).Some? && UploadOutcome(fetched).Ok? ==>
        && isUploading && error == None
        && navigation == Some(RouteGuard.DocumentPath(UploadOutcome(fetched).value.payload.id))
      ensures old(file).Some? && UploadOutcome(fetched).Err? ==>
        && !isUploading && navigation == old(navigation)
        && error == Some(if UploadOutcome(fetched).error.message != "" then UploadOutcome(fetched).error.message
                         else UploadErrorFallback)
      ensures old(file).Some? && IsUnauthorized(fetched) && client.hasWindow ==>
        client.storage == old(client.storage) - {"token", "user"} && client.location == Some(RouteGuard.LoginPath)
      ensures old(file).Some? && !(IsUnauthorized(fetched) && client.hasWindow) ==>
        client.storage == old(client.storage) && client.location == old(client.location)
    {
      sent := None;
      if file.None? {
        return;
      }
      isUploading := true;
      error := None;
      var request, r := client.UploadFile(UploadEndpoint, file.value, fetched);
      sent := Some(request);
      match r
      case Ok(json) =>
        navigation := Some(RouteGuard.DocumentPath(json.payload.id));
      case Err(failure) =>
        error := Some(Or(Some(failure.message), UploadErrorFallback));
        isUploading := false;
    }
  }
}
