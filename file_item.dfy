/** One row of the file list: its thumbnail, its download button and its delete button. */
module FileItemView {
  import opened Wrappers
  import opened JsBuiltins
  import opened Http
  import opened FileTypes
  import FileApi
  import FileUploadPage

  /** `isImage`. */
  predicate IsImage(f: UploadFileResponse)
    ensures IsImage(f) <==> FileTypeName(f.uploadFileType) == "IMAGE"
  {
    f.uploadFileType == IMAGE
  }

  /** The thumbnail: the public URL of an image record that has a non-empty one, else the icon. */
  function Thumbnail(f: UploadFileResponse): (url: Option<string>)
    ensures url.Some? <==> IsImage(f) && Truthy(f.publicUrl)
    ensures url.Some? ==> url == f.publicUrl && url.value != ""
  {
    if IsImage(f) && Truthy(f.publicUrl) then f.publicUrl else None
  }

  /** A record with a thumbnail, when the service keeps it consistent, is one the image tab shows. */
  lemma ThumbnailOnlyForImageCategories(f: UploadFileResponse)
    requires FileUploadPage.ConsistentRecord(f) && Thumbnail(f).Some?
    ensures f.uploadFileCategory in FileUploadPage.CurrentCategories(IMAGE)
  {
  }

  /** What pressing Download ends in. */
  datatype DownloadAction = OpenWindow(url: string) | Alert(text: string)

  /** The request the download made, if any, and what it ended in. */
  datatype Download = Download(sent: Option<FileApi.Request>, action: DownloadAction)

  /** `handleDownload`: a public record with a non-empty public URL is opened directly; any other
      asks the service for a signed URL with the default lifetime and opens it when the reply has
      `success` and a non-empty URL. A failed call (including a missing token) alerts
      "Failed to download file"; a resolved reply without a URL alerts "Failed to get download URL". */
  function HandleDownload(f: UploadFileResponse, auth: Result<Header, Error>,
                          reply: HttpResponse<ApiResponse<FileApi.DownloadUrlData>>): (d: Download)
    ensures f.isPublic && Truthy(f.publicUrl) ==> d == Download(None, OpenWindow(f.publicUrl.value))
    ensures !(f.isPublic && Truthy(f.publicUrl)) ==> d.sent == FileApi.GetDownloadUrl(f.id, None, auth, reply).sent
    ensures !(f.isPublic && Truthy(f.publicUrl)) ==> (d.sent.Some? <==> auth.Ok?)
    ensures d.sent.Some? ==>
      (d.sent.value.verb == FileApi.GET
       && d.sent.value.path == "/" + IntToString(f.id) + "/download-url"
       && FileApi.QueryValue(d.sent.value.query, "expirationMinutes")
          == Some(IntToString(FileApi.DefaultExpirationMinutes)))
    ensures !(f.isPublic && Truthy(f.publicUrl)) ==>
      (d.action.OpenWindow? <==>
        auth.Ok? && reply.ok && reply.body.Parsed? && reply.body.value.success
        && reply.body.value.data.downloadUrl != "")
    ensures !(f.isPublic && Truthy(f.publicUrl)) && d.action.OpenWindow? ==>
      d.action.url == reply.body.value.data.downloadUrl
    ensures !(f.isPublic && Truthy(f.publicUrl)) ==>
      (d.action == Alert("Failed to download file") <==>
        auth.Err? || !reply.ok || reply.body.Unparseable?)
    ensures d.action.OpenWindow? ==> d.action.url != ""
    ensures d.action.Alert? ==> d.action.text in {"Failed to download file", "Failed to get download URL"}
  {
    if f.isPublic && Truthy(f.publicUrl) then
      Download(None, OpenWindow(f.publicUrl.value))
    else
      var x := FileApi.GetDownloadUrl(f.id, None, auth, reply);
      match x.result
      case Err(_) => Download(x.sent, Alert("Failed to download file"))
      case Ok(response) =>
        if response.success && response.data.downloadUrl != "" then
          Download(x.sent, OpenWindow(response.data.downloadUrl))
        else
          Download(x.sent, Alert("Failed to get download URL"))
  }

  class FileItem {
    const file: UploadFileResponse
    var isDeleting: bool

    constructor (file: UploadFileResponse)
      ensures this.file == file && !isDeleting
    {
      this.file := file;
      isDeleting := false;
    }

    /** The start of `handleDelete`: nothing happens unless the user confirms. The button is
        disabled while a delete is running. */
    method HandleDelete(confirmed: bool) returns (started: bool)
      requires !isDeleting
      modifies this
      ensures started == confirmed && isDeleting == confirmed
    {
      if !confirmed {
        return false;
      }
      isDeleting := true;
      started := true;
    }

    /** The rest of `handleDelete`: on success the parent is told which id to drop and the flag
        stays set; on failure the user is alerted and the button comes back. */
    method FinishDelete(auth: Result<Header, Error>, replyOk: bool)
      returns (sent: Option<FileApi.Request>, removed: Option<int>, alert: Option<string>)
      requires isDeleting
      modifies this
      ensures sent == FileApi.DeleteFile(file.id, auth, replyOk).sent
      ensures auth.Ok? ==> sent == Some(FileApi.Request(FileApi.DELETE, "/" + IntToString(file.id), [], [], auth.value))
      ensures removed.Some? <==> auth.Ok? && replyOk
      ensures removed.Some? ==> removed.value == file.id && alert.None? && isDeleting
      ensures removed.None? ==> alert == Some("Failed to delete file") && !isDeleting
    {
      var x := FileApi.DeleteFile(file.id, auth, replyOk);
      sent := x.sent;
      if x.result.Ok? {
        removed, alert := Some(file.id), None;
      } else {
        removed, alert := None, Some("Failed to delete file");
        isDeleting := false;
      }
    }
  }

  /** A confirmed, successful delete removes the item's record from the page, and nothing else. */
  method DeleteFromPage(page: FileUploadPage.Page, item: FileItem, auth: Header)
    returns (removed: Option<int>)
    requires !item.isDeleting
    modifies page, item
    ensures removed == Some(item.file.id)
    ensures page.files == FileUploadPage.WithoutId(old(page.files), item.file.id)
    ensures forall f :: f in page.files <==> f in old(page.files) && f.id != item.file.id
    ensures item.file !in page.files
    ensures page.referenceType == old(page.referenceType) && page.referenceId == old(page.referenceId)
    ensures page.activeTab == old(page.activeTab) && page.selectedCategory == old(page.selectedCategory)
    ensures page.isLoading == old(page.isLoading)
  {
    var _ := item.HandleDelete(true);
    var _, r, _ := item.FinishDelete(Ok(auth), true);
    removed := r;
    page.HandleDelete(removed.value);
  }
}
