/** The upload drop zone: the drag flag, the first-file rule of drop and select, the routing of a
    category to the image or the attachment endpoint, and the `isUploading`/`error` state around
    one upload attempt.

    An attempt is split at its `await`: `UploadFile` is the part before it (the state is set and the
    API call is chosen), `Dispatch` is the API call, and `FinishUpload` is the rest (the
    `catch` and `finally`), given the outcome of that call. */
module UploadWidget {
  import opened Wrappers
  import opened JsBuiltins
  import opened Http
  import opened FileTypes
  import FileApi

  /** The properties the page passes in. */
  datatype UploadProps = UploadProps(referenceType: ReferenceType, referenceId: int, category: UploadFileCategory)

  datatype Endpoint = ImageUpload | AttachmentUpload

  /** The one API call an attempt makes. */
  datatype UploadCall = UploadCall(
    endpoint: Endpoint,
    file: FileApi.FileRef,
    category: UploadFileCategory,
    referenceType: ReferenceType,
    referenceId: int)

  /** The routing test: a category goes to the image endpoint when its name contains "IMAGE" or "LOGO". */
  predicate IsImageCategory(c: UploadFileCategory) {
    Includes(CategoryName(c), "IMAGE") || Includes(CategoryName(c), "LOGO")
  }

  /** A category whose name contains "IMAGE" or "LOGO" at position `i` is routed as an image. */
  lemma RoutedAsImage(c: UploadFileCategory, p: string, i: nat)
    requires p == "IMAGE" || p == "LOGO"
    requires OccursAt(CategoryName(c), p, i)
    ensures IsImageCategory(c)
  {
    IncludesAt(CategoryName(c), p, i);
  }

  /** A category whose name lacks a letter of "IMAGE" and a letter of "LOGO" is routed as an attachment. */
  lemma RoutedAsAttachment(c: UploadFileCategory, fromImage: char, fromLogo: char)
    requires fromImage in "IMAGE" && fromImage !in CategoryName(c)
    requires fromLogo in "LOGO" && fromLogo !in CategoryName(c)
    ensures !IsImageCategory(c)
  {
    MissingCharExcludes(CategoryName(c), "IMAGE", fromImage);
    MissingCharExcludes(CategoryName(c), "LOGO", fromLogo);
  }

  /** Of the ten categories, the substring test routes as images exactly the five the type
      declaration lists as image categories. */
  lemma RoutingMatchesDeclaration(c: UploadFileCategory)
    ensures IsImageCategory(c) <==> c in DeclaredImageCategories
  {
    if c in DeclaredAttachmentCategories {
      AttachmentCategoriesRouted(c);
    } else {
      CategoriesEnumerated();
      ImageCategoriesRouted(c);
    }
  }

  lemma AttachmentCategoriesRouted(c: UploadFileCategory)
    requires c in DeclaredAttachmentCategories
    ensures !IsImageCategory(c)
  {
    StoreRentContractRouted();
    BusinessRegistrationRouted();
    BusinessLicenseRouted();
    StoreFloorPlanRouted();
    EtcAttachmentRouted();
  }

  // One lemma per attachment category keeps each character check a small proof.
  lemma StoreRentContractRouted() ensures !IsImageCategory(STORE_RENT_CONTRACT) {
    RoutedAsAttachment(STORE_RENT_CONTRACT, 'I', 'G');
  }
  lemma BusinessRegistrationRouted() ensures !IsImageCategory(BUSINESS_REGISTRATION) {
    RoutedAsAttachment(BUSINESS_REGISTRATION, 'M', 'L');
  }
  lemma BusinessLicenseRouted() ensures !IsImageCategory(BUSINESS_LICENSE) {
    RoutedAsAttachment(BUSINESS_LICENSE, 'M', 'G');
  }
  lemma StoreFloorPlanRouted() ensures !IsImageCategory(STORE_FLOOR_PLAN) {
    RoutedAsAttachment(STORE_FLOOR_PLAN, 'I', 'G');
  }
  lemma EtcAttachmentRouted() ensures !IsImageCategory(ETC_ATTACHMENT) {
    RoutedAsAttachment(ETC_ATTACHMENT, 'I', 'L');
  }

  lemma ImageCategoriesRouted(c: UploadFileCategory)
    requires c in DeclaredImageCategories
    ensures IsImageCategory(c)
  {
    match c
    case MENU_IMAGE => assert IsImageCategory(MENU_IMAGE) by { RoutedAsImage(MENU_IMAGE, "IMAGE", 5); }
    case ORGANIZATION_LOGO_EXPANDED => assert IsImageCategory(ORGANIZATION_LOGO_EXPANDED) by { RoutedAsImage(ORGANIZATION_LOGO_EXPANDED, "LOGO", 13); }
    case ORGANIZATION_LOGO_COLLAPSED => assert IsImageCategory(ORGANIZATION_LOGO_COLLAPSED) by { RoutedAsImage(ORGANIZATION_LOGO_COLLAPSED, "LOGO", 13); }
    case STORE_IMAGE => assert IsImageCategory(STORE_IMAGE) by { RoutedAsImage(STORE_IMAGE, "IMAGE", 6); }
    case ETC_IMAGE => assert IsImageCategory(ETC_IMAGE) by { RoutedAsImage(ETC_IMAGE, "IMAGE", 4); }
  }

  /** Three spot checks of the routing rule: STORE_IMAGE and ORGANIZATION_LOGO_EXPANDED go to the
      image endpoint, STORE_RENT_CONTRACT to the attachment endpoint. */
  lemma RoutingExamples()
    ensures IsImageCategory(STORE_IMAGE)
    ensures IsImageCategory(ORGANIZATION_LOGO_EXPANDED)
    ensures !IsImageCategory(STORE_RENT_CONTRACT)
  {
    RoutingMatchesDeclaration(STORE_IMAGE);
    RoutingMatchesDeclaration(ORGANIZATION_LOGO_EXPANDED);
    RoutingMatchesDeclaration(STORE_RENT_CONTRACT);
  }

  /** The call an attempt makes with the current properties: the routing test picks the endpoint,
      everything else is passed on as given. */
  function RouteUpload(props: UploadProps, file: FileApi.FileRef): (call: UploadCall)
    ensures call.endpoint == ImageUpload <==> IsImageCategory(props.category)
    ensures call.file == file && call.category == props.category
    ensures call.referenceType == props.referenceType && call.referenceId == props.referenceId
  {
    UploadCall(if IsImageCategory(props.category) then ImageUpload else AttachmentUpload,
               file, props.category, props.referenceType, props.referenceId)
  }

  /** The text shown for a failed attempt: `err.message`, or "Upload failed" when that is empty. */
  function FailureText(e: Error): (text: string)
    ensures text != ""
    ensures e.message != "" ==> text == e.message
  {
    if e.message != "" then e.message else "Upload failed"
  }

  /** The API call of an attempt: exactly one of the two upload operations, chosen by the endpoint. */
  method Dispatch(call: UploadCall, auth: Result<Header, Error>,
                  reply: HttpResponse<ApiResponse<UploadFileResponse>>)
    returns (x: FileApi.Exchange<ApiResponse<UploadFileResponse>>)
    ensures auth.Err? ==> x == FileApi.Exchange(None, Err(auth.error))
    ensures auth.Ok? ==> x.result == FileApi.HandleResponse(reply)
    ensures auth.Ok? ==> x.sent == Some(FileApi.UploadRequest(
      if call.endpoint == ImageUpload then "/images" else "/attachments",
      call.file, call.category, call.referenceType, call.referenceId, auth.value))
  {
    if call.endpoint == ImageUpload {
      x := FileApi.UploadImage(call.file, call.category, call.referenceType, call.referenceId, auth, reply);
    } else {
      x := FileApi.UploadAttachment(call.file, call.category, call.referenceType, call.referenceId, auth, reply);
    }
  }

  class FileUpload {
    var isDragging: bool
    var isUploading: bool
    var error: Option<string>

    constructor ()
      ensures !isDragging && !isUploading && error == None
    {
      isDragging, isUploading, error := false, false, None;
    }

    method HandleDragOver()
      modifies this
      ensures isDragging
      ensures isUploading == old(isUploading) && error == old(error)
    {
      isDragging := true;
    }

    method HandleDragLeave()
      modifies this
      ensures !isDragging
      ensures isUploading == old(isUploading) && error == old(error)
    {
      isDragging := false;
    }

    /** The start of an attempt: uploading, no error, and the routed call. */
    method UploadFile(props: UploadProps, file: FileApi.FileRef) returns (call: UploadCall)
      modifies this
      ensures isUploading && error == None && isDragging == old(isDragging)
      ensures call == RouteUpload(props, file)
    {
      isUploading := true;
      error := None;
      call := RouteUpload(props, file);
    }

    /** A drop clears the drag flag and uploads the first dropped file, if any. */
    method HandleDrop(props: UploadProps, files: seq<FileApi.FileRef>) returns (call: Option<UploadCall>)
      modifies this
      ensures !isDragging
      ensures |files| == 0 ==> call.None? && isUploading == old(isUploading) && error == old(error)
      ensures |files| > 0 ==> call == Some(RouteUpload(props, files[0])) && isUploading && error == None
    {
      isDragging := false;
      if |files| > 0 {
        var c := UploadFile(props, files[0]);
        call := Some(c);
      } else {
        call := None;
      }
    }

    /** Selecting files uploads the first one, if there is a list and it is not empty. */
    method HandleFileSelect(props: UploadProps, files: Option<seq<FileApi.FileRef>>) returns (call: Option<UploadCall>)
      modifies this
      ensures isDragging == old(isDragging)
      ensures (files.None? || |files.value| == 0) ==> call.None? && isUploading == old(isUploading) && error == old(error)
      ensures files.Some? && |files.value| > 0 ==>
        call == Some(RouteUpload(props, files.value[0])) && isUploading && error == None
    {
      if files.Some? && |files.value| > 0 {
        var c := UploadFile(props, files.value[0]);
        call := Some(c);
      } else {
        call := None;
      }
    }

    /** The end of an attempt, given the outcome of its API call: `onUploadSuccess` is called
        exactly when the call did not throw (whatever its envelope's `success`), a failure shows
        its text, and uploading ends either way. */
    method FinishUpload(outcome: Result<ApiResponse<UploadFileResponse>, Error>) returns (uploadSucceeded: bool)
      modifies this
      ensures uploadSucceeded <==> outcome.Ok?
      ensures !isUploading && isDragging == old(isDragging)
      ensures outcome.Ok? ==> error == old(error)
      ensures outcome.Err? ==> error == Some(FailureText(outcome.error))
    {
      if outcome.Ok? {
        uploadSucceeded := true;
      } else {
        uploadSucceeded := false;
        error := Some(FailureText(outcome.error));
      }
      isUploading := false;
    }
  }
}
