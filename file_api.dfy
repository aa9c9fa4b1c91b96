/** The file-service client: each operation builds its request, obtains the authorization header,
    and turns the service's reply into a result or a thrown error.

    `fetch` is not modelled: an operation takes the outcome of `getAuthHeader()` and the reply the
    service gives to its request as inputs, and returns the request it sends (none when the header
    could not be obtained) together with what it resolves or throws. Paths are relative to the
    service base path `/api/v1/files`. */
module FileApi {
  import opened Wrappers
  import opened JsBuiltins
  import opened Http
  import opened FileTypes

  datatype HttpMethod = GET | POST | DELETE

  /** A browser `File` chosen by the user; its contents are not modelled. */
  datatype FileRef = FileRef(name: string)

  /** A multipart form value: the file itself or a text field. */
  datatype FormValue = FilePart(file: FileRef) | Text(text: string)

  /** A request as sent: method (verb), path below the base path, ordered query pairs, ordered form
      fields, and the authorization header it carries. */
  datatype Request = Request(
    verb: HttpMethod,
    path: string,
    query: seq<(string, string)>,
    form: seq<(string, FormValue)>,
    authorization: Header)

  /** One operation's interaction: the request it sent, if any, and its outcome. */
  datatype Exchange<T> = Exchange(sent: Option<Request>, result: Result<T, Error>)

  /** The `data` of a download-URL reply. */
  datatype DownloadUrlData = DownloadUrlData(
    fileId: int, originalFileName: string, downloadUrl: string, expirationMinutes: int)

  const DefaultPage := 0
  const DefaultPageSize := 20
  const DefaultExpirationMinutes := 60

  // ---------------------------------------------------------------------------
  // FormData and URLSearchParams, reduced to their ordered entries
  // ---------------------------------------------------------------------------

  class FormData {
    var entries: seq<(string, FormValue)>

    constructor ()
      ensures entries == []
    {
      entries := [];
    }

    method Append(name: string, value: FormValue)
      modifies this
      ensures entries == old(entries) + [(name, value)]
    {
      entries := entries + [(name, value)];
    }
  }

  class SearchParams {
    var pairs: seq<(string, string)>

    constructor (init: seq<(string, string)>)
      ensures pairs == init
    {
      pairs := init;
    }

    method Append(name: string, value: string)
      modifies this
      ensures pairs == old(pairs) + [(name, value)]
    {
      pairs := pairs + [(name, value)];
    }
  }

  /** The value of the first pair named `key`, as `URLSearchParams.get` and a server read it. */
  function QueryValue(q: seq<(string, string)>, key: string): Option<string>
    decreases |q|
  {
    if q == [] then None
    else if q[0].0 == key then Some(q[0].1)
    else QueryValue(q[1..], key)
  }

  /** Looking a key up finds the first pair with that name. */
  lemma {:induction false} QueryValueFindsFirst(q: seq<(string, string)>, key: string, i: nat)
    requires i < |q| && q[i].0 == key
    requires forall j :: 0 <= j < i ==> q[j].0 != key
    ensures QueryValue(q, key) == Some(q[i].1)
    decreases i
  {
    if i > 0 {
      QueryValueFindsFirst(q[1..], key, i - 1);
    }
  }

  /** A key no pair carries is absent. */
  lemma {:induction false} QueryValueAbsent(q: seq<(string, string)>, key: string)
    requires forall j :: 0 <= j < |q| ==> q[j].0 != key
    ensures QueryValue(q, key) == None
    decreases |q|
  {
    if q != [] {
      QueryValueAbsent(q[1..], key);
    }
  }

  function Names<V>(entries: seq<(string, V)>): (names: seq<string>)
    ensures |names| == |entries| && forall i :: 0 <= i < |entries| ==> names[i] == entries[i].0
  {
    seq(|entries|, i requires 0 <= i < |entries| => entries[i].0)
  }

  // ---------------------------------------------------------------------------
  // handleResponse
  // ---------------------------------------------------------------------------

  /** `handleResponse`: a 2xx reply resolves with its parsed body unchanged (its `success` field is
      not looked at); any other reply throws with the body's `message`, with "API request failed"
      when the body has none, and with "Unknown error" when the body is not JSON. */
  function HandleResponse<T>(resp: HttpResponse<T>): (r: Result<T, Error>)
    ensures r.Ok? <==> resp.ok && resp.body.Parsed?
    ensures r.Ok? ==> r.value == resp.body.value
    ensures resp.ok && resp.body.Unparseable? ==> r == Err(Error(resp.body.syntaxMessage))
    ensures !resp.ok && resp.body.Unparseable? ==> r == Err(Error("Unknown error"))
    ensures !resp.ok && resp.body.Parsed? && Truthy(resp.body.message) ==> r == Err(Error(resp.body.message.value))
    ensures !resp.ok && resp.body.Parsed? && !Truthy(resp.body.message) ==> r == Err(Error("API request failed"))
  {
    if !resp.ok then
      var message := match resp.body
        case Unparseable(_) => Some("Unknown error")
        case Parsed(_, m) => m;
      Err(Error(if Truthy(message) then message.value else "API request failed"))
    else
      match resp.body
      case Unparseable(syntaxMessage) => Err(Error(syntaxMessage))
      case Parsed(value, _) => Ok(value)
  }

  /** A 2xx envelope is passed through even when it reports `success: false`. */
  lemma EnvelopePassedThrough<T>(envelope: ApiResponse<T>, message: Option<string>)
    ensures HandleResponse(HttpResponse(true, Parsed(envelope, message))) == Ok(envelope)
  {
  }

  /** A reply that is not 2xx always throws an error with a non-empty message. */
  lemma FailureMessageNonEmpty<T>(resp: HttpResponse<T>)
    requires !resp.ok
    ensures HandleResponse(resp).Err? && HandleResponse(resp).error.message != ""
  {
  }

  // ---------------------------------------------------------------------------
  // The requests
  // ---------------------------------------------------------------------------

  /** The form both upload operations send: file, category, referenceType, referenceId. */
  function UploadForm(file: FileRef, category: UploadFileCategory, referenceType: ReferenceType, referenceId: int)
    : seq<(string, FormValue)>
  {
    [("file", FilePart(file)),
     ("category", Text(CategoryName(category))),
     ("referenceType", Text(ReferenceTypeName(referenceType))),
     ("referenceId", Text(IntToString(referenceId)))]
  }

  function UploadRequest(path: string, file: FileRef, category: UploadFileCategory,
                         referenceType: ReferenceType, referenceId: int, auth: Header): Request
  {
    Request(POST, path, [], UploadForm(file, category, referenceType, referenceId), auth)
  }

  /** The query of `getFiles`: page and size fall back to 0 and 20, the category comes last and
      only when given. */
  function GetFilesQuery(referenceType: ReferenceType, referenceId: int, category: Option<UploadFileCategory>,
                         page: Option<int>, size: Option<int>): seq<(string, string)>
  {
    [("referenceType", ReferenceTypeName(referenceType)),
     ("referenceId", IntToString(referenceId)),
     ("page", IntToString(page.GetOr(DefaultPage))),
     ("size", IntToString(size.GetOr(DefaultPageSize)))]
    + CategoryPair(category)
  }

  /** The query of `getFilesByReference`: the category comes last and only when given. */
  function ByReferenceQuery(referenceType: ReferenceType, referenceId: int, category: Option<UploadFileCategory>)
    : seq<(string, string)>
  {
    [("referenceType", ReferenceTypeName(referenceType)),
     ("referenceId", IntToString(referenceId))]
    + CategoryPair(category)
  }

  function CategoryPair(category: Option<UploadFileCategory>): seq<(string, string)> {
    if category.Some? then [("category", CategoryName(category.value))] else []
  }

  // ---------------------------------------------------------------------------
  // The operations
  // ---------------------------------------------------------------------------

  /** The body both upload operations share: build the form, get the header, POST to `path`. */
  method PostUpload(path: string, file: FileRef, category: UploadFileCategory, referenceType: ReferenceType,
                    referenceId: int, auth: Result<Header, Error>,
                    reply: HttpResponse<ApiResponse<UploadFileResponse>>)
    returns (x: Exchange<ApiResponse<UploadFileResponse>>)
    ensures auth.Err? ==> x == Exchange(None, Err(auth.error))
    ensures auth.Ok? ==> x.result == HandleResponse(reply)
    ensures auth.Ok? ==> x.sent == Some(UploadRequest(path, file, category, referenceType, referenceId, auth.value))
  {
    var formData := new FormData();
    formData.Append("file", FilePart(file));
    formData.Append("category", Text(CategoryName(category)));
    formData.Append("referenceType", Text(ReferenceTypeName(referenceType)));
    formData.Append("referenceId", Text(IntToString(referenceId)));
    assert formData.entries == UploadForm(file, category, referenceType, referenceId);
    match auth
    case Err(e) =>
      x := Exchange(None, Err(e));
    case Ok(authHeader) =>
      x := Exchange(Some(Request(POST, path, [], formData.entries, authHeader)), HandleResponse(reply));
  }

  /** `uploadAttachment`: the upload form, POSTed to `/attachments`. */
  method UploadAttachment(file: FileRef, category: UploadFileCategory, referenceType: ReferenceType,
                          referenceId: int, auth: Result<Header, Error>,
                          reply: HttpResponse<ApiResponse<UploadFileResponse>>)
    returns (x: Exchange<ApiResponse<UploadFileResponse>>)
    ensures auth.Err? ==> x == Exchange(None, Err(auth.error))
    ensures auth.Ok? ==> x.result == HandleResponse(reply)
    ensures auth.Ok? ==> x.sent == Some(UploadRequest("/attachments", file, category, referenceType, referenceId, auth.value))
  {
    x := PostUpload("/attachments", file, category, referenceType, referenceId, auth, reply);
  }

  /** `uploadImage`: the same form, POSTed to `/images`. */
  method UploadImage(file: FileRef, category: UploadFileCategory, referenceType: ReferenceType,
                     referenceId: int, auth: Result<Header, Error>,
                     reply: HttpResponse<ApiResponse<UploadFileResponse>>)
    returns (x: Exchange<ApiResponse<UploadFileResponse>>)
    ensures auth.Err? ==> x == Exchange(None, Err(auth.error))
    ensures auth.Ok? ==> x.result == HandleResponse(reply)
    ensures auth.Ok? ==> x.sent == Some(UploadRequest("/images", file, category, referenceType, referenceId, auth.value))
  {
    x := PostUpload("/images", file, category, referenceType, referenceId, auth, reply);
  }

  method GetFiles(referenceType: ReferenceType, referenceId: int, category: Option<UploadFileCategory>,
                  page: Option<int>, size: Option<int>, auth: Result<Header, Error>,
                  reply: HttpResponse<ApiResponse<PageResponse<UploadFileResponse>>>)
    returns (x: Exchange<ApiResponse<PageResponse<UploadFileResponse>>>)
    ensures auth.Err? ==> x == Exchange(None, Err(auth.error))
    ensures auth.Ok? ==> x.result == HandleResponse(reply)
    ensures auth.Ok? ==> x.sent == Some(Request(GET, "", GetFilesQuery(referenceType, referenceId, category, page, size), [], auth.value))
  {
    var params := new SearchParams([
      ("referenceType", ReferenceTypeName(referenceType)),
      ("referenceId", IntToString(referenceId)),
      ("page", IntToString(page.GetOr(DefaultPage))),
      ("size", IntToString(size.GetOr(DefaultPageSize)))]);
    if category.Some? {
      params.Append("category", CategoryName(category.value));
    }
    assert params.pairs == GetFilesQuery(referenceType, referenceId, category, page, size);
    match auth
    case Err(e) =>
      x := Exchange(None, Err(e));
    case Ok(authHeader) =>
      x := Exchange(Some(Request(GET, "", params.pairs, [], authHeader)), HandleResponse(reply));
  }

  method GetFilesByReference(referenceType: ReferenceType, referenceId: int, category: Option<UploadFileCategory>,
                             auth: Result<Header, Error>,
                             reply: HttpResponse<ApiResponse<seq<UploadFileResponse>>>)
    returns (x: Exchange<ApiResponse<seq<UploadFileResponse>>>)
    ensures auth.Err? ==> x == Exchange(None, Err(auth.error))
    ensures auth.Ok? ==> x.result == HandleResponse(reply)
    ensures auth.Ok? ==> x.sent == Some(Request(GET, "/by-reference", ByReferenceQuery(referenceType, referenceId, category), [], auth.value))
  {
    var params := new SearchParams([
      ("referenceType", ReferenceTypeName(referenceType)),
      ("referenceId", IntToString(referenceId))]);
    if category.Some? {
      params.Append("category", CategoryName(category.value));
    }
    assert params.pairs == ByReferenceQuery(referenceType, referenceId, category);
    match auth
    case Err(e) =>
      x := Exchange(None, Err(e));
    case Ok(authHeader) =>
      x := Exchange(Some(Request(GET, "/by-reference", params.pairs, [], authHeader)), HandleResponse(reply));
  }

  /** `getDownloadUrl`: GET `/{fileId}/download-url?expirationMinutes=…`, 60 minutes by default. */
  function GetDownloadUrl(fileId: int, expirationMinutes: Option<int>, auth: Result<Header, Error>,
                          reply: HttpResponse<ApiResponse<DownloadUrlData>>)
    : (x: Exchange<ApiResponse<DownloadUrlData>>)
    ensures auth.Err? ==> x == Exchange(None, Err(auth.error))
    ensures auth.Ok? ==> x.result == HandleResponse(reply)
    ensures auth.Ok? ==> x.sent == Some(Request(GET, "/" + IntToString(fileId) + "/download-url",
      [("expirationMinutes", IntToString(expirationMinutes.GetOr(DefaultExpirationMinutes)))], [], auth.value))
    ensures auth.Ok? ==> QueryValue(x.sent.value.query, "expirationMinutes")
                         == Some(IntToString(expirationMinutes.GetOr(DefaultExpirationMinutes)))
  {
    match auth
    case Err(e) => Exchange(None, Err(e))
    case Ok(authHeader) =>
      var query := [("expirationMinutes", IntToString(expirationMinutes.GetOr(DefaultExpirationMinutes)))];
      Exchange(Some(Request(GET, "/" + IntToString(fileId) + "/download-url", query, [], authHeader)),
               HandleResponse(reply))
  }

  /** `deleteFile`: DELETE `/{fileId}`; the body of the reply is not read, a reply that is not 2xx
      throws "Failed to delete file" and anything else resolves with nothing. */
  function DeleteFile(fileId: int, auth: Result<Header, Error>, replyOk: bool): (x: Exchange<()>)
    ensures auth.Err? ==> x == Exchange(None, Err(auth.error))
    ensures auth.Ok? ==> x.sent == Some(Request(DELETE, "/" + IntToString(fileId), [], [], auth.value))
    ensures auth.Ok? ==> (x.result.Ok? <==> replyOk)
    ensures auth.Ok? && !replyOk ==> x.result == Err(Error("Failed to delete file"))
  {
    match auth
    case Err(e) => Exchange(None, Err(e))
    case Ok(authHeader) =>
      Exchange(Some(Request(DELETE, "/" + IntToString(fileId), [], [], authHeader)),
               if replyOk then Ok(()) else Err(Error("Failed to delete file")))
  }

  // ---------------------------------------------------------------------------
  // Properties of the requests
  // ---------------------------------------------------------------------------

  /** The two uploads send the same form and differ only in their path. */
  lemma UploadsDifferOnlyInPath(file: FileRef, category: UploadFileCategory, referenceType: ReferenceType,
                                referenceId: int, auth: Header)
    ensures UploadRequest("/attachments", file, category, referenceType, referenceId, auth).(path := "/images")
         == UploadRequest("/images", file, category, referenceType, referenceId, auth)
    ensures Names(UploadForm(file, category, referenceType, referenceId))
         == ["file", "category", "referenceType", "referenceId"]
  {
  }

  /** The server can read every argument of an upload back from its form: the reference id is
      its decimal text and the category its wire name. */
  lemma UploadFormRoundTrip(file: FileRef, category: UploadFileCategory, referenceType: ReferenceType, referenceId: int)
    ensures var form := UploadForm(file, category, referenceType, referenceId);
      && form[0].1 == FilePart(file)
      && form[1].1.Text? && (forall c :: CategoryName(c) == form[1].1.text ==> c == category)
      && form[2].1.Text? && (forall r :: ReferenceTypeName(r) == form[2].1.text ==> r == referenceType)
      && form[3].1.Text? && ParseInt(form[3].1.text) == referenceId
  {
    CategoriesEnumerated();
    SmallEnumerationsEnumerated();
    IntToStringRoundTrip(referenceId);
  }

  /** An integer written as the value of a query pair reads back from the first pair with its name. */
  lemma IntReadsBack(q: seq<(string, string)>, key: string, i: nat, n: int)
    requires i < |q| && q[i] == (key, IntToString(n))
    requires forall j :: 0 <= j < i ==> q[j].0 != key
    ensures QueryValue(q, key).Some? && ParseInt(QueryValue(q, key).value) == n
  {
    QueryValueFindsFirst(q, key, i);
    IntToStringRoundTrip(n);
  }

  /** `getFiles` sends referenceType, referenceId, page, size in that order and then the category
      only when given; a missing page or size reads back as 0 or 20. */
  lemma GetFilesQueryShape(referenceType: ReferenceType, referenceId: int, category: Option<UploadFileCategory>,
                           page: Option<int>, size: Option<int>)
    ensures var q := GetFilesQuery(referenceType, referenceId, category, page, size);
      && Names(q) == ["referenceType", "referenceId", "page", "size"] + (if category.Some? then ["category"] else [])
      && QueryValue(q, "referenceType") == Some(ReferenceTypeName(referenceType))
      && QueryValue(q, "referenceId").Some? && ParseInt(QueryValue(q, "referenceId").value) == referenceId
      && QueryValue(q, "page").Some? && ParseInt(QueryValue(q, "page").value) == page.GetOr(DefaultPage)
      && QueryValue(q, "size").Some? && ParseInt(QueryValue(q, "size").value) == size.GetOr(DefaultPageSize)
      && QueryValue(q, "category") == (if category.Some? then Some(CategoryName(category.value)) else None)
  {
    var q := GetFilesQuery(referenceType, referenceId, category, page, size);
    QueryValueFindsFirst(q, "referenceType", 0);
    IntReadsBack(q, "referenceId", 1, referenceId);
    IntReadsBack(q, "page", 2, page.GetOr(DefaultPage));
    IntReadsBack(q, "size", 3, size.GetOr(DefaultPageSize));
    if category.Some? {
      QueryValueFindsFirst(q, "category", 4);
    } else {
      QueryValueAbsent(q, "category");
    }
  }

  /** `getFilesByReference` sends referenceType and referenceId, then the category only when given. */
  lemma ByReferenceQueryShape(referenceType: ReferenceType, referenceId: int, category: Option<UploadFileCategory>)
    ensures var q := ByReferenceQuery(referenceType, referenceId, category);
      && Names(q) == ["referenceType", "referenceId"] + (if category.Some? then ["category"] else [])
      && QueryValue(q, "referenceType") == Some(ReferenceTypeName(referenceType))
      && QueryValue(q, "referenceId").Some? && ParseInt(QueryValue(q, "referenceId").value) == referenceId
      && QueryValue(q, "category") == (if category.Some? then Some(CategoryName(category.value)) else None)
  {
    var q := ByReferenceQuery(referenceType, referenceId, category);
    QueryValueFindsFirst(q, "referenceType", 0);
    IntReadsBack(q, "referenceId", 1, referenceId);
    if category.Some? {
      QueryValueFindsFirst(q, "category", 2);
    } else {
      QueryValueAbsent(q, "category");
    }
  }

  /** The reply `{ message: "quota exceeded" }` with a failing status throws exactly that message;
      a failing status with a body that is not JSON throws the generic fallback. */
  lemma ServerMessageSurfaced<T>(value: T, syntaxMessage: string)
    ensures HandleResponse(HttpResponse(false, Parsed(value, Some("quota exceeded"))))
         == Err(Error("quota exceeded"))
    ensures var resp: HttpResponse<T> := HttpResponse(false, Unparseable(syntaxMessage));
      HandleResponse(resp) == Err(Error("Unknown error"))
  {
  }
}
