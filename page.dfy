/** The file-upload page: the reference and tab selection, the two category lists, the list of
    files shown, and the state changes of fetching, deleting and switching tabs.

    A fetch is split at its `await`: `FetchFiles` is the start (loading is set, and the reference
    and tab the callback was created with are captured), and `FinishFetch` is the rest, given the
    header and the reply of the `getFilesByReference` call it makes. */
module FileUploadPage {
  import opened Wrappers
  import opened Http
  import opened FileTypes
  import FileApi
  import UploadWidget

  /** `imageCategories`, in the order the category selector shows them. */
  const ImageCategories: seq<UploadFileCategory> :=
    [STORE_IMAGE, MENU_IMAGE, ORGANIZATION_LOGO_EXPANDED, ORGANIZATION_LOGO_COLLAPSED, ETC_IMAGE]

  /** `attachmentCategories`, in the order the category selector shows them. */
  const AttachmentCategories: seq<UploadFileCategory> :=
    [STORE_RENT_CONTRACT, BUSINESS_REGISTRATION, BUSINESS_LICENSE, STORE_FLOOR_PLAN, ETC_ATTACHMENT]

  /** The two lists are duplicate-free, disjoint, and together hold all ten categories; the image
      list holds exactly the categories the upload routing sends to the image endpoint. */
  lemma CategoryListsPartition()
    ensures |ImageCategories| == 5 && Distinct(ImageCategories)
    ensures |AttachmentCategories| == 5 && Distinct(AttachmentCategories)
    ensures forall c: UploadFileCategory :: c in ImageCategories <==> c !in AttachmentCategories
    ensures forall c: UploadFileCategory :: c in ImageCategories <==> UploadWidget.IsImageCategory(c)
  {
    CategoriesEnumerated();
    forall c: UploadFileCategory
      ensures c in ImageCategories <==> c !in AttachmentCategories
      ensures c in ImageCategories <==> UploadWidget.IsImageCategory(c)
    {
      UploadWidget.RoutingMatchesDeclaration(c);
      assert c in ImageCategories <==> c in DeclaredImageCategories;
      assert c in AttachmentCategories <==> c in DeclaredAttachmentCategories;
    }
  }

  /** `currentCategories`: the categories offered on a tab are exactly those whose uploads go to
      the endpoint of that tab's file type. */
  function CurrentCategories(tab: UploadFileType): (cs: seq<UploadFileCategory>)
    ensures tab == IMAGE ==> cs == ImageCategories
    ensures tab == ATTACHMENT ==> cs == AttachmentCategories
    ensures forall c :: c in cs <==> (UploadWidget.IsImageCategory(c) <==> tab == IMAGE)
  {
    CategoryListsPartition();
    if tab == IMAGE then ImageCategories else AttachmentCategories
  }

  /** The tab effect: a category that is not offered on the new tab is reset to the tab's first
      category, and one that is offered is kept. */
  function NormalizeCategory(tab: UploadFileType, c: UploadFileCategory): (r: UploadFileCategory)
    ensures r in CurrentCategories(tab)
    ensures c in CurrentCategories(tab) ==> r == c
    ensures c !in CurrentCategories(tab) ==> r == (if tab == IMAGE then STORE_IMAGE else STORE_RENT_CONTRACT)
  {
    if tab == IMAGE && c !in ImageCategories then STORE_IMAGE
    else if tab == ATTACHMENT && c !in AttachmentCategories then STORE_RENT_CONTRACT
    else c
  }

  // ---------------------------------------------------------------------------
  // Array.prototype.filter and the two filters of the page
  // ---------------------------------------------------------------------------

  /** The elements of `s` that `keep` accepts, in their order. */
  function Filter<T>(s: seq<T>, keep: T -> bool): seq<T>
    decreases |s|
  {
    if s == [] then [] else (if keep(s[0]) then [s[0]] else []) + Filter(s[1..], keep)
  }

  /** An element survives the filter exactly when it was there and is accepted; none is added. */
  lemma {:induction false} FilterMembers<T>(s: seq<T>, keep: T -> bool)
    ensures |Filter(s, keep)| <= |s|
    ensures forall x :: x in Filter(s, keep) <==> x in s && keep(x)
    decreases |s|
  {
    if s != [] {
      FilterMembers(s[1..], keep);
      assert forall x :: x in s <==> x == s[0] || x in s[1..];
    }
  }

  /** Filtering keeps the order: filtering a concatenation concatenates the filtered parts. Together
      with the one-element case this determines the filter. */
  lemma {:induction false} FilterAppend<T>(a: seq<T>, b: seq<T>, keep: T -> bool)
    ensures Filter(a + b, keep) == Filter(a, keep) + Filter(b, keep)
    decreases |a|
  {
    if a == [] {
      assert a + b == b;
    } else {
      assert (a + b)[0] == a[0] && (a + b)[1..] == a[1..] + b;
      FilterAppend(a[1..], b, keep);
    }
  }

  lemma FilterSingleton<T>(x: T, keep: T -> bool)
    ensures Filter([x], keep) == if keep(x) then [x] else []
  {
    assert [x][1..] == [];
  }

  /** A filter that accepts every element changes nothing. */
  lemma {:induction false} FilterKeepsAll<T>(s: seq<T>, keep: T -> bool)
    requires forall i :: 0 <= i < |s| ==> keep(s[i])
    ensures Filter(s, keep) == s
    decreases |s|
  {
    if s != [] {
      FilterKeepsAll(s[1..], keep);
    }
  }

  /** The test of the tab filter. */
  function HasType(tab: UploadFileType): UploadFileResponse -> bool {
    (f: UploadFileResponse) => f.uploadFileType == tab
  }

  /** The test of the delete filter. */
  function OtherId(fileId: int): UploadFileResponse -> bool {
    (f: UploadFileResponse) => f.id != fileId
  }

  /** The tab filter of a fetch: the records of the tab's file type, in the order returned. */
  function FilesOfType(records: seq<UploadFileResponse>, tab: UploadFileType): (r: seq<UploadFileResponse>)
    ensures forall f :: f in r <==> f in records && f.uploadFileType == tab
    ensures |r| <= |records|
  {
    FilterMembers(records, HasType(tab));
    Filter(records, HasType(tab))
  }

  /** The delete filter: every record with the id is removed and all others are kept in order. */
  function WithoutId(records: seq<UploadFileResponse>, fileId: int): (r: seq<UploadFileResponse>)
    ensures forall f :: f in r <==> f in records && f.id != fileId
    ensures (forall i :: 0 <= i < |records| ==> records[i].id != fileId) ==> r == records
  {
    FilterMembers(records, OtherId(fileId));
    if forall i :: 0 <= i < |records| ==> records[i].id != fileId then
      FilterKeepsAll(records, OtherId(fileId));
      Filter(records, OtherId(fileId))
    else
      Filter(records, OtherId(fileId))
  }

  /** The same filters keep the order of what they keep. */
  lemma FilesOfTypeAppend(a: seq<UploadFileResponse>, b: seq<UploadFileResponse>, tab: UploadFileType)
    ensures FilesOfType(a + b, tab) == FilesOfType(a, tab) + FilesOfType(b, tab)
  {
    FilterAppend(a, b, HasType(tab));
  }

  lemma WithoutIdAppend(a: seq<UploadFileResponse>, b: seq<UploadFileResponse>, fileId: int)
    ensures WithoutId(a + b, fileId) == WithoutId(a, fileId) + WithoutId(b, fileId)
  {
    FilterAppend(a, b, OtherId(fileId));
  }

  /** The service guarantees that a record is typed IMAGE exactly when its category is an image
      category; the client does not check it. */
  predicate ConsistentRecord(f: UploadFileResponse) {
    f.uploadFileType == IMAGE <==> UploadWidget.IsImageCategory(f.uploadFileCategory)
  }

  /** For records the service keeps consistent, the files shown on a tab are exactly the fetched
      records whose category is offered on that tab. */
  lemma TabShowsItsCategories(records: seq<UploadFileResponse>, tab: UploadFileType)
    requires forall i :: 0 <= i < |records| ==> ConsistentRecord(records[i])
    ensures forall f :: f in FilesOfType(records, tab) <==> f in records && f.uploadFileCategory in CurrentCategories(tab)
  {
  }

  // ---------------------------------------------------------------------------
  // The page state
  // ---------------------------------------------------------------------------

  /** What a started fetch captured: the reference and tab of the callback it runs in. */
  datatype PendingFetch = PendingFetch(referenceType: ReferenceType, referenceId: int, tab: UploadFileType)

  class Page {
    var referenceType: ReferenceType
    var referenceId: int
    var activeTab: UploadFileType
    var selectedCategory: UploadFileCategory
    var files: seq<UploadFileResponse>
    var isLoading: bool

    /** The selected category is always one the current tab offers. */
    ghost predicate Valid()
      reads this
    {
      selectedCategory in CurrentCategories(activeTab)
    }

    constructor ()
      ensures Valid()
      ensures referenceType == STORE && referenceId == 1 && activeTab == IMAGE && selectedCategory == STORE_IMAGE
      ensures files == [] && !isLoading
    {
      referenceType, referenceId := STORE, 1;
      activeTab, selectedCategory := IMAGE, STORE_IMAGE;
      files, isLoading := [], false;
    }

    /** The start of `fetchFiles`. */
    method FetchFiles() returns (pending: PendingFetch)
      modifies this
      ensures isLoading
      ensures pending == PendingFetch(referenceType, referenceId, activeTab)
      ensures referenceType == old(referenceType) && referenceId == old(referenceId)
      ensures activeTab == old(activeTab) && selectedCategory == old(selectedCategory) && files == old(files)
    {
      isLoading := true;
      pending := PendingFetch(referenceType, referenceId, activeTab);
    }

    /** The rest of `fetchFiles`: it lists the captured reference without a category, shows the
        records of the captured tab when the call resolves with `success`, leaves the list alone
        otherwise (a thrown error is only logged), and stops loading in every case. */
    method FinishFetch(pending: PendingFetch, auth: Result<Header, Error>,
                       reply: HttpResponse<ApiResponse<seq<UploadFileResponse>>>)
      returns (sent: Option<FileApi.Request>)
      modifies this
      ensures !isLoading
      ensures auth.Ok? ==> sent == Some(FileApi.Request(FileApi.GET, "/by-reference",
        FileApi.ByReferenceQuery(pending.referenceType, pending.referenceId, None), [], auth.value))
      ensures auth.Err? ==> sent.None? && files == old(files)
      ensures var outcome := FileApi.HandleResponse(reply);
        auth.Ok? ==> files == if outcome.Ok? && outcome.value.success
                              then FilesOfType(outcome.value.data, pending.tab)
                              else old(files)
      ensures referenceType == old(referenceType) && referenceId == old(referenceId)
      ensures activeTab == old(activeTab) && selectedCategory == old(selectedCategory)
    {
      var x := FileApi.GetFilesByReference(pending.referenceType, pending.referenceId, None, auth, reply);
      sent := x.sent;
      if x.result.Ok? && x.result.value.success {
        files := FilesOfType(x.result.value.data, pending.tab);
      }
      isLoading := false;
    }

    /** `handleDelete`, called by an item after the service deleted the file. */
    method HandleDelete(fileId: int)
      modifies this
      ensures files == WithoutId(old(files), fileId)
      ensures referenceType == old(referenceType) && referenceId == old(referenceId)
      ensures activeTab == old(activeTab) && selectedCategory == old(selectedCategory)
      ensures isLoading == old(isLoading)
    {
      files := WithoutId(files, fileId);
    }

    /** A tab button, followed by the tab effect that normalises the category. */
    method SetActiveTab(tab: UploadFileType)
      requires Valid()
      modifies this
      ensures Valid()
      ensures activeTab == tab && selectedCategory == NormalizeCategory(tab, old(selectedCategory))
      ensures referenceType == old(referenceType) && referenceId == old(referenceId)
      ensures files == old(files) && isLoading == old(isLoading)
    {
      activeTab := tab;
      if activeTab == IMAGE && selectedCategory !in ImageCategories {
        selectedCategory := STORE_IMAGE;
      } else if activeTab == ATTACHMENT && selectedCategory !in AttachmentCategories {
        selectedCategory := STORE_RENT_CONTRACT;
      }
    }

    /** The category selector, whose options are the current tab's categories. */
    method SelectCategory(c: UploadFileCategory)
      requires Valid() && c in CurrentCategories(activeTab)
      modifies this
      ensures Valid() && selectedCategory == c
      ensures referenceType == old(referenceType) && referenceId == old(referenceId)
      ensures activeTab == old(activeTab) && files == old(files) && isLoading == old(isLoading)
    {
      selectedCategory := c;
    }

    method SetReferenceType(r: ReferenceType)
      requires Valid()
      modifies this
      ensures Valid() && referenceType == r
      ensures referenceId == old(referenceId) && activeTab == old(activeTab)
      ensures selectedCategory == old(selectedCategory) && files == old(files) && isLoading == old(isLoading)
    {
      referenceType := r;
    }

    method SetReferenceId(id: int)
      requires Valid()
      modifies this
      ensures Valid() && referenceId == id
      ensures referenceType == old(referenceType) && activeTab == old(activeTab)
      ensures selectedCategory == old(selectedCategory) && files == old(files) && isLoading == old(isLoading)
    {
      referenceId := id;
    }
  }

  /** Fetches are not ordered: if the fetch started on the IMAGE tab settles after the one started
      on the ATTACHMENT tab, the ATTACHMENT tab ends up showing image records. */
  method OutOfOrderFetches(image: UploadFileResponse, attachment: UploadFileResponse, auth: Header)
    returns (tab: UploadFileType, shown: seq<UploadFileResponse>)
    requires image.uploadFileType == IMAGE && attachment.uploadFileType == ATTACHMENT
    ensures tab == ATTACHMENT && shown == [image]
  {
    var page := new Page();
    var first := page.FetchFiles();
    page.SetActiveTab(ATTACHMENT);
    var second := page.FetchFiles();
    var envelope := ApiResponse(true, [image, attachment], "", "");
    var reply := HttpResponse(true, Parsed(envelope, Some("")));
    var _ := page.FinishFetch(second, Ok(auth), reply);
    assert page.files == [attachment] by {
      FilterSingleton(image, HasType(ATTACHMENT));
      FilterSingleton(attachment, HasType(ATTACHMENT));
      FilterAppend([image], [attachment], HasType(ATTACHMENT));
    }
    var _ := page.FinishFetch(first, Ok(auth), reply);
    assert page.files == [image] by {
      FilterSingleton(image, HasType(IMAGE));
      FilterSingleton(attachment, HasType(IMAGE));
      FilterAppend([image], [attachment], HasType(IMAGE));
    }
    tab, shown := page.activeTab, page.files;
  }
}
