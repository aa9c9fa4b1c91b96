/** The shared types of the file-upload client: the three string enumerations and the record
    and envelope shapes returned by the file service. */
module FileTypes {
  import opened Wrappers

  /** `UploadFileType`: "IMAGE" | "ATTACHMENT". */
  datatype UploadFileType = IMAGE | ATTACHMENT

  /** `UploadFileCategory`: five attachment categories followed by five image categories. */
  datatype UploadFileCategory =
    // attachment categories
    | STORE_RENT_CONTRACT
    | BUSINESS_REGISTRATION
    | BUSINESS_LICENSE
    | STORE_FLOOR_PLAN
    | ETC_ATTACHMENT
    // image categories
    | MENU_IMAGE
    | ORGANIZATION_LOGO_EXPANDED
    | ORGANIZATION_LOGO_COLLAPSED
    | STORE_IMAGE
    | ETC_IMAGE

  /** `ReferenceType`: the kind of business entity a file belongs to. */
  datatype ReferenceType = STORE | MENU | ORGANIZATION | MEMBER

  /** `UploadFileResponse`: one stored file. Every field is required; only `publicUrl` may be null. */
  datatype UploadFileResponse = UploadFileResponse(
    id: int,
    originalFileName: string,
    storedFileName: string,
    fileSize: int,
    contentType: string,
    fileExtension: string,
    uploadFileType: UploadFileType,
    uploadFileCategory: UploadFileCategory,
    referenceType: ReferenceType,
    referenceId: int,
    isPublic: bool,
    publicUrl: Option<string>,
    createdAt: string)

  /** `ApiResponse<T>`: the envelope every endpoint answers with. */
  datatype ApiResponse<T> = ApiResponse(success: bool, data: T, message: string, timestamp: string)

  /** `PageResponse<T>`: one page of a paginated listing. */
  datatype PageResponse<T> = PageResponse(
    content: seq<T>,
    page: int,
    size: int,
    totalElements: int,
    totalPages: int,
    first: bool,
    last: bool)

  // ---------------------------------------------------------------------------
  // The wire names of the enumerations
  // ---------------------------------------------------------------------------

  function FileTypeName(t: UploadFileType): string {
    match t
    case IMAGE => "IMAGE"
    case ATTACHMENT => "ATTACHMENT"
  }

  function CategoryName(c: UploadFileCategory): string {
    match c
    case STORE_RENT_CONTRACT => "STORE_RENT_CONTRACT"
    case BUSINESS_REGISTRATION => "BUSINESS_REGISTRATION"
    case BUSINESS_LICENSE => "BUSINESS_LICENSE"
    case STORE_FLOOR_PLAN => "STORE_FLOOR_PLAN"
    case ETC_ATTACHMENT => "ETC_ATTACHMENT"
    case MENU_IMAGE => "MENU_IMAGE"
    case ORGANIZATION_LOGO_EXPANDED => "ORGANIZATION_LOGO_EXPANDED"
    case ORGANIZATION_LOGO_COLLAPSED => "ORGANIZATION_LOGO_COLLAPSED"
    case STORE_IMAGE => "STORE_IMAGE"
    case ETC_IMAGE => "ETC_IMAGE"
  }

  function ReferenceTypeName(r: ReferenceType): string {
    match r
    case STORE => "STORE"
    case MENU => "MENU"
    case ORGANIZATION => "ORGANIZATION"
    case MEMBER => "MEMBER"
  }

  // ---------------------------------------------------------------------------
  // The enumerations listed out
  // ---------------------------------------------------------------------------

  const AllFileTypes: seq<UploadFileType> := [IMAGE, ATTACHMENT]

  const AllCategories: seq<UploadFileCategory> := [
    STORE_RENT_CONTRACT, BUSINESS_REGISTRATION, BUSINESS_LICENSE, STORE_FLOOR_PLAN, ETC_ATTACHMENT,
    MENU_IMAGE, ORGANIZATION_LOGO_EXPANDED, ORGANIZATION_LOGO_COLLAPSED, STORE_IMAGE, ETC_IMAGE]

  const AllReferenceTypes: seq<ReferenceType> := [STORE, MENU, ORGANIZATION, MEMBER]

  /** The five categories the type declaration lists under its "Image Categories" comment. */
  const DeclaredImageCategories: seq<UploadFileCategory> :=
    [MENU_IMAGE, ORGANIZATION_LOGO_EXPANDED, ORGANIZATION_LOGO_COLLAPSED, STORE_IMAGE, ETC_IMAGE]

  /** The five categories the type declaration lists under its "Attachment Categories" comment. */
  const DeclaredAttachmentCategories: seq<UploadFileCategory> :=
    [STORE_RENT_CONTRACT, BUSINESS_REGISTRATION, BUSINESS_LICENSE, STORE_FLOOR_PLAN, ETC_ATTACHMENT]

  predicate Distinct<T(==)>(s: seq<T>) {
    forall i, j :: 0 <= i < j < |s| ==> s[i] != s[j]
  }

  /** The position of a category in the declaration order. */
  function CategoryIndex(c: UploadFileCategory): (i: nat)
    ensures i < |AllCategories| && AllCategories[i] == c
  {
    match c
    case STORE_RENT_CONTRACT => 0
    case BUSINESS_REGISTRATION => 1
    case BUSINESS_LICENSE => 2
    case STORE_FLOOR_PLAN => 3
    case ETC_ATTACHMENT => 4
    case MENU_IMAGE => 5
    case ORGANIZATION_LOGO_EXPANDED => 6
    case ORGANIZATION_LOGO_COLLAPSED => 7
    case STORE_IMAGE => 8
    case ETC_IMAGE => 9
  }

  /** `UploadFileCategory` has exactly ten distinct values with ten distinct names: five declared
      as attachment categories and five as image categories. */
  lemma CategoriesEnumerated()
    ensures |AllCategories| == 10 && Distinct(AllCategories)
    ensures forall c: UploadFileCategory :: c in AllCategories
    ensures forall c: UploadFileCategory :: c in DeclaredImageCategories <==> c !in DeclaredAttachmentCategories
    ensures AllCategories == DeclaredAttachmentCategories + DeclaredImageCategories
    ensures forall c, d :: CategoryName(c) == CategoryName(d) ==> c == d
  {
    forall c: UploadFileCategory
      ensures c in AllCategories
      ensures c in DeclaredImageCategories <==> c !in DeclaredAttachmentCategories
    {
      var i := CategoryIndex(c);
      if i < 5 {
        assert DeclaredAttachmentCategories[i] == c;
      } else {
        assert DeclaredImageCategories[i - 5] == c;
      }
    }
  }

  /** `ReferenceType` has exactly four values and `UploadFileType` exactly two, each with its own name. */
  lemma SmallEnumerationsEnumerated()
    ensures |AllReferenceTypes| == 4 && Distinct(AllReferenceTypes)
    ensures forall r: ReferenceType :: r in AllReferenceTypes
    ensures forall r, s :: ReferenceTypeName(r) == ReferenceTypeName(s) ==> r == s
    ensures |AllFileTypes| == 2 && Distinct(AllFileTypes)
    ensures forall t: UploadFileType :: t in AllFileTypes
    ensures FileTypeName(IMAGE) != FileTypeName(ATTACHMENT)
  {
    forall r: ReferenceType ensures r in AllReferenceTypes {
      assert r.STORE? || r.MENU? || r.ORGANIZATION? || r.MEMBER?;
    }
    forall t: UploadFileType ensures t in AllFileTypes {
      assert t.IMAGE? || t.ATTACHMENT?;
    }
  }
}
