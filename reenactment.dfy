/** ReenactmentService: categories and content blocks of the reenactment page,
    the grouped listing, and the create/update/delete rules. */
module Reenactment {
  import opened Common
  import opened S3Url

  /** A stored ReenactmentCategory row. */
  datatype CategoryData = CategoryData(
    id: Uuid, code: string, nameDe: Option<string>, nameEn: Option<string>, nameFr: Option<string>, sortOrder: int)

  /** A stored Block row; `image` is an object key, not a URL. */
  datatype BlockData = BlockData(
    id: Uuid, title: Option<string>, text: Option<string>, image: Option<string>,
    categoryId: Option<Uuid>, sortOrder: int)

  /** CategoryCreateRequest, used by both create and update. */
  datatype CategoryRequest = CategoryRequest(
    code: string, nameDe: Option<string>, nameEn: Option<string>, nameFr: Option<string>, sortOrder: Option<int>)

  datatype BlockRequest = BlockRequest(
    title: Option<string>, text: Option<string>, categoryId: Option<Uuid>, sortOrder: Option<int>, image: Option<string>)

  /** The exceptions the service throws. */
  datatype ServiceError = IllegalArgument(message: string) | NotFound(message: string)

  /** Repository side effects whose order the service fixes. */
  datatype Deletion = PhotosOf(ownerId: Uuid) | BlockRow(blockId: Uuid) | CategoryRow(categoryId: Uuid)

  datatype Names = Names(de: Option<string>, en: Option<string>, fr: Option<string>)

  /** BlockListResponse */
  datatype BlockListItem = BlockListItem(
    id: Uuid, title: Option<string>, imageUrl: Option<string>, categoryId: Option<Uuid>,
    categoryCode: Option<string>, sortOrder: int)

  /** BlocksByCategoryResponse */
  datatype BlockGroup = BlockGroup(
    id: Option<Uuid>, code: string, names: Names, sortOrder: int, blocks: seq<BlockListItem>)

  const CategoryNotFound := "Category not found"
  const BlockNotFound := "Block not found"
  const OtherCode := "other"
  const OtherNames := Names(Some("Sonstige"), Some("Other"), Some("Autre"))
  const OtherSortOrder := 999

  function DuplicateCodeMessage(code: string): string
  {
    "Category with code " + code + " already exists"
  }

  function OrElse<T>(update: Option<T>, current: T): T
  {
    if update.Some? then update.value else current
  }

  // ---------------------------------------------------------------------------
  // Category codes

  /** The characters Java's regular-expression class \s matches. */
  predicate IsRegexSpace(c: char)
  {
    c == ' ' || c == '\t' || c == '\n' || c == '\U{0B}' || c == '\U{0C}' || c == '\r'
  }

  function LeadingSpaces(s: string): (n: nat)
    ensures n <= |s|
  {
    if s == [] || !IsRegexSpace(s[0]) then 0 else 1 + LeadingSpaces(s[1..])
  }

  /** The count covers exactly the run of \s characters at the start. */
  lemma {:induction false} LeadingSpacesSpan(s: string)
    ensures var n := LeadingSpaces(s);
      && (forall k :: 0 <= k < n ==> IsRegexSpace(s[k]))
      && (n < |s| ==> !IsRegexSpace(s[n]))
    decreases |s|
  {
    if s != [] && IsRegexSpace(s[0]) {
      LeadingSpacesSpan(s[1..]);
      assert forall k :: 1 <= k < |s| ==> s[k] == s[1..][k - 1];
    }
  }

  /** `replaceAll("\\s+", "_")`: each maximal run of \s characters becomes one '_'. */
  function CollapseSpaceRuns(s: string): (r: string)
    ensures |r| <= |s|
    decreases |s|
  {
    if s == [] then []
    else if IsRegexSpace(s[0]) then "_" + CollapseSpaceRuns(s[LeadingSpaces(s)..])
    else [s[0]] + CollapseSpaceRuns(s[1..])
  }

  /** The rest of the input once the first character, or the first run of \s, is consumed. */
  function CollapseRest(s: string): (rest: string)
    requires s != []
    ensures |rest| < |s|
  {
    if IsRegexSpace(s[0]) then s[LeadingSpaces(s)..] else s[1..]
  }

  /** One step of the collapse: a '_' for a run of \s, or the character itself. */
  lemma CollapseStep(s: string)
    requires s != []
    ensures CollapseSpaceRuns(s) == [if IsRegexSpace(s[0]) then '_' else s[0]] + CollapseSpaceRuns(CollapseRest(s))
    ensures forall c :: c in CollapseRest(s) ==> c in s
  {
  }

  /** The result has no \s character left. */
  lemma {:induction false} CollapseHasNoSpaces(s: string)
    ensures forall k :: 0 <= k < |CollapseSpaceRuns(s)| ==> !IsRegexSpace(CollapseSpaceRuns(s)[k])
    decreases |s|
  {
    if s != [] {
      CollapseStep(s);
      CollapseHasNoSpaces(CollapseRest(s));
    }
  }

  /** Every character of the result is a '_' or a character of the input. */
  lemma {:induction false} CollapseKeepsCharacters(s: string)
    ensures forall k :: 0 <= k < |CollapseSpaceRuns(s)| ==> CollapseSpaceRuns(s)[k] == '_' || CollapseSpaceRuns(s)[k] in s
    decreases |s|
  {
    if s != [] {
      CollapseStep(s);
      CollapseKeepsCharacters(CollapseRest(s));
    }
  }

  /** A last character that is not \s is the result's last character. */
  lemma {:induction false} CollapseKeepsLast(s: string)
    requires s != [] && !IsRegexSpace(s[|s| - 1])
    ensures CollapseSpaceRuns(s) != [] && CollapseSpaceRuns(s)[|CollapseSpaceRuns(s)| - 1] == s[|s| - 1]
    decreases |s|
  {
    CollapseStep(s);
    var rest := CollapseRest(s);
    if rest != [] {
      assert rest[|rest| - 1] == s[|s| - 1];
      CollapseKeepsLast(rest);
    } else if IsRegexSpace(s[0]) {
      LeadingSpacesSpan(s);
    }
  }

  /** A string without \s characters is left as it is. */
  lemma {:induction false} CollapseWithoutSpaces(s: string)
    requires forall k :: 0 <= k < |s| ==> !IsRegexSpace(s[k])
    ensures CollapseSpaceRuns(s) == s
    decreases |s|
  {
    if s != [] {
      CollapseWithoutSpaces(s[1..]);
    }
  }

  /** Lower-casing a trimmed string keeps its ends free of trimmable characters. */
  lemma LowerTrimmedEnds(code: string)
    ensures var lower := ToLowerAscii(Trim(code));
      && (forall c :: c in lower ==> !IsAsciiUpper(c))
      && (lower == [] <==> forall k :: 0 <= k < |code| ==> IsTrimmable(code[k]))
      && (lower != [] ==> !IsTrimmable(lower[0]) && !IsTrimmable(lower[|lower| - 1]))
  {
    TrimProperties(code);
    ToLowerAsciiChars(Trim(code));
  }

  /** The stored code: `code.trim().toLowerCase().replaceAll("\\s+", "_")`. */
  function NormalizeCode(code: string): string
  {
    CollapseSpaceRuns(ToLowerAscii(Trim(code)))
  }

  /** A stored code has no whitespace and no upper-case ASCII letter, is empty exactly
      when the request code is empty after trim (every character at most U+0020), and
      neither starts nor ends with what trim removes. */
  lemma NormalizeCodeProperties(code: string)
    ensures var r := NormalizeCode(code);
      && (forall k :: 0 <= k < |r| ==> !IsRegexSpace(r[k]) && !IsAsciiUpper(r[k]))
      && (r == [] <==> forall k :: 0 <= k < |code| ==> IsTrimmable(code[k]))
      && (r != [] ==> !IsTrimmable(r[0]) && !IsTrimmable(r[|r| - 1]))
  {
    LowerTrimmedEnds(code);
    var lower := ToLowerAscii(Trim(code));
    CollapseHasNoSpaces(lower);
    CollapseKeepsCharacters(lower);
    if lower != [] {
      CollapseKeepsLast(lower);
    }
  }

  /** Normalising a stored code again changes nothing. */
  lemma NormalizeCodeIdempotent(code: string)
    ensures NormalizeCode(NormalizeCode(code)) == NormalizeCode(code)
  {
    var n := NormalizeCode(code);
    NormalizeCodeProperties(code);
    if n != [] {
      assert LeadingTrimmable(n) == 0 && TrailingTrimmable(n) == 0;
    }
    assert Trim(n) == n;
    ToLowerAsciiChars(n);
    assert ToLowerAscii(n) == n;
    CollapseWithoutSpaces(n);
  }

  // ---------------------------------------------------------------------------
  // Grouped listing

  /** The key the blocks are grouped under: the category id, or the all-zero UUID for none. */
  function GroupKey(b: BlockData): Uuid
  {
    if b.categoryId.Some? then b.categoryId.value else NilUuid
  }

  /** The blocks filed under `key`, in their listing order. */
  function BlocksWithKey(blocks: seq<BlockData>, key: Uuid): (r: seq<BlockData>)
    ensures |r| <= |blocks|
    ensures forall b :: b in r <==> b in blocks && GroupKey(b) == key
  {
    if blocks == [] then []
    else (if GroupKey(blocks[0]) == key then [blocks[0]] else []) + BlocksWithKey(blocks[1..], key)
  }

  /** Filtering distributes over concatenation: a group keeps the listing order. */
  lemma {:induction false} BlocksWithKeyAppend(xs: seq<BlockData>, ys: seq<BlockData>, key: Uuid)
    ensures BlocksWithKey(xs + ys, key) == BlocksWithKey(xs, key) + BlocksWithKey(ys, key)
  {
    if xs != [] {
      assert (xs + ys)[1..] == xs[1..] + ys;
      BlocksWithKeyAppend(xs[1..], ys, key);
    } else {
      assert xs + ys == ys;
    }
  }

  /** categoryRepository.findById over the listed categories. */
  function FindCategory(categories: seq<CategoryData>, id: Uuid): (r: Option<CategoryData>)
    ensures r.Some? ==> r.value in categories && r.value.id == id
    ensures r.None? ==> forall c :: c in categories ==> c.id != id
  {
    if categories == [] then None
    else if categories[0].id == id then Some(categories[0])
    else FindCategory(categories[1..], id)
  }

  /** toBlockListResponse: the code is looked up through the block's category id, and is
      null for a block without a category or with a category that is not listed. */
  function ToListItem(b: BlockData, categories: seq<CategoryData>, s3: S3Settings): (r: BlockListItem)
    ensures r.id == b.id && r.title == b.title && r.categoryId == b.categoryId && r.sortOrder == b.sortOrder
    ensures r.imageUrl == PublicUrl(s3, b.image)
    ensures r.categoryCode.Some? <==> b.categoryId.Some? && exists c :: c in categories && c.id == b.categoryId.value
    ensures r.categoryCode.Some? ==>
      exists c :: c in categories && c.id == b.categoryId.value && c.code == r.categoryCode.value
  {
    var cat := if b.categoryId.Some? then FindCategory(categories, b.categoryId.value) else None;
    BlockListItem(b.id, b.title, PublicUrl(s3, b.image), b.categoryId,
                  if cat.Some? then Some(cat.value.code) else None, b.sortOrder)
  }

  function ToListItems(blocks: seq<BlockData>, categories: seq<CategoryData>, s3: S3Settings): (r: seq<BlockListItem>)
    ensures |r| == |blocks|
    ensures forall k :: 0 <= k < |blocks| ==> r[k] == ToListItem(blocks[k], categories, s3)
  {
    seq(|blocks|, k requires 0 <= k < |blocks| => ToListItem(blocks[k], categories, s3))
  }

  /** The blocks group `i` is built from: category `i`'s, or the uncategorised ones after the last category. */
  function GroupSource(categories: seq<CategoryData>, blocks: seq<BlockData>, i: nat): seq<BlockData>
  {
    if i < |categories| then BlocksWithKey(blocks, categories[i].id) else BlocksWithKey(blocks, NilUuid)
  }

  function CategoryGroup(cat: CategoryData, categories: seq<CategoryData>, blocks: seq<BlockData>, s3: S3Settings): BlockGroup
  {
    BlockGroup(Some(cat.id), cat.code, Names(cat.nameDe, cat.nameEn, cat.nameFr), cat.sortOrder,
               ToListItems(BlocksWithKey(blocks, cat.id), categories, s3))
  }

  function OtherGroup(categories: seq<CategoryData>, blocks: seq<BlockData>, s3: S3Settings): BlockGroup
  {
    BlockGroup(None, OtherCode, OtherNames, OtherSortOrder, ToListItems(BlocksWithKey(blocks, NilUuid), categories, s3))
  }

  /** getBlocksGroupedByCategory over the two repository listings, both already in
      ascending sortOrder. */
  method GetBlocksGroupedByCategory(categories: seq<CategoryData>, blocks: seq<BlockData>, s3: S3Settings)
    returns (result: seq<BlockGroup>)
    ensures |result| == |categories| + (if BlocksWithKey(blocks, NilUuid) == [] then 0 else 1)
    ensures forall i :: 0 <= i < |categories| ==>
      && result[i].id == Some(categories[i].id)
      && result[i].code == categories[i].code
      && result[i].sortOrder == categories[i].sortOrder
      && result[i].names == Names(categories[i].nameDe, categories[i].nameEn, categories[i].nameFr)
    ensures |result| > |categories| ==>
      && result[|categories|].id == None
      && result[|categories|].code == OtherCode
      && result[|categories|].names == OtherNames
      && result[|categories|].sortOrder == OtherSortOrder
    ensures forall i :: 0 <= i < |result| ==>
      result[i].blocks == ToListItems(GroupSource(categories, blocks, i), categories, s3)
  {
    result := [];
    for i := 0 to |categories|
      invariant |result| == i
      invariant forall k :: 0 <= k < i ==> result[k] == CategoryGroup(categories[k], categories, blocks, s3)
    {
      var cat := categories[i];
      var members := BlocksWithKey(blocks, cat.id);
      result := result + [BlockGroup(Some(cat.id), cat.code, Names(cat.nameDe, cat.nameEn, cat.nameFr),
                                     cat.sortOrder, ToListItems(members, categories, s3))];
    }
    var uncategorized := BlocksWithKey(blocks, NilUuid);
    if uncategorized != [] {
      result := result + [OtherGroup(categories, blocks, s3)];
    }
  }

  /** A block filed under a listed category is in that category's group. */
  lemma BlockInItsCategoryGroup(categories: seq<CategoryData>, blocks: seq<BlockData>, b: BlockData, i: nat)
    requires b in blocks && i < |categories| && b.categoryId == Some(categories[i].id)
    ensures b in GroupSource(categories, blocks, i)
  {
  }

  /** A block without a category is in the trailing group, which is then emitted. */
  lemma UncategorisedBlockInOtherGroup(categories: seq<CategoryData>, blocks: seq<BlockData>, b: BlockData)
    requires b in blocks && b.categoryId.None?
    ensures BlocksWithKey(blocks, NilUuid) != []
    ensures b in GroupSource(categories, blocks, |categories|)
  {
  }

  /** A block whose category is not listed appears in no group. */
  lemma OrphanBlockInNoGroup(categories: seq<CategoryData>, blocks: seq<BlockData>, b: BlockData, i: nat)
    requires b.categoryId.Some? && b.categoryId.value != NilUuid
    requires forall c :: c in categories ==> c.id != b.categoryId.value
    requires i <= |categories|
    ensures b !in GroupSource(categories, blocks, i)
  {
    if i < |categories| {
      assert categories[i] in categories;
    }
  }

  /** With distinct, generated category ids, no block is in two groups. */
  lemma BlockInAtMostOneGroup(categories: seq<CategoryData>, blocks: seq<BlockData>, b: BlockData, i: nat, j: nat)
    requires forall p, q :: 0 <= p < q < |categories| ==> categories[p].id != categories[q].id
    requires forall c :: c in categories ==> c.id != NilUuid
    requires i <= |categories| && j <= |categories|
    requires b in GroupSource(categories, blocks, i) && b in GroupSource(categories, blocks, j)
    ensures i == j
  {
    if i < |categories| { assert categories[i] in categories; }
    if j < |categories| { assert categories[j] in categories; }
  }

  /** The all-zero UUID is the grouping sentinel: a block filed under it lands in "other". */
  lemma NilCategoryCountsAsOther(categories: seq<CategoryData>, blocks: seq<BlockData>, b: BlockData)
    requires b in blocks && b.categoryId == Some(NilUuid)
    ensures b in GroupSource(categories, blocks, |categories|)
  {
  }

  // ---------------------------------------------------------------------------
  // Create, update, delete

  predicate CodeInUse(categories: map<Uuid, CategoryData>, code: string)
  {
    exists id :: id in categories && categories[id].code == code
  }

  /** The duplicate check compares the request's code as given, while the stored code is
      normalised: a code that differs from a stored one only in case passes the check. */
  lemma RawCodeCheckAdmitsCaseVariant()
    ensures var stored := map[1 := CategoryData(1, "a", None, None, None, 0)];
      && !CodeInUse(stored, "A")
      && NormalizeCode("A") == stored[1].code
  {
    assert Trim("A") == "A";
    assert ToLowerAscii("A") == "a";
    assert CollapseSpaceRuns("a") == "a";
  }

  function NewCategory(id: Uuid, request: CategoryRequest): (c: CategoryData)
    ensures c.code == NormalizeCode(request.code)
    ensures c.sortOrder == (if request.sortOrder.Some? then request.sortOrder.value else 0)
  {
    CategoryData(id, NormalizeCode(request.code), request.nameDe, request.nameEn, request.nameFr,
                 OrElse(request.sortOrder, 0))
  }

  /** updateCategory's field merge: only the names and the sort order, and only where given. */
  function MergeCategory(c: CategoryData, request: CategoryRequest): CategoryData
  {
    c.(nameDe := if request.nameDe.Some? then request.nameDe else c.nameDe,
       nameEn := if request.nameEn.Some? then request.nameEn else c.nameEn,
       nameFr := if request.nameFr.Some? then request.nameFr else c.nameFr,
       sortOrder := OrElse(request.sortOrder, c.sortOrder))
  }

  /** An update never touches the id or the code, is idempotent, and a request with
      nothing set leaves the category as it was. */
  lemma MergeCategoryProperties(c: CategoryData, request: CategoryRequest)
    ensures MergeCategory(c, request).id == c.id && MergeCategory(c, request).code == c.code
    ensures MergeCategory(MergeCategory(c, request), request) == MergeCategory(c, request)
    ensures request.nameDe.None? && request.nameEn.None? && request.nameFr.None? && request.sortOrder.None?
            ==> MergeCategory(c, request) == c
  {
  }

  function NewBlock(id: Uuid, request: BlockRequest): (b: BlockData)
    ensures b.image.None?
    ensures b.sortOrder == (if request.sortOrder.Some? then request.sortOrder.value else 0)
  {
    BlockData(id, request.title, request.text, None, request.categoryId, OrElse(request.sortOrder, 0))
  }

  /** updateBlock's field merge: every field the request sets, and no other. */
  function MergeBlock(b: BlockData, request: BlockRequest): BlockData
  {
    b.(title := if request.title.Some? then request.title else b.title,
       text := if request.text.Some? then request.text else b.text,
       categoryId := if request.categoryId.Some? then request.categoryId else b.categoryId,
       sortOrder := OrElse(request.sortOrder, b.sortOrder),
       image := if request.image.Some? then request.image else b.image)
  }

  /** A block update keeps the id, cannot clear a field (so a block never loses its category
      or image through an update), and is idempotent. */
  lemma MergeBlockProperties(b: BlockData, request: BlockRequest)
    ensures MergeBlock(b, request).id == b.id
    ensures b.categoryId.Some? ==> MergeBlock(b, request).categoryId.Some?
    ensures b.image.Some? ==> MergeBlock(b, request).image.Some?
    ensures MergeBlock(MergeBlock(b, request), request) == MergeBlock(b, request)
  {
  }

  /** The ReenactmentCategory entity object the service fills through its setters. */
  class Category {
    var id: Uuid
    var code: string
    var nameDe: Option<string>
    var nameEn: Option<string>
    var nameFr: Option<string>
    var sortOrder: int

    function Data(): CategoryData
      reads this
    {
      CategoryData(id, code, nameDe, nameEn, nameFr, sortOrder)
    }

    /** `new ReenactmentCategory()`: no id, no code and no names yet. */
    constructor ()
      ensures Data() == CategoryData(NilUuid, [], None, None, None, 0)
    {
      id, code, nameDe, nameEn, nameFr, sortOrder := NilUuid, [], None, None, None, 0;
    }

    /** The entity findById hands out for a stored row. */
    constructor Load(d: CategoryData)
      ensures Data() == d
    {
      id, code, nameDe, nameEn, nameFr, sortOrder := d.id, d.code, d.nameDe, d.nameEn, d.nameFr, d.sortOrder;
    }

    /** createCategory's setter calls on a fresh entity: the normalized code, the
        names, and the sort order or its default. */
    method Fill(request: CategoryRequest)
      modifies this
      ensures Data() == NewCategory(old(id), request)
    {
      code := NormalizeCode(request.code);
      nameDe := request.nameDe;
      nameEn := request.nameEn;
      nameFr := request.nameFr;
      sortOrder := if request.sortOrder.Some? then request.sortOrder.value else 0;
    }

    /** updateCategory's setter calls: a name or the sort order only where the request gives one. */
    method Merge(request: CategoryRequest)
      modifies this
      ensures Data() == MergeCategory(old(Data()), request)
    {
      if request.nameDe.Some? { nameDe := request.nameDe; }
      if request.nameEn.Some? { nameEn := request.nameEn; }
      if request.nameFr.Some? { nameFr := request.nameFr; }
      if request.sortOrder.Some? { sortOrder := request.sortOrder.value; }
    }
  }

  /** The Block entity object the service fills through its setters. */
  class Block {
    var id: Uuid
    var title: Option<string>
    var text: Option<string>
    var image: Option<string>
    var categoryId: Option<Uuid>
    var sortOrder: int

    function Data(): BlockData
      reads this
    {
      BlockData(id, title, text, image, categoryId, sortOrder)
    }

    /** `new Block()`: every field unset. */
    constructor ()
      ensures Data() == BlockData(NilUuid, None, None, None, None, 0)
    {
      id, title, text, image, categoryId, sortOrder := NilUuid, None, None, None, None, 0;
    }

    /** The entity findById hands out for a stored row. */
    constructor Load(d: BlockData)
      ensures Data() == d
    {
      id, title, text, image, categoryId, sortOrder := d.id, d.title, d.text, d.image, d.categoryId, d.sortOrder;
    }

    /** updateBlock's setter calls: a field only where the request gives one. */
    method Merge(request: BlockRequest)
      modifies this
      ensures Data() == MergeBlock(old(Data()), request)
    {
      if request.title.Some? { title := request.title; }
      if request.text.Some? { text := request.text; }
      if request.categoryId.Some? { categoryId := request.categoryId; }
      if request.sortOrder.Some? { sortOrder := request.sortOrder.value; }
      if request.image.Some? { image := request.image; }
    }
  }

  /** The service with its two repositories and the photo store's deletions. */
  class ReenactmentService {
    var categories: map<Uuid, CategoryData>
    var blocks: map<Uuid, BlockData>
    var nextId: Uuid
    var deletions: seq<Deletion>

    /** Stored rows are keyed by their own, generated, non-zero ids. */
    ghost predicate Valid()
      reads this
    {
      && nextId > 0
      && (forall id :: id in categories ==> 0 < id < nextId && categories[id].id == id)
      && (forall id :: id in blocks ==> 0 < id < nextId && blocks[id].id == id)
    }

    constructor ()
      ensures Valid()
      ensures categories == map[] && blocks == map[] && deletions == []
    {
      categories, blocks, nextId, deletions := map[], map[], 1, [];
    }

    /** createCategory */
    method CreateCategory(request: CategoryRequest) returns (r: Result<CategoryData, ServiceError>)
      requires Valid()
      modifies this`categories, this`nextId
      ensures Valid()
      ensures blocks == old(blocks) && deletions == old(deletions)
      ensures CodeInUse(old(categories), request.code) ==>
        r == Err(IllegalArgument(DuplicateCodeMessage(request.code))) && categories == old(categories)
      ensures !CodeInUse(old(categories), request.code) ==>
        && r == Ok(NewCategory(old(nextId), request))
        && old(nextId) !in old(categories)
        && categories == old(categories)[old(nextId) := r.value]
    {
      if CodeInUse(categories, request.code) {
        return Err(IllegalArgument(DuplicateCodeMessage(request.code)));
      }
      var cat := new Category();
      cat.Fill(request);
      cat.id := nextId;
      var stored := cat.Data();
      categories := categories[stored.id := stored];
      nextId := nextId + 1;
      r := Ok(stored);
    }

    /** updateCategory */
    method UpdateCategory(id: Uuid, request: CategoryRequest) returns (r: Result<CategoryData, ServiceError>)
      requires Valid()
      modifies this
      ensures Valid()
      ensures blocks == old(blocks) && deletions == old(deletions) && nextId == old(nextId)
      ensures id !in old(categories) ==> r == Err(NotFound(CategoryNotFound)) && categories == old(categories)
      ensures id in old(categories) ==>
        && r == Ok(MergeCategory(old(categories)[id], request))
        && categories == old(categories)[id := r.value]
    {
      if id !in categories {
        return Err(NotFound(CategoryNotFound));
      }
      var cat := new Category.Load(categories[id]);
      cat.Merge(request);
      categories := categories[id := cat.Data()];
      r := Ok(cat.Data());
    }

    /** deleteCategory; the blocks filed under it keep their category id. */
    method DeleteCategory(id: Uuid) returns (r: Result<(), ServiceError>)
      requires Valid()
      modifies this
      ensures Valid()
      ensures blocks == old(blocks) && nextId == old(nextId)
      ensures id !in old(categories) ==>
        r == Err(NotFound(CategoryNotFound)) && categories == old(categories) && deletions == old(deletions)
      ensures id in old(categories) ==>
        r == Ok(()) && categories == old(categories) - {id} && deletions == old(deletions) + [CategoryRow(id)]
    {
      if id !in categories {
        return Err(NotFound(CategoryNotFound));
      }
      categories := categories - {id};
      deletions := deletions + [CategoryRow(id)];
      r := Ok(());
    }

    /** createBlock; the request's image is not used. */
    method CreateBlock(request: BlockRequest) returns (b: BlockData)
      requires Valid()
      modifies this
      ensures Valid()
      ensures categories == old(categories) && deletions == old(deletions)
      ensures b == NewBlock(old(nextId), request)
      ensures old(nextId) !in old(blocks) && blocks == old(blocks)[old(nextId) := b]
    {
      var block := new Block();
      block.title := request.title;
      block.text := request.text;
      block.categoryId := request.categoryId;
      block.sortOrder := if request.sortOrder.Some? then request.sortOrder.value else 0;
      block.id := nextId;
      nextId := nextId + 1;
      b := block.Data();
      blocks := blocks[b.id := b];
    }

    /** updateBlock */
    method UpdateBlock(id: Uuid, request: BlockRequest) returns (r: Result<BlockData, ServiceError>)
      requires Valid()
      modifies this
      ensures Valid()
      ensures categories == old(categories) && deletions == old(deletions) && nextId == old(nextId)
      ensures id !in old(blocks) ==> r == Err(NotFound(BlockNotFound)) && blocks == old(blocks)
      ensures id in old(blocks) ==>
        && r == Ok(MergeBlock(old(blocks)[id], request))
        && blocks == old(blocks)[id := r.value]
    {
      if id !in blocks {
        return Err(NotFound(BlockNotFound));
      }
      var block := new Block.Load(blocks[id]);
      block.Merge(request);
      blocks := blocks[id := block.Data()];
      r := Ok(block.Data());
    }

    /** deleteBlock: the block's photos go first, then the block. */
    method DeleteBlock(id: Uuid) returns (r: Result<(), ServiceError>)
      requires Valid()
      modifies this
      ensures Valid()
      ensures categories == old(categories) && nextId == old(nextId)
      ensures id !in old(blocks) ==>
        r == Err(NotFound(BlockNotFound)) && blocks == old(blocks) && deletions == old(deletions)
      ensures id in old(blocks) ==>
        && r == Ok(())
        && blocks == old(blocks) - {id}
        && deletions == old(deletions) + [PhotosOf(id), BlockRow(id)]
    {
      if id !in blocks {
        return Err(NotFound(BlockNotFound));
      }
      deletions := deletions + [PhotosOf(id)];
      blocks := blocks - {id};
      deletions := deletions + [BlockRow(id)];
      r := Ok(());
    }
  }
}
