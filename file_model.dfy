/**
 * The File schema (models/File.js): required name, URL, type and size fields,
 * the category enum defaulting to "other", the defaults of `isPublic` (true),
 * `downloadCount` (0), `description` (""), `filePath` ("") and `uploadedBy`
 * (null), and the pre-save hook that stamps `updatedAt` on every save.
 */
module FileModel {
  import opened Wrappers
  import UserModel

  type FileId = nat

  datatype Category = Document | Image | Video | Audio | Other

  function CategoryName(c: Category): string {
    match c
    case Document => "document"
    case Image => "image"
    case Video => "video"
    case Audio => "audio"
    case Other => "other"
  }

  /** The category enum validator. */
  function ParseCategory(s: string): (r: Option<Category>)
    ensures r.Some? ==> CategoryName(r.value) == s
    ensures r.None? ==> forall c: Category :: CategoryName(c) != s
  {
    if s == "document" then Some(Document)
    else if s == "image" then Some(Image)
    else if s == "video" then Some(Video)
    else if s == "audio" then Some(Audio)
    else if s == "other" then Some(Other)
    else None
  }

  datatype FileRecord = FileRecord(
    id: FileId,
    originalName: string,
    fileName: string,
    filePath: string,
    fileUrl: string,
    fileType: string,
    fileSize: int,
    uploadedBy: Option<UserModel.UserId>,
    category: Category,
    description: string,
    isPublic: bool,
    downloadCount: int,
    tags: seq<string>,
    createdAt: nat,
    updatedAt: nat)

  /** The fields given to `new File({...})`; `None` means the field was left undefined. */
  datatype FileDraft = FileDraft(
    originalName: string,
    fileName: string,
    filePath: Option<string>,
    fileUrl: string,
    fileType: string,
    fileSize: int,
    uploadedBy: Option<UserModel.UserId>,
    category: Option<string>,
    description: Option<string>,
    isPublic: Option<bool>,
    tags: seq<string>)

  /** The required String paths hold non-empty strings. */
  predicate ValidFile(f: FileRecord) {
    f.originalName != "" && f.fileName != "" && f.fileUrl != "" && f.fileType != ""
  }

  /** `new File(draft)` followed by validation and the pre-save hook: the defaults fill the
      undefined fields, `createdAt` and `updatedAt` are the save time, and a category outside
      the enum or an empty required string fails validation. */
  function NewFile(id: FileId, d: FileDraft, now: nat): (r: Option<FileRecord>)
    ensures r.Some? <==>
      d.originalName != "" && d.fileName != "" && d.fileUrl != "" && d.fileType != ""
      && (d.category.None? || ParseCategory(d.category.value).Some?)
    ensures r.Some? ==> ValidFile(r.value) && r.value.id == id
    ensures r.Some? ==> r.value.category == (if d.category.None? then Other else ParseCategory(d.category.value).value)
    ensures r.Some? ==> r.value.isPublic == d.isPublic.GetOr(true)
    ensures r.Some? ==> r.value.description == d.description.GetOr("")
    ensures r.Some? ==> r.value.filePath == d.filePath.GetOr("")
    ensures r.Some? ==> r.value.downloadCount == 0 && r.value.uploadedBy == d.uploadedBy
    ensures r.Some? ==> r.value.createdAt == now && r.value.updatedAt == now
    ensures r.Some? ==> r.value.tags == d.tags && r.value.fileType == d.fileType && r.value.fileSize == d.fileSize
    ensures r.Some? ==> r.value.originalName == d.originalName && r.value.fileUrl == d.fileUrl && r.value.fileName == d.fileName
  {
    var category := if d.category.None? then Some(Other) else ParseCategory(d.category.value);
    if d.originalName == "" || d.fileName == "" || d.fileUrl == "" || d.fileType == "" || category.None? then None
    else
      Some(FileRecord(id, d.originalName, d.fileName, d.filePath.GetOr(""), d.fileUrl, d.fileType,
                      d.fileSize, d.uploadedBy, category.value, d.description.GetOr(""),
                      d.isPublic.GetOr(true), 0, d.tags, now, now))
  }

  /** `_id` is unique in the collection. */
  predicate UniqueIds(store: seq<FileRecord>) {
    forall i, j :: 0 <= i < j < |store| ==> store[i].id != store[j].id
  }

  predicate IdTaken(store: seq<FileRecord>, id: FileId) {
    exists i :: 0 <= i < |store| && store[i].id == id
  }

  /** The largest `_id` in the collection, 0 when it is empty. */
  function MaxId(store: seq<FileRecord>): (m: nat)
    ensures forall i :: 0 <= i < |store| ==> store[i].id <= m
  {
    if store == [] then 0
    else
      var m := MaxId(store[1..]);
      assert forall j :: 1 <= j < |store| ==> store[j] == store[1..][j - 1];
      if store[0].id > m then store[0].id else m
  }

  /** The `_id` a new document receives: one that no stored document has. */
  function NextId(store: seq<FileRecord>): (r: FileId)
    ensures !IdTaken(store, r)
  {
    MaxId(store) + 1
  }

  /** Inserting a new document; a taken `_id` is a duplicate key error and changes nothing. */
  function Insert(store: seq<FileRecord>, f: FileRecord): (r: Option<seq<FileRecord>>)
    ensures r.Some? <==> !IdTaken(store, f.id)
    ensures r.Some? ==> r.value == store + [f]
  {
    if IdTaken(store, f.id) then None else Some(store + [f])
  }

  lemma InsertKeepsIdsUnique(store: seq<FileRecord>, f: FileRecord)
    requires UniqueIds(store) && Insert(store, f).Some?
    ensures UniqueIds(Insert(store, f).value)
  {
    var s := store + [f];
    forall i, j | 0 <= i < j < |s| ensures s[i].id != s[j].id {
      if j == |store| {
        assert store[i].id != f.id;
      }
    }
  }

  /** Saving a modified document: the pre-save hook sets `updatedAt` to the save time,
      and nothing else about the document changes. */
  function Touch(f: FileRecord, now: nat): (r: FileRecord)
    ensures r.updatedAt == now
    ensures r.(updatedAt := f.updatedAt) == f
  {
    f.(updatedAt := now)
  }

  /** Position of the document with this `_id` (`findById`). */
  function IndexOfId(store: seq<FileRecord>, id: FileId): (r: Option<nat>)
    ensures r.Some? ==> r.value < |store| && store[r.value].id == id
    ensures r.None? <==> !IdTaken(store, id)
  {
    if store == [] then None
    else if store[0].id == id then Some(0)
    else
      var r := IndexOfId(store[1..], id);
      assert forall j :: 1 <= j < |store| ==> store[j] == store[1..][j - 1];
      if r.Some? then Some(r.value + 1) else None
  }
}
