/**
 * The file controller (controllers/fileController.js) over the File collection: building
 * upload records, the single and multi-file uploads, the access rules of reading,
 * downloading, updating and deleting one file, the listings and the statistics.
 *
 * Cloud uploads are a parameter `cloud` giving, for the k-th file of a request, the
 * stored `public_id` and `secure_url`, or `None` when the upload threw. A cloud deletion
 * that throws is caught and ignored, so it is not an input at all.
 */
module FileController {
  import opened Wrappers
  import Json
  import JsString
  import Collections
  import UserModel
  import FileModel
  import LocalStorage

  /** The fields of the verified token payload (`req.user`) the handlers read. */
  datatype Principal = Principal(id: UserModel.UserId, role: string)

  /** `req.user ? req.user.id : null` */
  function UploaderOf(user: Option<Principal>): Option<UserModel.UserId> {
    if user.Some? then Some(user.value.id) else None
  }

  // ---------------------------------------------------------------------------------------
  // Casting body values
  // ---------------------------------------------------------------------------------------

  /** Mongoose's Boolean cast: `true`, "true", 1, "1" and "yes" become true; `false`, "false",
      0, "0" and "no" become false; anything else is a cast error. */
  function CastBoolean(v: Json.Value): (r: Option<bool>)
    ensures v.Bool? ==> r == Some(v.b)
    ensures r.Some? ==> v.Bool? || v.Str? || v.Num?
    ensures v == Json.Str("true") ==> r == Some(true)
    ensures v == Json.Str("false") ==> r == Some(false)
  {
    match v
    case Bool(b) => Some(b)
    case Num(n) => if n == 1.0 then Some(true) else if n == 0.0 then Some(false) else None
    case Str(s) =>
      if s == "true" || s == "1" || s == "yes" then Some(true)
      else if s == "false" || s == "0" || s == "no" then Some(false)
      else None
    case _ => None
  }

  /** `tags.split(',').map(tag => tag.trim())` */
  function ParseTags(s: string): (r: seq<string>)
    ensures |r| == JsString.Count(s, ',') + 1
    ensures forall k :: 0 <= k < |r| ==> |r[k]| <= |s|
  {
    var pieces := JsString.Split(s, ',');
    PiecesAreShort(s);
    Collections.Map(pieces, JsString.Trim)
  }

  lemma PiecesAreShort(s: string)
    ensures forall k :: 0 <= k < |JsString.Split(s, ',')| ==> |JsString.Trim(JsString.Split(s, ',')[k])| <= |s|
  {
    var pieces := JsString.Split(s, ',');
    JsString.JoinSplit(s, ',');
    forall k | 0 <= k < |pieces| ensures |JsString.Trim(pieces[k])| <= |s| {
      JoinedPieceIsShort(pieces, k, ',');
    }
  }

  /** A piece of a joined list is no longer than the join. */
  lemma {:induction false} JoinedPieceIsShort(parts: seq<string>, k: nat, d: char)
    requires |parts| >= 1 && k < |parts|
    ensures |parts[k]| <= |JsString.Join(parts, d)|
  {
    if |parts| > 1 && k > 0 {
      JoinedPieceIsShort(parts[1..], k - 1, d);
    }
  }

  /** Every parsed tag is trimmed: it neither starts nor ends with white space, and a string
      without a comma is one tag, the trimmed string. */
  lemma TagsAreTrimmed(s: string)
    ensures forall k :: 0 <= k < |ParseTags(s)| ==> var t := ParseTags(s)[k];
              t == [] || (!JsString.IsSpace(t[0]) && !JsString.IsSpace(t[|t| - 1]))
    ensures ',' !in s ==> ParseTags(s) == [JsString.Trim(s)]
  {
    var pieces := JsString.Split(s, ',');
    var r := ParseTags(s);
    assert r == Collections.Map(pieces, JsString.Trim);
    forall k | 0 <= k < |r| ensures var t := r[k];
              t == [] || (!JsString.IsSpace(t[0]) && !JsString.IsSpace(t[|t| - 1])) {
      assert r[k] == JsString.Trim(pieces[k]);
      JsString.TrimmedEnds(pieces[k]);
    }
    if ',' !in s {
      JsString.SplitWithoutSeparator(s, ',');
    }
  }

  /** `tags ? tags.split(',').map(...) : []` on an upload: no tags for a falsy value, and a
      TypeError (`None`) for a truthy value that is not a string. */
  function UploadTags(v: Option<Json.Value>): (r: Option<seq<string>>)
    ensures !Json.Truthy(v) ==> r == Some([])
    ensures r.None? <==> Json.Truthy(v) && !v.value.Str?
    ensures Json.Truthy(v) && v.value.Str? ==> r == Some(ParseTags(v.value.s))
  {
    if !Json.Truthy(v) then Some([])
    else if v.value.Str? then Some(ParseTags(v.value.s))
    else None
  }

  /** An empty tags string is no tag at all on upload, but one empty tag on update, because the
      update tests for `undefined` and not for truthiness. */
  lemma EmptyTagsDiffer()
    ensures UploadTags(Some(Json.Str(""))) == Some([])
    ensures ParseTags("") == [""]
  {
    assert JsString.Split("", ',') == [""];
    assert JsString.Trim("") == "";
  }

  // ---------------------------------------------------------------------------------------
  // Upload records
  // ---------------------------------------------------------------------------------------

  /** A file as multer hands it over. */
  datatype Incoming = Incoming(originalname: string, mimetype: string, size: nat)

  /** What a cloud upload returns. */
  datatype CloudResult = CloudResult(publicId: string, secureUrl: string)

  /** The body-derived fields shared by every file of one request; `category` is `None` when
      the category comes from each file's MIME type. */
  datatype UploadFields = UploadFields(description: string, tags: seq<string>, isPublic: bool,
                                       category: Option<string>)

  /** `description || ''`; a truthy value that is not a string is a cast error. */
  function UploadDescription(v: Option<Json.Value>): (r: Option<string>)
    ensures !Json.Truthy(v) ==> r == Some("")
    ensures Json.Truthy(v) ==> (r.Some? <==> v.value.Str?)
    ensures Json.Truthy(v) && v.value.Str? ==> r == Some(v.value.s)
  {
    if !Json.Truthy(v) then Some("")
    else if v.value.Str? then Some(v.value.s)
    else None
  }

  /** The fields of `uploadFile` and `uploadMultipleFiles`: `isPublic` is true when undefined
      and cast otherwise; the category is derived from each MIME type. */
  function AuthenticatedFields(body: Json.Value): (r: Option<UploadFields>)
    ensures r.Some? <==>
      && UploadDescription(Json.Get(body, "description")).Some?
      && UploadTags(Json.Get(body, "tags")).Some?
      && (Json.Get(body, "isPublic").None? || CastBoolean(Json.Get(body, "isPublic").value).Some?)
    ensures r.Some? ==> r.value.category.None?
    ensures r.Some? && Json.Get(body, "isPublic").None? ==> r.value.isPublic
  {
    var description := UploadDescription(Json.Get(body, "description"));
    var tags := UploadTags(Json.Get(body, "tags"));
    var isPublicField := Json.Get(body, "isPublic");
    var isPublic := if isPublicField.None? then Some(true) else CastBoolean(isPublicField.value);
    if description.None? || tags.None? || isPublic.None? then None
    else Some(UploadFields(description.value, tags.value, isPublic.value, None))
  }

  /** The fields of `uploadMultipleFilesPublic`: always public, and `category || <MIME
      category>`; a truthy category that is not a string never names an enum value. */
  function PublicFields(body: Json.Value): (r: Option<UploadFields>)
    ensures r.Some? ==> r.value.isPublic
    ensures r.Some? ==> (r.value.category.Some? <==> Json.Truthy(Json.Get(body, "category")))
    ensures r.Some? <==>
      && UploadDescription(Json.Get(body, "description")).Some?
      && UploadTags(Json.Get(body, "tags")).Some?
      && (!Json.Truthy(Json.Get(body, "category")) || Json.Get(body, "category").value.Str?)
  {
    var description := UploadDescription(Json.Get(body, "description"));
    var tags := UploadTags(Json.Get(body, "tags"));
    var categoryField := Json.Get(body, "category");
    if description.None? || tags.None? then None
    else if !Json.Truthy(categoryField) then Some(UploadFields(description.value, tags.value, true, None))
    else if categoryField.value.Str? then
      Some(UploadFields(description.value, tags.value, true, Some(categoryField.value.s)))
    else None
  }

  /** The category a record is given: the request's, or the one derived from the MIME type. */
  function CategoryFor(file: Incoming, fields: UploadFields, classify: string -> string): string {
    if fields.category.Some? then fields.category.value else classify(file.mimetype)
  }

  /** What `new File({...})` is given for one uploaded file. */
  function DraftFor(file: Incoming, cloud: CloudResult, uploadedBy: Option<UserModel.UserId>,
                    fields: UploadFields, classify: string -> string): FileModel.FileDraft {
    FileModel.FileDraft(file.originalname, cloud.publicId, Some(""), cloud.secureUrl, file.mimetype,
                        file.size, uploadedBy, Some(CategoryFor(file, fields, classify)), Some(fields.description),
                        Some(fields.isPublic), fields.tags)
  }

  /** The record an upload is meant to store for one incoming file. */
  predicate RecordOf(rec: FileModel.FileRecord, file: Incoming, cloud: CloudResult,
                     uploadedBy: Option<UserModel.UserId>, fields: UploadFields, now: nat) {
    && rec.originalName == file.originalname && rec.fileType == file.mimetype && rec.fileSize == file.size
    && rec.fileName == cloud.publicId && rec.fileUrl == cloud.secureUrl && rec.filePath == ""
    && rec.uploadedBy == uploadedBy && rec.isPublic == fields.isPublic
    && rec.description == fields.description && rec.tags == fields.tags
    && rec.downloadCount == 0 && rec.createdAt == now && rec.updatedAt == now
  }

  /** The record is filed under the request's category, or else the one its MIME type gives. */
  predicate FiledUnder(rec: FileModel.FileRecord, file: Incoming, fields: UploadFields, classify: string -> string) {
    FileModel.CategoryName(rec.category) == CategoryFor(file, fields, classify)
  }

  /** Uploading and saving one file, with `classify` the MIME classifier the category falls
      back to. It fails when the cloud upload threw, or when validation rejects an empty
      required string or a category outside the enum. */
  function SaveOne(file: Incoming, cloud: Option<CloudResult>, uploadedBy: Option<UserModel.UserId>,
                   fields: UploadFields, classify: string -> string, store: seq<FileModel.FileRecord>, now: nat)
    : (r: Option<FileModel.FileRecord>)
    ensures r.Some? ==> cloud.Some? && RecordOf(r.value, file, cloud.value, uploadedBy, fields, now)
    ensures r.Some? ==> FiledUnder(r.value, file, fields, classify)
    ensures r.Some? ==> FileModel.ValidFile(r.value) && !FileModel.IdTaken(store, r.value.id)
    ensures r.None? <==>
      || cloud.None? || file.originalname == "" || file.mimetype == ""
      || cloud.value.publicId == "" || cloud.value.secureUrl == ""
      || FileModel.ParseCategory(CategoryFor(file, fields, classify)).None?
  {
    if cloud.None? then None
    else
      var rec := FileModel.NewFile(FileModel.NextId(store), DraftFor(file, cloud.value, uploadedBy, fields, classify), now);
      if rec.Some? then
        assert FiledUnder(rec.value, file, fields, classify);
        rec
      else None
  }

  /** The outcome of the upload loop: whether a file failed, the records saved and pushed
      before that, and the collection afterwards. */
  datatype UploadRun = UploadRun(failed: bool, uploaded: seq<FileModel.FileRecord>, store: seq<FileModel.FileRecord>)

  /** A run whose first records were already pushed: `done` ahead of what `rest` uploads. */
  function Continue(done: seq<FileModel.FileRecord>, rest: UploadRun): UploadRun {
    UploadRun(rest.failed, done + rest.uploaded, rest.store)
  }

  /** The loop of the multi-file uploads, from the file at position `start` of the request.
      On a failure the loop stops, and every record saved before it stays in the collection. */
  function UploadAll(files: seq<Incoming>, start: nat, cloud: nat -> Option<CloudResult>,
                     uploadedBy: Option<UserModel.UserId>, fields: UploadFields, classify: string -> string,
                     store: seq<FileModel.FileRecord>, now: nat): (r: UploadRun)
    ensures r.store == store + r.uploaded
    ensures |r.uploaded| <= |files|
    ensures !r.failed <==> |r.uploaded| == |files|
    decreases |files|
  {
    if files == [] then UploadRun(false, [], store)
    else
      var saved := SaveOne(files[0], cloud(start), uploadedBy, fields, classify, store, now);
      if saved.None? then UploadRun(true, [], store)
      else
        var rest := UploadAll(files[1..], start + 1, cloud, uploadedBy, fields, classify, store + [saved.value], now);
        UploadRun(rest.failed, [saved.value] + rest.uploaded, rest.store)
  }

  /** One turn of the upload loop, for the file at position `i` that saved: it joins the
      records already pushed. */
  lemma UploadAllSaved(files: seq<Incoming>, i: nat, cloud: nat -> Option<CloudResult>,
                       uploadedBy: Option<UserModel.UserId>, fields: UploadFields, classify: string -> string,
                       store: seq<FileModel.FileRecord>, now: nat, done: seq<FileModel.FileRecord>,
                       saved: FileModel.FileRecord)
    requires i < |files| && SaveOne(files[i], cloud(i), uploadedBy, fields, classify, store, now) == Some(saved)
    ensures Continue(done, UploadAll(files[i..], i, cloud, uploadedBy, fields, classify, store, now))
      == Continue(done + [saved], UploadAll(files[i + 1..], i + 1, cloud, uploadedBy, fields, classify, store + [saved], now))
  {
    assert files[i..][0] == files[i] && files[i..][1..] == files[i + 1..];
    var rest := UploadAll(files[i + 1..], i + 1, cloud, uploadedBy, fields, classify, store + [saved], now);
    assert UploadAll(files[i..], i, cloud, uploadedBy, fields, classify, store, now)
      == UploadRun(rest.failed, [saved] + rest.uploaded, rest.store);
    assert done + ([saved] + rest.uploaded) == (done + [saved]) + rest.uploaded;
  }

  /** One turn of the upload loop, for the file at position `i` that failed: the loop ends
      with the records already pushed. */
  lemma UploadAllFailed(files: seq<Incoming>, i: nat, cloud: nat -> Option<CloudResult>,
                        uploadedBy: Option<UserModel.UserId>, fields: UploadFields, classify: string -> string,
                        store: seq<FileModel.FileRecord>, now: nat, done: seq<FileModel.FileRecord>)
    requires i < |files| && SaveOne(files[i], cloud(i), uploadedBy, fields, classify, store, now).None?
    ensures Continue(done, UploadAll(files[i..], i, cloud, uploadedBy, fields, classify, store, now))
      == UploadRun(true, done, store)
  {
    assert files[i..][0] == files[i];
    assert done + [] == done;
  }

  /** Every saved record got a fresh `_id`, so `_id` stays unique. */
  lemma {:induction false} UploadAllKeepsIdsUnique(files: seq<Incoming>, start: nat, cloud: nat -> Option<CloudResult>,
                                                  uploadedBy: Option<UserModel.UserId>, fields: UploadFields,
                                                  classify: string -> string, store: seq<FileModel.FileRecord>, now: nat)
    requires FileModel.UniqueIds(store)
    ensures FileModel.UniqueIds(UploadAll(files, start, cloud, uploadedBy, fields, classify, store, now).store)
    decreases |files|
  {
    if files != [] {
      var saved := SaveOne(files[0], cloud(start), uploadedBy, fields, classify, store, now);
      if saved.Some? {
        FileModel.InsertKeepsIdsUnique(store, saved.value);
        UploadAllKeepsIdsUnique(files[1..], start + 1, cloud, uploadedBy, fields, classify, store + [saved.value], now);
      }
    }
  }

  /** A run that saved anything saved the first file first. */
  lemma UploadAllCons(files: seq<Incoming>, start: nat, cloud: nat -> Option<CloudResult>,
                      uploadedBy: Option<UserModel.UserId>, fields: UploadFields, classify: string -> string,
                      store: seq<FileModel.FileRecord>, now: nat)
    requires |UploadAll(files, start, cloud, uploadedBy, fields, classify, store, now).uploaded| > 0
    ensures files != []
    ensures var saved := SaveOne(files[0], cloud(start), uploadedBy, fields, classify, store, now);
      && saved.Some?
      && UploadAll(files, start, cloud, uploadedBy, fields, classify, store, now).uploaded
         == [saved.value] + UploadAll(files[1..], start + 1, cloud, uploadedBy, fields, classify, store + [saved.value], now).uploaded
  {
  }

  /** Moving one place along a list of saved records keeps a record matched to its file. */
  lemma RecordAtStep(u: seq<FileModel.FileRecord>, v: seq<FileModel.FileRecord>, x: FileModel.FileRecord,
                     files: seq<Incoming>, c: Option<CloudResult>, d: Option<CloudResult>,
                     uploadedBy: Option<UserModel.UserId>, fields: UploadFields, now: nat, k: nat)
    requires 0 < k < |u| && u == [x] + v && k < |files| && c == d && d.Some?
    requires RecordOf(v[k - 1], files[1..][k - 1], d.value, uploadedBy, fields, now)
    ensures RecordOf(u[k], files[k], c.value, uploadedBy, fields, now)
  {
    assert u[k] == v[k - 1];
    assert files[k] == files[1..][k - 1];
  }

  /** The k-th record saved is the record of the k-th file of the request, built from the
      k-th cloud upload. */
  lemma {:induction false} UploadAllAt(files: seq<Incoming>, start: nat, cloud: nat -> Option<CloudResult>,
                                      uploadedBy: Option<UserModel.UserId>, fields: UploadFields, classify: string -> string,
                                      store: seq<FileModel.FileRecord>, now: nat, k: nat)
    requires k < |UploadAll(files, start, cloud, uploadedBy, fields, classify, store, now).uploaded|
    ensures cloud(start + k).Some?
    ensures RecordOf(UploadAll(files, start, cloud, uploadedBy, fields, classify, store, now).uploaded[k], files[k],
                     cloud(start + k).value, uploadedBy, fields, now)
    decreases k
  {
    UploadAllCons(files, start, cloud, uploadedBy, fields, classify, store, now);
    var saved := SaveOne(files[0], cloud(start), uploadedBy, fields, classify, store, now);
    if k > 0 {
      UploadAllAt(files[1..], start + 1, cloud, uploadedBy, fields, classify, store + [saved.value], now, k - 1);
      assert cloud(start + k) == cloud(start + 1 + (k - 1));
      RecordAtStep(UploadAll(files, start, cloud, uploadedBy, fields, classify, store, now).uploaded,
                   UploadAll(files[1..], start + 1, cloud, uploadedBy, fields, classify, store + [saved.value], now).uploaded,
                   saved.value, files, cloud(start + k), cloud(start + 1 + (k - 1)), uploadedBy, fields, now, k);
    }
  }

  /** The k-th record is filed under the category of the k-th file. */
  lemma {:induction false} CategoryAt(files: seq<Incoming>, start: nat, cloud: nat -> Option<CloudResult>,
                                      uploadedBy: Option<UserModel.UserId>, fields: UploadFields, classify: string -> string,
                                      store: seq<FileModel.FileRecord>, now: nat, k: nat)
    requires k < |UploadAll(files, start, cloud, uploadedBy, fields, classify, store, now).uploaded|
    ensures FiledUnder(UploadAll(files, start, cloud, uploadedBy, fields, classify, store, now).uploaded[k], files[k], fields, classify)
    decreases k
  {
    UploadAllCons(files, start, cloud, uploadedBy, fields, classify, store, now);
    var saved := SaveOne(files[0], cloud(start), uploadedBy, fields, classify, store, now);
    if k > 0 {
      CategoryAt(files[1..], start + 1, cloud, uploadedBy, fields, classify, store + [saved.value], now, k - 1);
      assert files[k] == files[1..][k - 1];
    }
  }

  /** The whole loop keeps the order of the input. */
  lemma UploadAllKth(files: seq<Incoming>, cloud: nat -> Option<CloudResult>,
                     uploadedBy: Option<UserModel.UserId>, fields: UploadFields, classify: string -> string,
                     store: seq<FileModel.FileRecord>, now: nat, k: nat)
    requires k < |UploadAll(files, 0, cloud, uploadedBy, fields, classify, store, now).uploaded|
    ensures var rec := UploadAll(files, 0, cloud, uploadedBy, fields, classify, store, now).uploaded[k];
      && cloud(k).Some? && RecordOf(rec, files[k], cloud(k).value, uploadedBy, fields, now)
      && FiledUnder(rec, files[k], fields, classify)
  {
    UploadAllAt(files, 0, cloud, uploadedBy, fields, classify, store, now, k);
    CategoryAt(files, 0, cloud, uploadedBy, fields, classify, store, now, k);
  }

  lemma UploadAllInOrder(files: seq<Incoming>, cloud: nat -> Option<CloudResult>,
                         uploadedBy: Option<UserModel.UserId>, fields: UploadFields, classify: string -> string,
                         store: seq<FileModel.FileRecord>, now: nat)
    ensures var r := UploadAll(files, 0, cloud, uploadedBy, fields, classify, store, now);
      forall k :: 0 <= k < |r.uploaded| ==>
        && cloud(k).Some? && RecordOf(r.uploaded[k], files[k], cloud(k).value, uploadedBy, fields, now)
        && FiledUnder(r.uploaded[k], files[k], fields, classify)
  {
    var r := UploadAll(files, 0, cloud, uploadedBy, fields, classify, store, now);
    forall k | 0 <= k < |r.uploaded|
      ensures && cloud(k).Some? && RecordOf(r.uploaded[k], files[k], cloud(k).value, uploadedBy, fields, now)
              && FiledUnder(r.uploaded[k], files[k], fields, classify)
    {
      UploadAllKth(files, cloud, uploadedBy, fields, classify, store, now, k);
    }
  }

  datatype UploadOutcome = NoFileUploaded | UploadFailed | Uploaded(files: seq<FileModel.FileRecord>)

  function UploadStatus(r: UploadOutcome): int {
    match r
    case NoFileUploaded => 400
    case UploadFailed => 500
    case Uploaded(_) => 201
  }

  /** `uploadFile`: 400 without a file, 500 when the body, the cloud upload or validation
      fails, and otherwise 201 with the one new record. */
  function UploadFile(store: seq<FileModel.FileRecord>, file: Option<Incoming>, body: Json.Value,
                      user: Option<Principal>, cloud: Option<CloudResult>, now: nat)
    : (r: (UploadOutcome, seq<FileModel.FileRecord>))
    ensures r.0.NoFileUploaded? <==> file.None?
    ensures !r.0.Uploaded? ==> r.1 == store
    ensures r.0.Uploaded? ==>
      && file.Some? && cloud.Some? && |r.0.files| == 1 && r.1 == store + r.0.files
      && AuthenticatedFields(body).Some?
      && RecordOf(r.0.files[0], file.value, cloud.value, UploaderOf(user), AuthenticatedFields(body).value, now)
      && FiledUnder(r.0.files[0], file.value, AuthenticatedFields(body).value, LocalStorage.GetFileCategory)
  {
    if file.None? then (NoFileUploaded, store)
    else
      var fields := AuthenticatedFields(body);
      if fields.None? then (UploadFailed, store)
      else
        var saved := SaveOne(file.value, cloud, UploaderOf(user), fields.value, LocalStorage.GetFileCategory, store, now);
        if saved.None? then (UploadFailed, store) else (Uploaded([saved.value]), store + [saved.value])
  }

  /** The shared shape of both multi-file uploads. */
  function UploadMany(store: seq<FileModel.FileRecord>, files: seq<Incoming>, fields: Option<UploadFields>,
                      uploadedBy: Option<UserModel.UserId>, cloud: nat -> Option<CloudResult>, now: nat)
    : (r: (UploadOutcome, seq<FileModel.FileRecord>))
    ensures r.0.NoFileUploaded? <==> files == []
    ensures r.0.Uploaded? ==> fields.Some? && |r.0.files| == |files| && r.1 == store + r.0.files
    ensures r.0.Uploaded? ==> forall k :: 0 <= k < |files| ==>
      && cloud(k).Some? && RecordOf(r.0.files[k], files[k], cloud(k).value, uploadedBy, fields.value, now)
      && FiledUnder(r.0.files[k], files[k], fields.value, LocalStorage.GetFileCategory)
    ensures exists saved :: r.1 == store + saved && |saved| <= |files|
  {
    if files == [] then (NoFileUploaded, store)
    else if fields.None? then
      assert store == store + [];
      (UploadFailed, store)
    else
      var run := UploadAll(files, 0, cloud, uploadedBy, fields.value, LocalStorage.GetFileCategory, store, now);
      UploadAllInOrder(files, cloud, uploadedBy, fields.value, LocalStorage.GetFileCategory, store, now);
      (if run.failed then UploadFailed else Uploaded(run.uploaded), run.store)
  }

  /** `uploadMultipleFiles`: one record per file, in the order of the request. */
  function UploadMultipleFiles(store: seq<FileModel.FileRecord>, files: seq<Incoming>, body: Json.Value,
                               user: Option<Principal>, cloud: nat -> Option<CloudResult>, now: nat)
    : (r: (UploadOutcome, seq<FileModel.FileRecord>))
    ensures r.0.Uploaded? ==> |r.0.files| == |files| && r.1 == store + r.0.files
    ensures r.0.Uploaded? ==> forall k :: 0 <= k < |files| ==>
      r.0.files[k].originalName == files[k].originalname && r.0.files[k].uploadedBy == UploaderOf(user)
  {
    UploadMany(store, files, AuthenticatedFields(body), UploaderOf(user), cloud, now)
  }

  /** `uploadMultipleFilesPublic`: no uploader, and always public. */
  function UploadMultipleFilesPublic(store: seq<FileModel.FileRecord>, files: seq<Incoming>, body: Json.Value,
                                     cloud: nat -> Option<CloudResult>, now: nat)
    : (r: (UploadOutcome, seq<FileModel.FileRecord>))
    ensures r.0.Uploaded? ==> |r.0.files| == |files| && r.1 == store + r.0.files
    ensures r.0.Uploaded? ==> forall k :: 0 <= k < |files| ==>
      && r.0.files[k].originalName == files[k].originalname
      && r.0.files[k].isPublic && r.0.files[k].uploadedBy.None?
  {
    UploadMany(store, files, PublicFields(body), None, cloud, now)
  }

  /** The public upload names its own category, if any: the derived one only stands in when
      the request gives none. */
  lemma PublicUploadCategory(store: seq<FileModel.FileRecord>, files: seq<Incoming>, body: Json.Value,
                             cloud: nat -> Option<CloudResult>, now: nat, k: nat)
    requires UploadMultipleFilesPublic(store, files, body, cloud, now).0.Uploaded? && k < |files|
    ensures var rec := UploadMultipleFilesPublic(store, files, body, cloud, now).0.files[k];
      FileModel.CategoryName(rec.category) ==
        if Json.Truthy(Json.Get(body, "category")) then Json.Get(body, "category").value.s
        else LocalStorage.GetFileCategory(files[k].mimetype)
  {
  }

  // ---------------------------------------------------------------------------------------
  // One file: read, download, update, delete
  // ---------------------------------------------------------------------------------------

  /** `populate('uploadedBy')`: the uploader's id when that user still exists, else null. */
  function Populated(users: seq<UserModel.User>, uploader: Option<UserModel.UserId>): (r: Option<UserModel.UserId>)
    ensures r.Some? <==> uploader.Some? && exists i :: 0 <= i < |users| && users[i].id == uploader.value
    ensures r.Some? ==> r == uploader
  {
    if uploader.Some? && exists i :: 0 <= i < |users| && users[i].id == uploader.value then uploader else None
  }

  datatype FileLookup = LookupThrew | LookupNotFound | LookupDenied | Found(file: FileModel.FileRecord)

  function LookupStatus(r: FileLookup): int {
    match r
    case LookupThrew => 500
    case LookupNotFound => 404
    case LookupDenied => 403
    case Found(_) => 200
  }

  /** `getFile`: an id that is not an ObjectId is a cast error. A private file is shown only
      to its uploader, compared through the populated uploader, whose `_id` is read even
      when the populate found no user (a TypeError). */
  function GetFile(store: seq<FileModel.FileRecord>, users: seq<UserModel.User>, id: Option<FileModel.FileId>,
                   user: Option<Principal>): (r: FileLookup)
    ensures r.LookupNotFound? <==> id.Some? && !FileModel.IdTaken(store, id.value)
    ensures r.Found? ==> id.Some? && FileModel.IndexOfId(store, id.value).Some?
                         && r.file == store[FileModel.IndexOfId(store, id.value).value]
    ensures r.Found? ==> r.file.isPublic || (user.Some? && r.file.uploadedBy == Some(user.value.id))
    ensures r.LookupDenied? ==> id.Some? && !store[FileModel.IndexOfId(store, id.value).value].isPublic
  {
    if id.None? then LookupThrew
    else
      var i := FileModel.IndexOfId(store, id.value);
      if i.None? then LookupNotFound
      else
        var f := store[i.value];
        if f.isPublic then Found(f)
        else if user.None? then LookupDenied
        else
          var uploader := Populated(users, f.uploadedBy);
          if uploader.None? then LookupThrew
          else if uploader.value != user.value.id then LookupDenied
          else Found(f)
  }

  /** For a stored file: it is shown exactly when it is public or the request comes from its
      uploader whose account still exists; the uploader of a private file whose account is gone
      gets a 500, as does anyone when the file has no uploader. */
  lemma GetFileAccessIff(store: seq<FileModel.FileRecord>, users: seq<UserModel.User>, i: nat, user: Principal)
    requires i < |store| && FileModel.UniqueIds(store)
    ensures var f := store[i]; var r := GetFile(store, users, Some(f.id), Some(user));
      && (r.Found? <==> f.isPublic || (Populated(users, f.uploadedBy).Some? && f.uploadedBy == Some(user.id)))
      && (r.LookupThrew? <==> !f.isPublic && Populated(users, f.uploadedBy).None?)
  {
    FileIndex(store, i);
  }

  /** In a collection with unique ids, looking up a stored record's id finds that record. */
  lemma FileIndex(store: seq<FileModel.FileRecord>, i: nat)
    requires i < |store| && FileModel.UniqueIds(store)
    ensures FileModel.IndexOfId(store, store[i].id) == Some(i)
  {
  }

  datatype DownloadOutcome = DownloadThrew | DownloadNotFound | DownloadDenied | Redirect(url: string)

  function DownloadStatus(r: DownloadOutcome): int {
    match r
    case DownloadThrew => 500
    case DownloadNotFound => 404
    case DownloadDenied => 403
    case Redirect(_) => 302
  }

  /** The file after a download: `(downloadCount || 0) + 1`, then saved. */
  function Counted(f: FileModel.FileRecord, now: nat): FileModel.FileRecord {
    FileModel.Touch(f.(downloadCount := f.downloadCount + 1), now)
  }

  /** `downloadFile`: the access rule of `getFile` without populate, so a private file with no
      uploader throws; only a granted download counts and saves, and it redirects to the URL. */
  function DownloadFile(store: seq<FileModel.FileRecord>, id: Option<FileModel.FileId>, user: Option<Principal>,
                        now: nat): (r: (DownloadOutcome, seq<FileModel.FileRecord>))
    ensures !r.0.Redirect? ==> r.1 == store
    ensures r.0.DownloadNotFound? <==> id.Some? && !FileModel.IdTaken(store, id.value)
    ensures r.0.Redirect? ==>
      && id.Some? && FileModel.IndexOfId(store, id.value).Some?
      && var i := FileModel.IndexOfId(store, id.value).value;
      && r.0.url == store[i].fileUrl
      && (store[i].isPublic || (user.Some? && store[i].uploadedBy == Some(user.value.id)))
      && |r.1| == |store| && r.1[i].downloadCount == store[i].downloadCount + 1
      && r.1[i].(downloadCount := store[i].downloadCount, updatedAt := store[i].updatedAt) == store[i]
      && (forall j :: 0 <= j < |store| && j != i ==> r.1[j] == store[j])
  {
    if id.None? then (DownloadThrew, store)
    else
      var i := FileModel.IndexOfId(store, id.value);
      if i.None? then (DownloadNotFound, store)
      else
        var f := store[i.value];
        if !f.isPublic && user.None? then (DownloadDenied, store)
        else if !f.isPublic && f.uploadedBy.None? then (DownloadThrew, store)
        else if !f.isPublic && f.uploadedBy.value != user.value.id then (DownloadDenied, store)
        else (Redirect(f.fileUrl), store[i.value := Counted(f, now)])
  }

  /** The download route runs without authentication, so `req.user` is never set: public files
      are always served and private ones always refused, with the collection unchanged. */
  lemma DownloadRouteServesOnlyPublic(store: seq<FileModel.FileRecord>, i: nat, now: nat)
    requires i < |store| && FileModel.UniqueIds(store)
    ensures var r := DownloadFile(store, Some(store[i].id), None, now);
      && (r.0.Redirect? <==> store[i].isPublic)
      && (!store[i].isPublic ==> r.0.DownloadDenied? && r.1 == store)
  {
    FileIndex(store, i);
  }

  datatype UpdateOutcome = UpdateThrew | UpdateNotFound | UpdateDenied | Updated(file: FileModel.FileRecord)

  function UpdateStatus(r: UpdateOutcome): int {
    match r
    case UpdateThrew => 500
    case UpdateNotFound => 404
    case UpdateDenied => 403
    case Updated(_) => 200
  }

  /** The three guarded assignments of `updateFile`: a field that is not `undefined` replaces
      the stored one. `None` when a tags value that is not a string makes `split` throw, or when
      a description that is not a string or an `isPublic` outside the Boolean cast fails the
      save. */
  function UpdateFields(f: FileModel.FileRecord, body: Json.Value): (r: Option<FileModel.FileRecord>)
    ensures r.Some? ==> r.value.(description := f.description, tags := f.tags, isPublic := f.isPublic) == f
    ensures r.Some? <==>
      && (Json.Get(body, "description").None? || Json.Get(body, "description").value.Str?)
      && (Json.Get(body, "tags").None? || Json.Get(body, "tags").value.Str?)
      && (Json.Get(body, "isPublic").None? || CastBoolean(Json.Get(body, "isPublic").value).Some?)
    ensures r.Some? && Json.Get(body, "description").None? ==> r.value.description == f.description
    ensures r.Some? && Json.Get(body, "tags").None? ==> r.value.tags == f.tags
    ensures r.Some? && Json.Get(body, "isPublic").None? ==> r.value.isPublic == f.isPublic
    ensures r.Some? && Json.Get(body, "description").Some? ==>
      r.value.description == Json.Get(body, "description").value.s
    ensures r.Some? && Json.Get(body, "tags").Some? ==> r.value.tags == ParseTags(Json.Get(body, "tags").value.s)
    ensures r.Some? && Json.Get(body, "isPublic").Some? ==>
      Some(r.value.isPublic) == CastBoolean(Json.Get(body, "isPublic").value)
  {
    var description := Json.Get(body, "description");
    var tags := Json.Get(body, "tags");
    var isPublic := Json.Get(body, "isPublic");
    if description.Some? && !description.value.Str? then None
    else if tags.Some? && !tags.value.Str? then None
    else if isPublic.Some? && CastBoolean(isPublic.value).None? then None
    else
      Some(f.(description := if description.Some? then description.value.s else f.description,
              tags := if tags.Some? then ParseTags(tags.value.s) else f.tags,
              isPublic := if isPublic.Some? then CastBoolean(isPublic.value).value else f.isPublic))
  }

  /** `updateFile`: only the uploader may update. `uploadedBy.toString()` throws when the file
      has no uploader, and the requesting user is always set on this authenticated route. */
  function UpdateFile(store: seq<FileModel.FileRecord>, id: Option<FileModel.FileId>, user: Principal,
                      body: Json.Value, now: nat): (r: (UpdateOutcome, seq<FileModel.FileRecord>))
    ensures !r.0.Updated? ==> r.1 == store
    ensures r.0.UpdateNotFound? <==> id.Some? && !FileModel.IdTaken(store, id.value)
    ensures r.0.Updated? ==>
      && id.Some? && FileModel.IndexOfId(store, id.value).Some?
      && var i := FileModel.IndexOfId(store, id.value).value;
      && store[i].uploadedBy == Some(user.id)
      && UpdateFields(store[i], body) == Some(r.0.file.(updatedAt := store[i].updatedAt))
      && r.0.file.updatedAt == now
      && r.1 == store[i := r.0.file]
  {
    if id.None? then (UpdateThrew, store)
    else
      var i := FileModel.IndexOfId(store, id.value);
      if i.None? then (UpdateNotFound, store)
      else
        var f := store[i.value];
        if f.uploadedBy.None? then (UpdateThrew, store)
        else if f.uploadedBy.value != user.id then (UpdateDenied, store)
        else
          var g := UpdateFields(f, body);
          if g.None? then (UpdateThrew, store)
          else
            var saved := FileModel.Touch(g.value, now);
            (Updated(saved), store[i.value := saved])
  }

  /** For a stored file: the update goes through exactly when the requester uploaded it and the
      body's fields cast; a file without an uploader cannot be updated by anyone. */
  lemma UpdateAllowedIff(store: seq<FileModel.FileRecord>, i: nat, user: Principal, body: Json.Value, now: nat)
    requires i < |store| && FileModel.UniqueIds(store)
    ensures var r := UpdateFile(store, Some(store[i].id), user, body, now);
      && (r.0.Updated? <==> store[i].uploadedBy == Some(user.id) && UpdateFields(store[i], body).Some?)
      && (store[i].uploadedBy.None? ==> r.0.UpdateThrew?)
  {
    FileIndex(store, i);
  }

  datatype DeleteOutcome = DeleteThrew | DeleteNotFound | DeleteDenied | Deleted

  function DeleteStatus(r: DeleteOutcome): int {
    match r
    case DeleteThrew => 500
    case DeleteNotFound => 404
    case DeleteDenied => 403
    case Deleted => 200
  }

  /** `deleteFile`: the uploader or an admin may delete; the record goes whatever the cloud
      deletion does. `uploadedBy.toString()` is evaluated first, so a file without an uploader
      throws even for an admin. */
  function DeleteFile(store: seq<FileModel.FileRecord>, id: Option<FileModel.FileId>, user: Principal)
    : (r: (DeleteOutcome, seq<FileModel.FileRecord>))
    ensures !r.0.Deleted? ==> r.1 == store
    ensures r.0.DeleteNotFound? <==> id.Some? && !FileModel.IdTaken(store, id.value)
    ensures r.0.Deleted? ==>
      && id.Some? && FileModel.IndexOfId(store, id.value).Some?
      && var i := FileModel.IndexOfId(store, id.value).value;
      && (store[i].uploadedBy == Some(user.id) || (store[i].uploadedBy.Some? && user.role == "admin"))
      && r.1 == Collections.RemoveAt(store, i)
  {
    if id.None? then (DeleteThrew, store)
    else
      var i := FileModel.IndexOfId(store, id.value);
      if i.None? then (DeleteNotFound, store)
      else
        var f := store[i.value];
        if f.uploadedBy.None? then (DeleteThrew, store)
        else if f.uploadedBy.value != user.id && user.role != "admin" then (DeleteDenied, store)
        else (Deleted, Collections.RemoveAt(store, i.value))
  }

  /** For a stored file: deletion goes through exactly when the requester uploaded it or is an
      admin and the file has an uploader; afterwards no record has that id and every other
      record is kept. */
  lemma DeleteAllowedIff(store: seq<FileModel.FileRecord>, i: nat, user: Principal)
    requires i < |store| && FileModel.UniqueIds(store)
    ensures var r := DeleteFile(store, Some(store[i].id), user);
      && (r.0.Deleted? <==> store[i].uploadedBy.Some? && (store[i].uploadedBy.value == user.id || user.role == "admin"))
      && (r.0.Deleted? ==> !FileModel.IdTaken(r.1, store[i].id))
      && (r.0.Deleted? ==> multiset(r.1) + multiset{store[i]} == multiset(store))
  {
    FileIndex(store, i);
    var r := DeleteFile(store, Some(store[i].id), user);
    if r.0.Deleted? {
      assert r.1 == store[..i] + store[i + 1..];
      assert store == store[..i] + [store[i]] + store[i + 1..];
      forall j | 0 <= j < |r.1| ensures r.1[j].id != store[i].id {
        if j < i {
          assert r.1[j] == store[j];
        } else {
          assert r.1[j] == store[j + 1];
        }
      }
    }
  }

  /** Files from the public upload have no uploader, so no one (not even an admin) can update
      or delete them: both handlers throw. */
  lemma PublicUploadsAreFixed(store: seq<FileModel.FileRecord>, files: seq<Incoming>, body: Json.Value,
                              cloud: nat -> Option<CloudResult>, now: nat, k: nat, user: Principal,
                              change: Json.Value, later: nat)
    requires FileModel.UniqueIds(store)
    requires UploadMultipleFilesPublic(store, files, body, cloud, now).0.Uploaded? && k < |files|
    ensures var r := UploadMultipleFilesPublic(store, files, body, cloud, now);
      var id := r.0.files[k].id;
      && UpdateFile(r.1, Some(id), user, change, later).0.UpdateThrew?
      && DeleteFile(r.1, Some(id), user).0.DeleteThrew?
  {
    var r := UploadMultipleFilesPublic(store, files, body, cloud, now);
    var fields := PublicFields(body).value;
    UploadAllKeepsIdsUnique(files, 0, cloud, None, fields, LocalStorage.GetFileCategory, store, now);
    assert r.1 == UploadAll(files, 0, cloud, None, fields, LocalStorage.GetFileCategory, store, now).store;
    assert r.1[|store| + k] == r.0.files[k];
    UpdateAllowedIff(r.1, |store| + k, user, change, later);
    DeleteAllowedIff(r.1, |store| + k, user);
  }

  // ---------------------------------------------------------------------------------------
  // Statistics
  // ---------------------------------------------------------------------------------------

  datatype CategoryStat = CategoryStat(count: nat, totalSize: int, totalDownloads: int)

  datatype FileStats = FileStats(totalFiles: nat, publicFiles: nat, privateFiles: nat, totalSize: int,
                                 totalDownloads: int, categoryStats: map<FileModel.Category, CategoryStat>)

  predicate IsPublicFile(f: FileModel.FileRecord) {
    f.isPublic
  }

  predicate IsPrivateFile(f: FileModel.FileRecord) {
    !f.isPublic
  }

  function FileSize(f: FileModel.FileRecord): int {
    f.fileSize
  }

  function Downloads(f: FileModel.FileRecord): int {
    f.downloadCount
  }

  function InCategory(c: FileModel.Category): FileModel.FileRecord -> bool {
    (f: FileModel.FileRecord) => f.category == c
  }

  function CategoryCount(store: seq<FileModel.FileRecord>, c: FileModel.Category): nat {
    Collections.CountWhere(store, InCategory(c))
  }

  const AllCategories: set<FileModel.Category> :=
    {FileModel.Document, FileModel.Image, FileModel.Video, FileModel.Audio, FileModel.Other}

  /** The aggregate totals: the group's sum, or 0 when there is no group (no files). */
  function Total(store: seq<FileModel.FileRecord>, f: FileModel.FileRecord -> int): int {
    if |store| > 0 then Collections.IntSum(store, f) else 0
  }

  /** `getFileStats`: the counts, the totals, and one group per category that occurs. */
  function GetFileStats(store: seq<FileModel.FileRecord>): (s: FileStats)
    ensures s.totalFiles == |store| && s.publicFiles + s.privateFiles == s.totalFiles
    ensures s.publicFiles == |Collections.Filter(store, IsPublicFile)|
    ensures s.privateFiles == |Collections.Filter(store, IsPrivateFile)|
    ensures s.totalSize == Collections.IntSum(store, FileSize)
    ensures s.totalDownloads == Collections.IntSum(store, Downloads)
    ensures store == [] ==> s.totalSize == 0 && s.totalDownloads == 0
    ensures forall c :: c in s.categoryStats <==> CategoryCount(store, c) > 0
    ensures forall c :: c in s.categoryStats ==>
      && s.categoryStats[c].count == CategoryCount(store, c) == |Collections.Filter(store, InCategory(c))|
      && s.categoryStats[c].totalSize == CategoryTotal(store, c, FileSize)
      && s.categoryStats[c].totalDownloads == CategoryTotal(store, c, Downloads)
  {
    Collections.CountSplits(store, IsPublicFile, IsPrivateFile);
    Collections.CountFilter(store, IsPublicFile);
    Collections.CountFilter(store, IsPrivateFile);
    forall c | c in AllCategories {
      Collections.CountFilter(store, InCategory(c));
    }
    FileStats(|store|, Collections.CountWhere(store, IsPublicFile), Collections.CountWhere(store, IsPrivateFile),
              Total(store, FileSize), Total(store, Downloads),
              map c | c in AllCategories && CategoryCount(store, c) > 0 ::
                CategoryStat(CategoryCount(store, c), CategoryTotal(store, c, FileSize), CategoryTotal(store, c, Downloads)))
  }

  /** The category groups partition the collection: their counts add up to all files. */
  lemma {:induction false} CategoryCountsAddUp(store: seq<FileModel.FileRecord>)
    ensures CategoryCount(store, FileModel.Document) + CategoryCount(store, FileModel.Image)
            + CategoryCount(store, FileModel.Video) + CategoryCount(store, FileModel.Audio)
            + CategoryCount(store, FileModel.Other) == |store|
  {
    if store != [] {
      CategoryCountsAddUp(store[1..]);
    }
  }

  /** The sum of a field over the files of category `c`. */
  function CategoryTotal(store: seq<FileModel.FileRecord>, c: FileModel.Category, f: FileModel.FileRecord -> int): int {
    Collections.IntSum(Collections.Filter(store, InCategory(c)), f)
  }

  /** Every file lies in exactly one category group, so the group totals of any field add up
      to the field's total over the whole collection. */
  lemma {:induction false} CategoryTotalsAddUp(store: seq<FileModel.FileRecord>, f: FileModel.FileRecord -> int)
    ensures CategoryTotal(store, FileModel.Document, f) + CategoryTotal(store, FileModel.Image, f)
            + CategoryTotal(store, FileModel.Video, f) + CategoryTotal(store, FileModel.Audio, f)
            + CategoryTotal(store, FileModel.Other, f) == Collections.IntSum(store, f)
  {
    if store != [] {
      CategoryTotalsAddUp(store[1..], f);
      var x := store[0];
      forall c ensures CategoryTotal(store, c, f) == (if x.category == c then f(x) else 0) + CategoryTotal(store[1..], c, f) {
        if x.category == c {
          var rest := Collections.Filter(store[1..], InCategory(c));
          assert Collections.Filter(store, InCategory(c)) == [x] + rest;
          assert ([x] + rest)[1..] == rest;
        }
      }
    }
  }

  /** The served statistics agree with themselves: the per-category sizes and downloads add up
      to the totals over all files. */
  lemma StatsCategoriesAddUp(store: seq<FileModel.FileRecord>)
    ensures var s := GetFileStats(store);
      && CategoryTotal(store, FileModel.Document, FileSize) + CategoryTotal(store, FileModel.Image, FileSize)
         + CategoryTotal(store, FileModel.Video, FileSize) + CategoryTotal(store, FileModel.Audio, FileSize)
         + CategoryTotal(store, FileModel.Other, FileSize) == s.totalSize
      && CategoryTotal(store, FileModel.Document, Downloads) + CategoryTotal(store, FileModel.Image, Downloads)
         + CategoryTotal(store, FileModel.Video, Downloads) + CategoryTotal(store, FileModel.Audio, Downloads)
         + CategoryTotal(store, FileModel.Other, Downloads) == s.totalDownloads
  {
    CategoryTotalsAddUp(store, FileSize);
    CategoryTotalsAddUp(store, Downloads);
  }

  /** A granted download adds exactly one to the total downloads and leaves the other totals
      alone. */
  lemma DownloadAddsOne(store: seq<FileModel.FileRecord>, id: Option<FileModel.FileId>, user: Option<Principal>,
                        now: nat)
    requires DownloadFile(store, id, user, now).0.Redirect?
    ensures var before := GetFileStats(store); var after := GetFileStats(DownloadFile(store, id, user, now).1);
      && after.totalDownloads == before.totalDownloads + 1
      && after.totalFiles == before.totalFiles && after.publicFiles == before.publicFiles
      && after.totalSize == before.totalSize
  {
    var i := FileModel.IndexOfId(store, id.value).value;
    var g := Counted(store[i], now);
    assert DownloadFile(store, id, user, now).1 == store[i := g];
    Collections.IntSumReplace(store, i, g, Downloads);
    Collections.IntSumReplace(store, i, g, FileSize);
    Collections.CountWhereReplace(store, i, g, IsPublicFile);
  }

  /** A multi-file upload that succeeds adds its records to the counts and their sizes to the
      total size. */
  lemma UploadAddsSizes(store: seq<FileModel.FileRecord>, files: seq<Incoming>, body: Json.Value,
                        user: Option<Principal>, cloud: nat -> Option<CloudResult>, now: nat)
    requires UploadMultipleFiles(store, files, body, user, cloud, now).0.Uploaded?
    ensures var r := UploadMultipleFiles(store, files, body, user, cloud, now);
      && GetFileStats(r.1).totalFiles == |store| + |files|
      && GetFileStats(r.1).totalSize == GetFileStats(store).totalSize + Collections.IntSum(r.0.files, FileSize)
  {
    var r := UploadMultipleFiles(store, files, body, user, cloud, now);
    Collections.IntSumAppend(store, r.0.files, FileSize);
  }

  // ---------------------------------------------------------------------------------------
  // Listings
  // ---------------------------------------------------------------------------------------

  function CreatedAt(f: FileModel.FileRecord): int {
    f.createdAt
  }

  /** `getAllFiles`: every file, newest first. */
  function GetAllFiles(store: seq<FileModel.FileRecord>): (r: seq<FileModel.FileRecord>)
    ensures multiset(r) == multiset(store)
    ensures Collections.NewestFirst(r, CreatedAt)
  {
    Collections.SortNewestFirst(store, CreatedAt)
  }

  /** `getPublicFiles`: exactly the public files, newest first. */
  function GetPublicFiles(store: seq<FileModel.FileRecord>): (r: seq<FileModel.FileRecord>)
    ensures forall f :: f in r <==> f in store && f.isPublic
    ensures Collections.NewestFirst(r, CreatedAt)
  {
    var s := Collections.Filter(store, IsPublicFile);
    var r := Collections.SortNewestFirst(s, CreatedAt);
    Collections.SameElements(r, s);
    r
  }

  /** `getUserFiles`: exactly the files the requesting user uploaded, newest first. */
  function GetUserFiles(store: seq<FileModel.FileRecord>, user: Principal): (r: seq<FileModel.FileRecord>)
    ensures forall f :: f in r <==> f in store && f.uploadedBy == Some(user.id)
    ensures Collections.NewestFirst(r, CreatedAt)
  {
    var s := Collections.Filter(store, (f: FileModel.FileRecord) => f.uploadedBy == Some(user.id));
    var r := Collections.SortNewestFirst(s, CreatedAt);
    Collections.SameElements(r, s);
    r
  }

  // ---------------------------------------------------------------------------------------
  // The handlers that change documents
  // ---------------------------------------------------------------------------------------

  /** The File collection as the handlers change it: a fetched document is modified in place
      and saved back, and the upload loops save one document per file. */
  class FileCollection {
    var files: seq<FileModel.FileRecord>

    constructor()
      ensures files == []
    {
      files := [];
    }

    /** `downloadFile`: on a granted download the counter of the found document goes up by one
        and the document is saved. */
    method Download(id: Option<FileModel.FileId>, user: Option<Principal>, now: nat) returns (r: DownloadOutcome)
      modifies this
      ensures (r, files) == DownloadFile(old(files), id, user, now)
    {
      if id.None? {
        return DownloadThrew;
      }
      var i := FileModel.IndexOfId(files, id.value);
      if i.None? {
        return DownloadNotFound;
      }
      var file := files[i.value];
      if !file.isPublic {
        if user.None? {
          return DownloadDenied;
        }
        if file.uploadedBy.None? {
          return DownloadThrew;
        }
        if file.uploadedBy.value != user.value.id {
          return DownloadDenied;
        }
      }
      file := file.(downloadCount := file.downloadCount + 1);
      file := FileModel.Touch(file, now);
      files := files[i.value := file];
      r := Redirect(file.fileUrl);
    }

    /** `updateFile`: the guarded assignments on the fetched document, then the save, which
        fails when an assigned value did not cast. */
    method Update(id: Option<FileModel.FileId>, user: Principal, body: Json.Value, now: nat) returns (r: UpdateOutcome)
      modifies this
      ensures (r, files) == UpdateFile(old(files), id, user, body, now)
    {
      if id.None? {
        return UpdateThrew;
      }
      var i := FileModel.IndexOfId(files, id.value);
      if i.None? {
        return UpdateNotFound;
      }
      var file := files[i.value];
      if file.uploadedBy.None? {
        return UpdateThrew;
      }
      if file.uploadedBy.value != user.id {
        return UpdateDenied;
      }
      var description := Json.Get(body, "description");
      var tags := Json.Get(body, "tags");
      var isPublic := Json.Get(body, "isPublic");
      var castFailed := false;
      if description.Some? {
        if description.value.Str? {
          file := file.(description := description.value.s);
        } else {
          castFailed := true;
        }
      }
      if tags.Some? {
        if !tags.value.Str? {
          return UpdateThrew;
        }
        file := file.(tags := ParseTags(tags.value.s));
      }
      if isPublic.Some? {
        var b := CastBoolean(isPublic.value);
        if b.Some? {
          file := file.(isPublic := b.value);
        } else {
          castFailed := true;
        }
      }
      if castFailed {
        return UpdateThrew;
      }
      file := FileModel.Touch(file, now);
      files := files[i.value := file];
      r := Updated(file);
    }

    /** `deleteFile`: the access check, then the document is removed. */
    method Delete(id: Option<FileModel.FileId>, user: Principal) returns (r: DeleteOutcome)
      modifies this
      ensures (r, files) == DeleteFile(old(files), id, user)
    {
      if id.None? {
        return DeleteThrew;
      }
      var i := FileModel.IndexOfId(files, id.value);
      if i.None? {
        return DeleteNotFound;
      }
      var file := files[i.value];
      if file.uploadedBy.None? {
        return DeleteThrew;
      }
      if file.uploadedBy.value != user.id && user.role != "admin" {
        return DeleteDenied;
      }
      files := Collections.RemoveAt(files, i.value);
      r := Deleted;
    }

    /** The loop of the multi-file uploads: each file is uploaded, saved and pushed onto the
        result; the first failure ends the loop and leaves the earlier saves in place. */
    method SaveEach(incoming: seq<Incoming>, cloud: nat -> Option<CloudResult>,
                    uploadedBy: Option<UserModel.UserId>, fields: UploadFields, now: nat)
      returns (failed: bool, uploaded: seq<FileModel.FileRecord>)
      modifies this
      ensures UploadRun(failed, uploaded, files)
        == UploadAll(incoming, 0, cloud, uploadedBy, fields, LocalStorage.GetFileCategory, old(files), now)
    {
      failed := false;
      uploaded := [];
      var classify := LocalStorage.GetFileCategory;
      var i := 0;
      while i < |incoming|
        invariant 0 <= i <= |incoming|
        invariant UploadAll(incoming, 0, cloud, uploadedBy, fields, classify, old(files), now)
          == Continue(uploaded, UploadAll(incoming[i..], i, cloud, uploadedBy, fields, classify, files, now))
      {
        var saved := SaveOne(incoming[i], cloud(i), uploadedBy, fields, classify, files, now);
        if saved.None? {
          UploadAllFailed(incoming, i, cloud, uploadedBy, fields, classify, files, now, uploaded);
          return true, uploaded;
        }
        UploadAllSaved(incoming, i, cloud, uploadedBy, fields, classify, files, now, uploaded, saved.value);
        files := files + [saved.value];
        uploaded := uploaded + [saved.value];
        i := i + 1;
      }
      assert incoming[i..] == [];
      assert uploaded + [] == uploaded;
    }
  
    /** `uploadFile` */
    method Upload(incoming: Option<Incoming>, body: Json.Value, user: Option<Principal>, cloud: Option<CloudResult>,
                  now: nat) returns (r: UploadOutcome)
      modifies this
      ensures (r, files) == UploadFile(old(files), incoming, body, user, cloud, now)
    {
      if incoming.None? {
        return NoFileUploaded;
      }
      var fields := AuthenticatedFields(body);
      if fields.None? {
        return UploadFailed;
      }
      var saved := SaveOne(incoming.value, cloud, UploaderOf(user), fields.value, LocalStorage.GetFileCategory, files, now);
      if saved.None? {
        return UploadFailed;
      }
      files := files + [saved.value];
      r := Uploaded([saved.value]);
    }

    /** `uploadMultipleFiles` */
    method UploadMultiple(incoming: seq<Incoming>, body: Json.Value, user: Option<Principal>,
                          cloud: nat -> Option<CloudResult>, now: nat) returns (r: UploadOutcome)
      modifies this
      ensures (r, files) == UploadMultipleFiles(old(files), incoming, body, user, cloud, now)
    {
      if incoming == [] {
        return NoFileUploaded;
      }
      var fields := AuthenticatedFields(body);
      if fields.None? {
        return UploadFailed;
      }
      var failed, uploaded := SaveEach(incoming, cloud, UploaderOf(user), fields.value, now);
      r := if failed then UploadFailed else Uploaded(uploaded);
    }

    /** `uploadMultipleFilesPublic` */
    method UploadMultiplePublic(incoming: seq<Incoming>, body: Json.Value, cloud: nat -> Option<CloudResult>,
                                now: nat) returns (r: UploadOutcome)
      modifies this
      ensures (r, files) == UploadMultipleFilesPublic(old(files), incoming, body, cloud, now)
    {
      if incoming == [] {
        return NoFileUploaded;
      }
      var fields := PublicFields(body);
      if fields.None? {
        return UploadFailed;
      }
      var failed, uploaded := SaveEach(incoming, cloud, None, fields.value, now);
      r := if failed then UploadFailed else Uploaded(uploaded);
    }
  }
}
