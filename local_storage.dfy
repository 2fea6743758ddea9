/**
 * The local upload configuration (utils/localStorage.js): the MIME type allowlist
 * of the file filter, the 50 MB size limit, the stored file name
 * `<name before the first dot>_<Date.now()><extension>`, and the category derived
 * from a MIME type.
 */
module LocalStorage {
  import opened Wrappers
  import JsString
  import FileModel

  /** The MIME types the file filter lets through. */
  const AllowedTypes: seq<string> := [
    "image/jpeg",
    "image/jpg",
    "image/png",
    "image/gif",
    "application/pdf",
    "application/msword",
    WordDocxType,
    "text/plain",
    "video/mp4",
    "audio/mpeg",
    "audio/wav"
  ]

  /** The MIME type of a current Word document,
      "application/vnd.openxmlformats-officedocument.wordprocessingml.document". */
  const WordDocxType := "application/" + "vnd.openxmlformats-" + "officedocument." + "wordprocessingml." + "document"

  /** `limits.fileSize`: 50 * 1024 * 1024 bytes. */
  const MaxFileSize: nat := 50 * 1024 * 1024

  /** The file filter: a file is accepted exactly when its MIME type is on the list. */
  predicate FileFilter(mimetype: string) {
    mimetype in AllowedTypes
  }

  datatype Intake = Accepted | InvalidFileType | FileTooLarge

  /** What the upload middleware does with one incoming file: the filter runs when the
      file starts, before any byte is counted, and the size limit admits at most
      `MaxFileSize` bytes. */
  function Admit(mimetype: string, size: nat): (r: Intake)
    ensures r.Accepted? <==> mimetype in AllowedTypes && size <= MaxFileSize
    ensures r.InvalidFileType? <==> mimetype !in AllowedTypes
  {
    if !FileFilter(mimetype) then InvalidFileType
    else if size > MaxFileSize then FileTooLarge
    else Accepted
  }

  /** Node's `path.extname` of a name without path separators: from the last dot to the end,
      or "" when there is no dot, when the only dot starts the name (".env"), or for "..". */
  function ExtName(name: string): (r: string)
    ensures r == "" || (r[0] == '.' && '.' !in r[1..])
    ensures |r| <= |name| && r == name[|name| - |r|..]
    ensures '.' !in name ==> r == ""
  {
    var dot := JsString.LastIndexOf(name, '.');
    if dot.None? || dot.value == 0 || name == ".." then ""
    else
      assert name[dot.value..][1..] == name[dot.value + 1..];
      name[dot.value..]
  }

  /** `originalname.split('.')[0]`: the text before the first dot. */
  function BaseName(name: string): (r: string)
    ensures '.' !in r
    ensures |r| <= |name| && r == name[..|r|]
  {
    JsString.SplitHead(name, '.');
    JsString.Split(name, '.')[0]
  }

  /** The disk storage's `filename`: `<base name>_<Date.now()><extension>`. */
  function StoredFileName(originalName: string, now: nat): string {
    BaseName(originalName) + "_" + JsString.Decimal(now) + ExtName(originalName)
  }

  /** A name with a single dot that does not start it is split into exactly two parts, so the
      stored name is the original with the time stamp put in front of the extension. */
  lemma {:induction false} StoredFileNameKeepsSimpleName(name: string, now: nat)
    requires JsString.Count(name, '.') == 1 && name[0] != '.'
    ensures BaseName(name) + ExtName(name) == name
    ensures StoredFileName(name, now) == BaseName(name) + "_" + JsString.Decimal(now) + ExtName(name)
  {
    CountPositive(name, '.');
    JsString.SplitHead(name, '.');
    var b := BaseName(name);
    var dot := JsString.LastIndexOf(name, '.');
    assert name[|b|] == '.';
    assert forall k :: 0 <= k < |b| ==> name[k] == b[k];
    assert dot.value == |b| by {
      if dot.value > |b| {
        TwoDots(name, '.', |b|, dot.value);
      }
    }
    assert name == name[..|b|] + name[|b|..];
  }

  /** The base name and the extension survive in the stored name, and the stored name
      determines the time stamp. */
  lemma StoredFileNameParts(name: string, t1: nat, t2: nat)
    ensures JsString.StartsWith(StoredFileName(name, t1), BaseName(name) + "_")
    ensures StoredFileName(name, t1) == StoredFileName(name, t2) ==> t1 == t2
  {
    var b := BaseName(name) + "_";
    var e := ExtName(name);
    var s1 := StoredFileName(name, t1);
    assert s1 == b + (JsString.Decimal(t1) + e);
    assert s1[..|b|] == b;
    if s1 == StoredFileName(name, t2) {
      var d1 := JsString.Decimal(t1);
      var d2 := JsString.Decimal(t2);
      assert s1[|b|..|s1| - |e|] == d1;
      assert StoredFileName(name, t2)[|b|..|s1| - |e|] == d2;
      JsString.DecimalInjective(t1, t2);
    }
  }

  lemma BaseNameOf(b: string, rest: string)
    requires '.' !in b
    ensures BaseName(b + "." + rest) == b
  {
    var name := b + "." + rest;
    JsString.SplitHead(name, '.');
    assert name[|b|] == '.';
    assert forall k :: 0 <= k < |b| ==> name[k] == b[k];
  }

  lemma ExtNameOf(pre: string, e: string)
    requires pre != "" && e != "" && '.' !in e
    ensures ExtName(pre + "." + e) == "." + e
  {
    var name := pre + "." + e;
    JsString.LastIndexOfSplit(pre, '.', e);
    assert |name| > 2 && name != "..";
    assert ExtName(name) == name[|pre|..];
    assert name[|pre|..] == "." + e;
  }

  /** Everything between the first and the last dot is dropped, so two names that differ only
      there ("report.v1.pdf", "report.v2.pdf") get the same stored name when they are stored in
      the same millisecond, as the files of one multi-file upload can be. */
  lemma MiddleSegmentsDropped(b: string, m1: string, m2: string, e: string, now: nat)
    requires '.' !in b && '.' !in e && e != ""
    ensures StoredFileName(b + "." + m1 + "." + e, now) == b + "_" + JsString.Decimal(now) + "." + e
    ensures StoredFileName(b + "." + m1 + "." + e, now) == StoredFileName(b + "." + m2 + "." + e, now)
  {
    assert b + "." + m1 + "." + e == b + "." + (m1 + "." + e);
    assert b + "." + m2 + "." + e == b + "." + (m2 + "." + e);
    BaseNameOf(b, m1 + "." + e);
    BaseNameOf(b, m2 + "." + e);
    ExtNameOf(b + "." + m1, e);
    ExtNameOf(b + "." + m2, e);
  }

  /** `getFileCategory`: the type prefixes first, then the substrings "pdf", "document"
      and "text", and "other" when nothing matched. */
  function GetFileCategory(mimetype: string): (r: string)
    ensures FileModel.ParseCategory(r).Some?
    ensures JsString.StartsWith(mimetype, "image/") ==> r == "image"
    ensures r == "other" ==> !JsString.Includes(mimetype, "pdf") && !JsString.Includes(mimetype, "document")
                             && !JsString.Includes(mimetype, "text")
  {
    if JsString.StartsWith(mimetype, "image/") then "image"
    else if JsString.StartsWith(mimetype, "video/") then "video"
    else if JsString.StartsWith(mimetype, "audio/") then "audio"
    else if JsString.Includes(mimetype, "pdf") || JsString.Includes(mimetype, "document")
            || JsString.Includes(mimetype, "text") then "document"
    else "other"
  }

  lemma MswordHasNoMediaPrefix(m: string)
    requires m == "application/msword"
    ensures !JsString.StartsWith(m, "image/") && !JsString.StartsWith(m, "video/") && !JsString.StartsWith(m, "audio/")
  {
    JsString.NotStartsWith(m, "image/", 0);
    JsString.NotStartsWith(m, "video/", 0);
    JsString.NotStartsWith(m, "audio/", 1);
  }

  lemma MswordHasNoDocumentWord(m: string)
    requires m == "application/msword"
    ensures !JsString.Includes(m, "pdf") && !JsString.Includes(m, "document") && !JsString.Includes(m, "text")
  {
    MswordLacks(m, 'f');
    JsString.AbsentCharExcludes(m, "pdf", 2);
    MswordLacks(m, 'u');
    JsString.AbsentCharExcludes(m, "document", 3);
    MswordLacks(m, 'x');
    JsString.AbsentCharExcludes(m, "text", 2);
  }

  lemma MswordLacks(m: string, c: char)
    requires m == "application/msword"
    requires c == 'f' || c == 'u' || c == 'x'
    ensures c !in m
  {
    forall i | 0 <= i < |m| ensures m[i] != c {
      assert m[i] in "aplictonmswrd/";
    }
  }

  /** Neither a prefix nor a substring rule matches a Word 97 type. */
  lemma MswordIsOther(m: string)
    requires m == "application/msword"
    ensures GetFileCategory(m) == "other"
  {
    MswordHasNoMediaPrefix(m);
    MswordHasNoDocumentWord(m);
  }

  /** A type outside the three media prefixes that contains `word` occurs from index `i`
      is a document. */
  lemma IsDocument(m: string, word: string, i: nat)
    requires word == "pdf" || word == "document" || word == "text"
    requires JsString.OccursAt(m, word, i)
    requires !JsString.StartsWith(m, "image/") && !JsString.StartsWith(m, "video/") && !JsString.StartsWith(m, "audio/")
    ensures GetFileCategory(m) == "document"
  {
  }

  lemma DocumentTypesAreDocuments(m: string)
    requires m == "application/pdf" || m == WordDocxType || m == "text/plain"
    ensures GetFileCategory(m) == "document"
  {
    if m == "text/plain" {
      JsString.NotStartsWith(m, "image/", 0);
      JsString.NotStartsWith(m, "video/", 0);
      JsString.NotStartsWith(m, "audio/", 0);
      IsDocument(m, "text", 0);
    } else if m == "application/pdf" {
      JsString.NotStartsWith(m, "image/", 0);
      JsString.NotStartsWith(m, "video/", 0);
      JsString.NotStartsWith(m, "audio/", 1);
      IsDocument(m, "pdf", 12);
    } else {
      JsString.NotStartsWith(m, "image/", 0);
      JsString.NotStartsWith(m, "video/", 0);
      JsString.NotStartsWith(m, "audio/", 1);
      IsDocument(m, "document", |m| - 8);
    }
  }

  lemma MediaTypesByPrefix(m: string)
    requires m in AllowedTypes[..4] || m == "video/mp4" || m == "audio/mpeg" || m == "audio/wav"
    ensures m in AllowedTypes[..4] ==> GetFileCategory(m) == "image"
    ensures m == "video/mp4" ==> GetFileCategory(m) == "video"
    ensures m == "audio/mpeg" || m == "audio/wav" ==> GetFileCategory(m) == "audio"
  {
    if m in AllowedTypes[..4] {
      assert m[..6] == "image/";
    } else if m == "video/mp4" {
      JsString.NotStartsWith(m, "image/", 0);
      assert m[..6] == "video/";
    } else {
      JsString.NotStartsWith(m, "image/", 0);
      JsString.NotStartsWith(m, "video/", 0);
      assert m[..6] == "audio/";
    }
  }

  /** The category of every allowed type, by its place in the list: the four image types,
      then PDF, Word 97, current Word, plain text, MP4 video and the two audio types. A Word 97
      file is let in by the filter but is the only one that lands in "other". */
  lemma AllowedTypeCategory(i: nat)
    requires i < |AllowedTypes|
    ensures GetFileCategory(AllowedTypes[i]) ==
      if i < 4 then "image"
      else if i == 5 then "other"
      else if i == 8 then "video"
      else if i >= 9 then "audio"
      else "document"
  {
    var m := AllowedTypes[i];
    if i == 5 {
      MswordIsOther(m);
    } else if i == 4 || i == 6 || i == 7 {
      DocumentTypesAreDocuments(m);
    } else {
      MediaTypesByPrefix(m);
    }
  }

  lemma {:induction false} CountPositive(s: string, d: char)
    requires JsString.Count(s, d) > 0
    ensures d in s
  {
    if s[0] != d {
      CountPositive(s[1..], d);
    }
  }

  /** Two occurrences of `d` make its count at least two. */
  lemma {:induction false} TwoDots(s: string, d: char, i: nat, j: nat)
    requires i < j < |s| && s[i] == d && s[j] == d
    ensures JsString.Count(s, d) >= 2
  {
    if i == 0 {
      assert s[1..][j - 1] == d;
      CountPositive2(s[1..], d, j - 1);
    } else {
      assert s[1..][i - 1] == d && s[1..][j - 1] == d;
      TwoDots(s[1..], d, i - 1, j - 1);
    }
  }

  lemma {:induction false} CountPositive2(s: string, d: char, i: nat)
    requires i < |s| && s[i] == d
    ensures JsString.Count(s, d) >= 1
  {
    if i > 0 {
      assert s[1..][i - 1] == d;
      CountPositive2(s[1..], d, i - 1);
    }
  }
}
