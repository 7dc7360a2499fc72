/** The upload endpoint: the file's extension is checked against the
    allow-list, then its size against the limit; the file is stored under a
    fresh id plus that extension, its dimensions are read, and the response
    names the stored file and its URL. */
module Upload {
  import opened Wrappers
  import opened Text
  import opened Schemas
  import opened Http

  /** The accepted extensions, lower case, in the configured order. */
  const AllowedExtensions: seq<string> := [".jpg", ".jpeg", ".png", ".bmp", ".tiff"]

  /** The size limit in bytes (20 MiB). */
  const MaxFileSize: nat := 20 * 1024 * 1024

  /** The position of the last occurrence of `c` in `s`. */
  function LastIndexOf(s: string, c: char): (r: Option<nat>)
    ensures r.None? <==> c !in s
    ensures r.Some? ==> r.value < |s| && s[r.value] == c && c !in s[r.value + 1..]
  {
    if s == [] then None
    else if s[|s| - 1] == c then Some(|s| - 1)
    else
      var front := s[..|s| - 1];
      assert s == front + [s[|s| - 1]];
      match LastIndexOf(front, c)
      case None => None
      case Some(i) =>
        assert s[i + 1..] == front[i + 1..] + [s[|s| - 1]];
        Some(i)
  }

  /** `s` without its trailing slashes. */
  function StripTrailingSlashes(s: string): (r: string)
    ensures |r| <= |s| && r == s[..|r|]
    ensures r == [] || r[|r| - 1] != '/'
    ensures forall k :: |r| <= k < |s| ==> s[k] == '/'
  {
    if s != [] && s[|s| - 1] == '/' then StripTrailingSlashes(s[..|s| - 1]) else s
  }

  /** The final component of a POSIX path (pathlib's `name`): what follows
      the last slash once trailing slashes are dropped. */
  function PathName(p: string): (name: string)
    ensures '/' !in name
    ensures var t := StripTrailingSlashes(p);
            && |name| <= |t| && name == t[|t| - |name|..]
            && (|name| == |t| || t[|t| - |name| - 1] == '/')
  {
    var t := StripTrailingSlashes(p);
    match LastIndexOf(t, '/')
    case None => t
    case Some(i) => t[i + 1..]
  }

  /** The name's last dot is neither its first nor its last character. */
  predicate ProperLastDot(name: string) {
    exists i :: 0 < i < |name| - 1 && name[i] == '.' && '.' !in name[i + 1..]
  }

  /** pathlib's `suffix` of a final component: from its last dot on, when
      that dot is neither the first nor the last character; otherwise
      empty. */
  function NameSuffix(name: string): (s: string)
    ensures s == [] || (|s| >= 2 && s[0] == '.' && '.' !in s[1..] && |s| < |name| && s == name[|name| - |s|..])
  {
    match LastIndexOf(name, '.')
    case None => ""
    case Some(i) => if 0 < i < |name| - 1 then name[i..] else ""
  }

  /** `Path(filename).suffix.lower()`. */
  function FileExtension(filename: string): (ext: string)
    ensures ext == [] || ext[0] == '.'
    ensures |ext| == |NameSuffix(PathName(filename))|
  {
    AsciiLower(NameSuffix(PathName(filename)))
  }

  /** Python's rendering of a list of strings. */
  function ListRepr(xs: seq<string>): string {
    "[" + ListItems(xs) + "]"
  }

  function ListItems(xs: seq<string>): string {
    if xs == [] then ""
    else if |xs| == 1 then "'" + xs[0] + "'"
    else "'" + xs[0] + "', " + ListItems(xs[1..])
  }

  /** The detail of the rejection of an extension. */
  function ExtensionDetail(ext: string): string {
    "File type " + ext + " not allowed. Allowed types: " + ListRepr(AllowedExtensions)
  }

  /** The limit as the message renders it: 20971520 / 1048576 with one
      decimal. */
  const TooLargeDetail: string := "File too large. Maximum size: 20.0MB"

  /** `upload_image`. `filename` is the client's file name, `contentLength`
      the number of bytes read, `fileId` the generated uuid, `writeError`
      the failure of storing the bytes if any, and `imageSize` the outcome
      of reading the stored image's width and height. */
  function UploadImage(filename: string, contentLength: nat, fileId: string, writeError: Option<string>,
                       imageSize: Result<(int, int), string>): (r: Result<UploadResponse, HttpError>)
    ensures FileExtension(filename) !in AllowedExtensions ==>
              r == Failure(HttpError(400, ExtensionDetail(FileExtension(filename))))
    ensures FileExtension(filename) in AllowedExtensions && contentLength > MaxFileSize ==>
              r == Failure(HttpError(400, TooLargeDetail))
    ensures FileExtension(filename) in AllowedExtensions && contentLength <= MaxFileSize && writeError.Some? ==>
              r == Failure(HttpError(500, "Upload failed: " + writeError.value))
    ensures FileExtension(filename) in AllowedExtensions && contentLength <= MaxFileSize && writeError.None? && imageSize.Failure? ==>
              r == Failure(HttpError(400, "Invalid image file: " + imageSize.error))
    ensures r.Success? <==> FileExtension(filename) in AllowedExtensions && contentLength <= MaxFileSize && writeError.None? && imageSize.Success?
    ensures r.Success? ==>
              && r.value.imageId == fileId
              && r.value.filename == fileId + FileExtension(filename)
              && r.value.url == "/uploads/" + r.value.filename
              && r.value.size == contentLength
              && r.value.dimensions == map["width" := imageSize.value.0, "height" := imageSize.value.1]
  {
    var ext := FileExtension(filename);
    if ext !in AllowedExtensions then Failure(ToHttpError(HttpRaised(HttpError(400, ExtensionDetail(ext))), "Upload failed: "))
    else if contentLength > MaxFileSize then Failure(ToHttpError(HttpRaised(HttpError(400, TooLargeDetail)), "Upload failed: "))
    else
      var stored := fileId + ext;
      if writeError.Some? then Failure(ToHttpError(OtherRaised(writeError.value), "Upload failed: "))
      else match imageSize
        case Failure(msg) => Failure(ToHttpError(HttpRaised(HttpError(400, "Invalid image file: " + msg)), "Upload failed: "))
        case Success((width, height)) =>
          Success(UploadResponse(fileId, "/uploads/" + stored, stored, contentLength, map["width" := width, "height" := height]))
  }

  /** The suffix is non-empty exactly when the name has a dot that is
      neither its first nor its last character and has no dot after it. */
  lemma {:induction false} SuffixIffProperLastDot(name: string)
    ensures NameSuffix(name) != [] <==> ProperLastDot(name)
  {
    match LastIndexOf(name, '.')
    case None =>
      assert forall i | 0 <= i < |name| :: name[i] != '.';
    case Some(j) =>
      if ProperLastDot(name) {
        var i :| 0 < i < |name| - 1 && name[i] == '.' && '.' !in name[i + 1..];
        LastIndexAt(name, '.', i);
      }
  }

  /** The extension is non-empty exactly when the final path component has
      such a dot. */
  lemma ExtensionIffProperLastDot(filename: string)
    ensures FileExtension(filename) != [] <==> ProperLastDot(PathName(filename))
  {
    SuffixIffProperLastDot(PathName(filename));
  }

  /** A non-empty extension, and so every accepted one, is how the
    client's file name ends, up to letter case, once its trailing slashes
    are dropped. */
  lemma {:induction false} ExtensionEndsName(filename: string)
    requires FileExtension(filename) != ""
    ensures EndsFolded(StripTrailingSlashes(filename), FileExtension(filename))
  {
    var t := StripTrailingSlashes(filename);
    var name := PathName(filename);
    var suffix := NameSuffix(name);
    TailOfTail(t, name, suffix);
    FoldedTail(t, suffix);
    assert FileExtension(filename) == AsciiLower(suffix);
  }

  /** A tail, lower-cased, is how the string ends once lower-cased. */
  lemma FoldedTail(t: string, suffix: string)
    requires |suffix| <= |t| && suffix == t[|t| - |suffix|..]
    ensures EndsFolded(t, AsciiLower(suffix))
  {
    assert |AsciiLower(suffix)| == |suffix|;
  }

  /** `s` ends with `ext` once lower-cased. */
  predicate EndsFolded(s: string, ext: string) {
    |ext| <= |s| && AsciiLower(s[|s| - |ext|..]) == ext
  }

  /** A tail of a tail is a tail. */
  lemma TailOfTail(t: string, name: string, suffix: string)
    requires |name| <= |t| && name == t[|t| - |name|..]
    requires |suffix| <= |name| && suffix == name[|name| - |suffix|..]
    ensures suffix == t[|t| - |suffix|..]
  {
  }

  /** The position found for `c` is the one given, when `c` occurs there
      and not after it. */
  lemma LastIndexAt(s: string, c: char, i: nat)
    requires i < |s| && s[i] == c && c !in s[i + 1..]
    ensures LastIndexOf(s, c) == Some(i)
  {
  }

  /** pathlib's edge cases: the directory part is ignored and the case is
      folded. */
  lemma {:induction false} DirectoryIgnored(f: string)
    requires f == "a/photo.PNG"
    ensures FileExtension(f) == ".png"
  {
    DirectoryDropped(f);
    LastDotSplits(PathName(f));
    CaseFolded(NameSuffix(PathName(f)));
  }

  lemma {:induction false} DirectoryDropped(f: string)
    requires f == "a/photo.PNG"
    ensures PathName(f) == "photo.PNG"
  {
    assert StripTrailingSlashes(f) == f;
    assert f[2..] == "photo.PNG";
    LastIndexAt(f, '/', 1);
  }

  lemma {:induction false} LastDotSplits(name: string)
    requires name == "photo.PNG"
    ensures NameSuffix(name) == ".PNG"
  {
    assert name[6..] == "PNG";
    LastIndexAt(name, '.', 5);
    assert name[5..] == ".PNG";
  }

  lemma {:induction false} CaseFolded(suffix: string)
    requires suffix == ".PNG"
    ensures AsciiLower(suffix) == ".png"
  {
    var lower := AsciiLower(suffix);
    assert lower[0] == '.' && lower[1] == 'p' && lower[2] == 'n' && lower[3] == 'g';
  }

  /** A leading dot starts no suffix. */
  lemma {:induction false} HiddenFileHasNone(f: string)
    requires f == ".bashrc"
    ensures FileExtension(f) == ""
  {
    assert StripTrailingSlashes(f) == f;
    assert '/' !in f;
    assert f[1..] == "bashrc";
    LastIndexAt(f, '.', 0);
  }

  /** Only the last suffix counts. */
  lemma {:induction false} LastSuffixOnly(f: string)
    requires f == "x.tar.gz"
    ensures FileExtension(f) == ".gz"
  {
    assert StripTrailingSlashes(f) == f;
    assert '/' !in f;
    assert f[6..] == "gz";
    LastIndexAt(f, '.', 5);
    assert f[5..] == ".gz";
  }

  /** A trailing dot gives no suffix. */
  lemma {:induction false} TrailingDotHasNone(f: string)
    requires f == "name."
    ensures FileExtension(f) == ""
  {
    assert StripTrailingSlashes(f) == f;
    assert '/' !in f;
    assert f[5..] == "";
    LastIndexAt(f, '.', 4);
  }

  /** The size bound is inclusive: exactly the limit is stored, one byte
      more is refused. */
  lemma SizeBoundary(filename: string, fileId: string, imageSize: Result<(int, int), string>)
    requires FileExtension(filename) in AllowedExtensions
    ensures UploadImage(filename, MaxFileSize, fileId, None, imageSize).Success? <==> imageSize.Success?
    ensures UploadImage(filename, MaxFileSize + 1, fileId, None, imageSize) == Failure(HttpError(400, TooLargeDetail))
  {
  }

  /** The extension is checked before anything else: a refused extension is
      reported whatever the size and whatever storing or reading the image
      would have done. */
  lemma ExtensionCheckedFirst(filename: string, n1: nat, n2: nat, id1: string, id2: string, w1: Option<string>, w2: Option<string>,
                              s1: Result<(int, int), string>, s2: Result<(int, int), string>)
    requires FileExtension(filename) !in AllowedExtensions
    ensures UploadImage(filename, n1, id1, w1, s1) == UploadImage(filename, n2, id2, w2, s2)
    ensures UploadImage(filename, n1, id1, w1, s1).error.status == 400
  {
  }
}
