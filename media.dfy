/** The media commands of src/commands/media.ts: the extension and MIME
    lookup that guard an upload, the byte-size cell, and the three-request
    upload sequence. Local file access and the presigned PUT are given as
    data: the size statSync reports (None where it throws) and the PUT's
    status. */
module Media {
  import opened Wrappers
  import opened Js
  import opened Failures
  import opened Config
  import opened ResolveBrand
  import opened Client
  import opened Session

  /** MIME_TYPES: the only extensions an upload accepts. */
  const MimeTypes: map<string, string> := map[
    ".png" := "image/png",
    ".jpg" := "image/jpeg",
    ".jpeg" := "image/jpeg",
    ".gif" := "image/gif",
    ".webp" := "image/webp",
    ".mp4" := "video/mp4",
    ".mov" := "video/quicktime",
    ".webm" := "video/webm"
  ]

  /** String.prototype.lastIndexOf for one character: -1 when absent. */
  function LastIndexOf(s: string, c: char): (r: int)
    ensures -1 <= r < |s|
    ensures r == -1 <==> c !in s
    ensures r >= 0 ==> s[r] == c && forall j :: r < j < |s| ==> s[j] != c
  {
    if s == [] then -1
    else if s[|s| - 1] == c then |s| - 1
    else LastIndexOf(s[..|s| - 1], c)
  }

  /** The extension of a path: from its last dot on, lower-cased; a path
      without a dot is taken whole, since the source's substring treats the
      -1 that lastIndexOf reports as 0. */
  function ExtensionOf(path: string): (r: string)
    ensures |r| <= |path| && r == LowerAscii(path[|path| - |r|..])
    ensures '.' !in path ==> |r| == |path|
  {
    var dot := LastIndexOf(path, '.');
    LowerAscii(path[if dot < 0 then 0 else dot..])
  }

  /** The extension starts at the last dot and has no other dot; without a
      dot it is the whole path. */
  lemma ExtensionShape(path: string)
    ensures '.' in path ==> ExtensionOf(path)[0] == '.' && '.' !in ExtensionOf(path)[1..]
    ensures '.' !in path ==> ExtensionOf(path) == LowerAscii(path)
  {
    var dot := LastIndexOf(path, '.');
    if '.' in path {
      var ext := ExtensionOf(path);
      forall j | 1 <= j < |ext|
        ensures ext[j] != '.'
      {
        assert path[dot + j] != '.';
      }
    }
  }

  /** The MIME type listed for the path's extension, if any. */
  function ContentType(path: string): Option<string> {
    var ext := ExtensionOf(path);
    if ext in MimeTypes then Some(MimeTypes[ext]) else None
  }

  /** Every listed extension starts with a dot and maps to one of seven
      MIME types. */
  lemma ListedEntry(ext: string)
    requires ext in MimeTypes
    ensures |ext| > 0 && ext[0] == '.'
    ensures MimeTypes[ext] in {"image/png", "image/jpeg", "image/gif", "image/webp", "video/mp4", "video/quicktime", "video/webm"}
  {
    assert MimeTypes.Keys == {".png", ".jpg", ".jpeg", ".gif", ".webp", ".mp4", ".mov", ".webm"};
  }

  /** A path without a dot is never given a type, and what is given is one
      of seven MIME types. */
  lemma ContentTypeShape(path: string)
    ensures ContentType(path).Some? ==> '.' in path
    ensures ContentType(path).Some? ==>
      ContentType(path).value in {"image/png", "image/jpeg", "image/gif", "image/webp", "video/mp4", "video/quicktime", "video/webm"}
  {
    var ext := ExtensionOf(path);
    if ext in MimeTypes {
      ListedEntry(ext);
    }
  }

  /** The eight listed extensions are accepted, and .jpg and .jpeg
      both mean image/jpeg. */
  lemma AcceptedExtensions(path: string)
    ensures ContentType(path).Some? <==>
      ExtensionOf(path) in {".png", ".jpg", ".jpeg", ".gif", ".webp", ".mp4", ".mov", ".webm"}
    ensures ExtensionOf(path) in {".jpg", ".jpeg"} ==> ContentType(path) == Some("image/jpeg")
  {
    assert MimeTypes.Keys == {".png", ".jpg", ".jpeg", ".gif", ".webp", ".mp4", ".mov", ".webm"};
  }

  lemma {:induction false} LastDotOfLowered(s: string)
    ensures LastIndexOf(LowerAscii(s), '.') == LastIndexOf(s, '.')
  {
    if s != [] {
      assert LowerAscii(s)[..|s| - 1] == LowerAscii(s[..|s| - 1]);
      LastDotOfLowered(s[..|s| - 1]);
    }
  }

  lemma LowerSuffix(s: string, k: nat)
    requires k <= |s|
    ensures LowerAscii(s)[k..] == LowerAscii(s[k..])
  {
  }

  lemma LowerTwice(s: string)
    ensures LowerAscii(LowerAscii(s)) == LowerAscii(s)
  {
  }

  /** Matching is case-insensitive: a path and its lower-cased form get the
      same extension and so the same MIME type. */
  lemma ContentTypeIgnoresCase(path: string)
    ensures ExtensionOf(LowerAscii(path)) == ExtensionOf(path)
    ensures ContentType(LowerAscii(path)) == ContentType(path)
  {
    LastDotOfLowered(path);
    var dot := LastIndexOf(path, '.');
    var start := if dot < 0 then 0 else dot;
    calc {
      ExtensionOf(LowerAscii(path));
      LowerAscii(LowerAscii(path)[start..]);
      { LowerSuffix(path, start); }
      LowerAscii(LowerAscii(path[start..]));
      { LowerTwice(path[start..]); }
      LowerAscii(path[start..]);
    }
  }

  /** The size column's transform for the values it handles exactly: a falsy
      value shows "-", a number below 1024 shows "<n>B", and true, which the
      comparison takes as 1, shows "trueB". The KB and MB forms use
      floating-point rounding, and other truthy values go through JavaScript's
      string-to-number conversion; neither is modelled (None). */
  function SizeCell(v: Value): (r: Option<string>)
    ensures !Truthy(v) ==> r == Some("-")
    ensures Truthy(v) && v.Num? && v.n < 1024 ==> r == Some(IntToString(v.n) + "B")
    ensures v == Bool(true) ==> r == Some("trueB")
    ensures r.None? <==> Truthy(v) && !(v.Num? && v.n < 1024) && !v.Bool?
  {
    if !Truthy(v) then Some("-")
    else if v.Num? && v.n < 1024 then Some(IntToString(v.n) + "B")
    else if v.Bool? then Some("trueB")
    else None
  }

  /** The file name of a POSIX path without a trailing slash: what follows
      its last slash, or the whole path when it has none. */
  function Basename(path: string): (r: string)
    ensures '/' !in r
    ensures |r| <= |path| && r == path[|path| - |r|..]
    ensures '/' !in path ==> r == path
    ensures |r| < |path| ==> path[|path| - |r| - 1] == '/'
  {
    path[LastIndexOf(path, '/') + 1..]
  }

  function MediaPath(brandId: string): string {
    "/brands/" + brandId + "/media"
  }

  /** The presigned upload the first request answers with. */
  datatype UploadSlot = UploadSlot(id: string, uploadUrl: string)

  /** One externally visible step of an upload, in the order taken. */
  datatype Step = StatFile(path: string) | Send(request: HttpRequest) | PutBytes(url: string, contentType: string)

  /** What upload reports: the media id and the file name. */
  datatype Uploaded = Uploaded(id: string, filename: string)

  /** The JSON form of the report: {id, filename, status: "processing"}. */
  function UploadJson(u: Uploaded): (v: Value)
    ensures v.Obj? && Keys(v.fields) == {"id", "filename", "status"} && UniqueKeys(v.fields)
    ensures Lookup(v.fields, "id") == Some(Str(u.id))
    ensures Lookup(v.fields, "filename") == Some(Str(u.filename))
    ensures Lookup(v.fields, "status") == Some(Str("processing"))
  {
    Obj(Assign(Assign(Assign([], "id", Str(u.id)), "filename", Str(u.filename)), "status", Str("processing")))
  }

  /** The three requests of an upload once the file is known: the
      upload-url POST, the PUT of the bytes, the finalising PATCH. Each
      failure ends the sequence. */
  method Transfer(scope: Scope, filename: string, contentType: string, size: int, slot: Result<UploadSlot, Failure>,
                  putStatus: int, finalised: Result<Value, Failure>)
    returns (steps: seq<Step>, r: Result<Uploaded, Failure>)
    ensures 1 <= |steps| <= 3
    ensures steps[0].Send? && steps[0].request.verb == POST
    ensures steps[0].request.url == scope.client.baseUrl + ApiVersion + MediaPath(scope.brandId) + "/upload-url"
    ensures steps[0].request.body ==
      Some([("filename", Str(filename)), ("content_type", Str(contentType)), ("size", Num(size))])
    ensures |steps| == 1 <==> slot.Failure?
    ensures |steps| == 1 ==> r == Failure(slot.error)
    ensures |steps| >= 2 ==> steps[1] == PutBytes(slot.value.uploadUrl, contentType)
    ensures |steps| == 2 <==> slot.Success? && !(200 <= putStatus <= 299)
    ensures |steps| == 2 ==> r == Failure(UploadFailed(putStatus))
    ensures |steps| == 3 ==>
      && steps[2].Send? && steps[2].request.verb == PATCH
      && steps[2].request.url == scope.client.baseUrl + ApiVersion + MediaPath(scope.brandId) + "/" + slot.value.id
      && steps[2].request.body == Some([("status", Str("available"))])
      && r == (if finalised.Failure? then Failure(finalised.error) else Success(Uploaded(slot.value.id, filename)))
  {
    var basePath := MediaPath(scope.brandId);
    var requestSlot := scope.client.Post(basePath + "/upload-url",
      [("filename", Str(filename)), ("content_type", Str(contentType)), ("size", Num(size))]);
    if slot.Failure? {
      return [Send(requestSlot)], Failure(slot.error);
    }
    var put := PutBytes(slot.value.uploadUrl, contentType);
    if !(200 <= putStatus <= 299) {
      return [Send(requestSlot), put], Failure(UploadFailed(putStatus));
    }
    var finalise := scope.client.Patch(basePath + "/" + slot.value.id, [("status", Str("available"))]);
    steps := [Send(requestSlot), put, Send(finalise)];
    if finalised.Failure? {
      return steps, Failure(finalised.error);
    }
    r := Success(Uploaded(slot.value.id, filename));
  }

  /** media upload: brand and key, then the extension check before the
      file is looked at, then its size, then the three requests. */
  method Upload(inv: Invocation, filePath: string, size: Option<int>, slot: Result<UploadSlot, Failure>,
                putStatus: int, finalised: Result<Value, Failure>)
    returns (steps: seq<Step>, r: Result<Uploaded, Failure>)
    ensures !Scoped(inv) ==> steps == [] && r.Failure? && r.error in {MissingBrand, MissingApiKey}
    ensures ContentType(filePath).None? ==> steps == [] && r.Failure?
    ensures Scoped(inv) && ContentType(filePath).None? ==> r == Failure(UnsupportedFileType(ExtensionOf(filePath)))
    ensures steps != [] ==> Scoped(inv) && ContentType(filePath).Some? && steps[0] == StatFile(filePath)
    ensures |steps| == 1 <==> Scoped(inv) && ContentType(filePath).Some? && size.None?
    ensures |steps| == 1 ==> r == Failure(FileNotReadable)
    ensures |steps| >= 2 ==>
      && size.Some?
      && steps[1].Send? && steps[1].request.verb == POST
      && steps[1].request.url == Endpoint(inv.env, inv.file) + MediaPath(BrandOf(inv)) + "/upload-url"
      && steps[1].request.body == Some([("filename", Str(Basename(filePath))),
                                        ("content_type", Str(ContentType(filePath).value)),
                                        ("size", Num(size.value))])
    ensures |steps| == 2 ==> slot.Failure? && r == Failure(slot.error)
    ensures |steps| >= 3 ==> slot.Success? && steps[2] == PutBytes(slot.value.uploadUrl, ContentType(filePath).value)
    ensures |steps| == 3 ==> !(200 <= putStatus <= 299) && r == Failure(UploadFailed(putStatus))
    ensures |steps| == 4 ==>
      && 200 <= putStatus <= 299
      && steps[3].Send? && steps[3].request.verb == PATCH
      && steps[3].request.url == Endpoint(inv.env, inv.file) + MediaPath(BrandOf(inv)) + "/" + slot.value.id
      && steps[3].request.body == Some([("status", Str("available"))])
    ensures |steps| <= 4
    ensures Scoped(inv) && ContentType(filePath).Some? && size.Some? ==> |steps| >= 2
    ensures |steps| >= 2 ==> (|steps| == 2 <==> slot.Failure?)
    ensures |steps| >= 3 ==> (|steps| == 4 <==> 200 <= putStatus <= 299)
    ensures |steps| == 4 && finalised.Success? ==> r.Success?
    ensures r.Success? ==> |steps| == 4 && finalised.Success? && r.value == Uploaded(slot.value.id, Basename(filePath))
    ensures |steps| == 4 && finalised.Failure? ==> r == Failure(finalised.error)
  {
    var session := OpenScope(inv);
    if session.Failure? {
      return [], Failure(session.error);
    }
    var scope := session.value;
    var filename := Basename(filePath);
    var ext := ExtensionOf(filePath);
    var contentType := ContentType(filePath);
    if contentType.None? {
      return [], Failure(UnsupportedFileType(ext));
    }
    if size.None? {
      return [StatFile(filePath)], Failure(FileNotReadable);
    }
    var sent;
    sent, r := Transfer(scope, filename, contentType.value, size.value, slot, putStatus, finalised);
    steps := [StatFile(filePath)] + sent;
    assert |steps| == |sent| + 1 && steps[1..] == sent;
  }

  /** media list: page and limit go through to list() unchanged. */
  method ListMedia(inv: Invocation, page: Option<int>, limit: Option<int>) returns (r: Result<HttpRequest, Failure>)
    ensures r.Failure? <==> !Scoped(inv)
    ensures r.Failure? ==> r.error in {MissingBrand, MissingApiKey}
    ensures r.Success? ==>
      && r.value.verb == GET && r.value.body == None
      && r.value.url == Endpoint(inv.env, inv.file) + MediaPath(BrandOf(inv)) + QueryString(page, limit)
  {
    var scope :- OpenScope(inv);
    var req := scope.client.List(MediaPath(scope.brandId), page, limit);
    r := Success(req);
  }

  /** media delete. */
  method DeleteMedia(inv: Invocation, mediaId: string) returns (r: Result<HttpRequest, Failure>)
    ensures r.Failure? <==> !Scoped(inv)
    ensures r.Failure? ==> r.error in {MissingBrand, MissingApiKey}
    ensures r.Success? ==>
      && r.value.verb == DELETE && r.value.body == None
      && r.value.url == Endpoint(inv.env, inv.file) + MediaPath(BrandOf(inv)) + "/" + mediaId
  {
    var scope :- OpenScope(inv);
    var req := scope.client.Delete(MediaPath(scope.brandId) + "/" + mediaId);
    r := Success(req);
  }
}
