/**
 * Upload normalisation for module media (lib/edtech/module-media.ts): the
 * extension-to-MIME allow-list, the MIME-to-kind rule and the storage path
 * of an uploaded image or video.
 */
module ModuleMedia {
  import opened Wrappers
  import opened Text
  import opened Schemas
  import opened FileNames

  /**
   * What `EXTENSION_TO_MIME[ext]` yields for a lower-case alphanumeric key:
   * an own entry, a member inherited from `Object.prototype` (of those, only
   * "constructor" is spelled in lower-case letters and digits), or `undefined`.
   */
  datatype Lookup = Entry(mime: string) | Inherited | Absent

  function ExtensionToMime(ext: string): (r: Lookup)
    ensures r.Entry? <==> ext in MediaExtensions
    ensures r.Inherited? <==> ext == "constructor"
    ensures r.Entry? ==> r.mime in AllowedModuleMediaMimeTypes
    ensures ext == "jpg" || ext == "jpeg" <==> r == Entry("image/jpeg")
  {
    if ext == "png" then Entry("image/png")
    else if ext == "jpg" || ext == "jpeg" then Entry("image/jpeg")
    else if ext == "webp" then Entry("image/webp")
    else if ext == "gif" then Entry("image/gif")
    else if ext == "mp4" then Entry("video/mp4")
    else if ext == "webm" then Entry("video/webm")
    else if ext == "mov" then Entry("video/quicktime")
    else if ext == "constructor" then Inherited
    else Absent
  }

  const MediaExtensions: set<string> := {"png", "jpg", "jpeg", "webp", "gif", "mp4", "webm", "mov"}

  /** `ALLOWED_MODULE_MEDIA_MIME_TYPES`: the table's values without repeats, in first-seen order. */
  const AllowedModuleMediaMimeTypes: seq<string> :=
    ["image/png", "image/jpeg", "image/webp", "image/gif", "video/mp4", "video/webm", "video/quicktime"]

  /** Every allowed MIME type is the table's value for some extension, and none is listed twice. */
  lemma AllowedMimeTypesAreTableValues()
    ensures forall i, j :: 0 <= i < j < |AllowedModuleMediaMimeTypes| ==> AllowedModuleMediaMimeTypes[i] != AllowedModuleMediaMimeTypes[j]
    ensures forall i :: 0 <= i < |AllowedModuleMediaMimeTypes| ==>
      ExtensionToMime(["png", "jpg", "webp", "gif", "mp4", "webm", "mov"][i]) == Entry(AllowedModuleMediaMimeTypes[i])
  {
  }

  /** `getMediaKindFromMime`: "image/…" is an image, "video/…" a video, anything else has no kind. */
  function GetMediaKindFromMime(mimeType: string): (r: Option<MediaKind>)
    ensures r == Some(Image) <==> StartsWith(mimeType, "image/")
    ensures r == Some(Video) <==> StartsWith(mimeType, "video/")
    ensures r.None? <==> !StartsWith(mimeType, "image/") && !StartsWith(mimeType, "video/")
  {
    if StartsWith(mimeType, "image/") then Some(Image)
    else if StartsWith(mimeType, "video/") then Some(Video)
    else None
  }

  /** Every MIME type in the table has a kind, so the "image and video only" error cannot be raised. */
  lemma TableMimeTypesHaveAKind(ext: string)
    requires ExtensionToMime(ext).Entry?
    ensures GetMediaKindFromMime(ExtensionToMime(ext).mime).Some?
  {
  }

  datatype MediaUploadInput = MediaUploadInput(
    orgId: string,
    campaignId: string,
    moduleId: string,
    embedId: string,
    fileName: string,
    mimeType: string)

  datatype MediaUpload = MediaUpload(filePath: string, safeFileName: string, mimeType: string, kind: MediaKind)

  /** The folder and name prefix an embed's file is stored under. */
  function MediaPathPrefix(input: MediaUploadInput): string {
    "org/" + input.orgId + "/" + input.campaignId + "/" + input.moduleId + "/" + input.embedId + "-"
  }

  /** The stem used when a name sanitises to nothing. */
  const MediaFallback: string := "media"

  lemma MediaFallbackIsSafe()
    ensures SafeStem(MediaFallback)
  {
  }

  /** Every media file of an organisation is stored under "org/<orgId>/". */
  lemma MediaPathIsInOrgFolder(input: MediaUploadInput, name: string)
    ensures StartsWith(MediaPathPrefix(input) + name, "org/" + input.orgId + "/")
  {
    assert MediaPathPrefix(input) + name
      == ("org/" + input.orgId + "/") + (input.campaignId + "/" + input.moduleId + "/" + input.embedId + "-" + name);
  }

  /** `normalizeModuleMediaUploadFile`. */
  function NormalizeModuleMediaUploadFile(input: MediaUploadInput): (r: Result<MediaUpload, UploadError>)
    ensures SplitUploadName(input.fileName).Err? ==> r == Err(SplitUploadName(input.fileName).error)
    ensures SplitUploadName(input.fileName).Ok? ==>
      var ext := SplitUploadName(input.fileName).value.extension;
      && (ExtensionToMime(ext).Absent? ==> r == Err(UnsupportedExtension))
      && (ExtensionToMime(ext).Inherited? ==> r == Err(MimeMismatch(ext, input.mimeType)))
      && (ExtensionToMime(ext).Entry? && ExtensionToMime(ext).mime != input.mimeType ==> r == Err(MimeMismatch(ext, input.mimeType)))
      && (r.Ok? <==> ExtensionToMime(ext) == Entry(input.mimeType))
    ensures r.Ok? ==>
      var ext := SplitUploadName(input.fileName).value.extension;
      && ext in MediaExtensions
      && r.value.mimeType == input.mimeType
      && GetMediaKindFromMime(input.mimeType) == Some(r.value.kind)
      && StoredAsSafeName(r.value, input, ext)
    ensures r.Err? ==> r.error != UnsupportedKind
  {
    match SplitUploadName(input.fileName)
    case Err(e) => Err(e)
    case Ok(parts) =>
      match ExtensionToMime(parts.extension)
      case Absent => Err(UnsupportedExtension)
      case Inherited => Err(MimeMismatch(parts.extension, input.mimeType))
      case Entry(expected) =>
        if expected != input.mimeType then Err(MimeMismatch(parts.extension, input.mimeType))
        else
          TableMimeTypesHaveAKind(parts.extension);
          match GetMediaKindFromMime(input.mimeType)
          case None => Err(UnsupportedKind)
          case Some(kind) => Ok(StoredMedia(input, parts, kind))
  }

  /**
   * The stored file's name is a safe stem, a dot and the extension, and its
   * path is that name under the embed's folder.
   */
  predicate StoredAsSafeName(u: MediaUpload, input: MediaUploadInput, ext: string) {
    var name := u.safeFileName;
    && |name| > |ext| + 1
    && name[|name| - |ext| - 1] == '.' && name[|name| - |ext|..] == ext
    && SafeStem(name[..|name| - |ext| - 1])
    && u.filePath == MediaPathPrefix(input) + name
  }

  /** The record returned once every check has passed. */
  function StoredMedia(input: MediaUploadInput, parts: NameParts, kind: MediaKind): (u: MediaUpload)
    ensures u.mimeType == input.mimeType && u.kind == kind
    ensures StoredAsSafeName(u, input, parts.extension)
  {
    var stem := SanitizeFileStem(parts.base, MediaFallback);
    MediaFallbackIsSafe();
    SanitizedStemIsSafe(parts.base, MediaFallback);
    var safeFileName := DottedName(stem, parts.extension);
    MediaUpload(MediaPathPrefix(input) + safeFileName, safeFileName, input.mimeType, kind)
  }

  /** A name that splits into a base and a supported extension, declared with the table's MIME type, is stored under the sanitised base. */
  lemma UploadOfSplitName(input: MediaUploadInput, base: string, ext: string)
    requires SplitUploadName(input.fileName) == Ok(NameParts(base, ext))
    requires ExtensionToMime(ext) == Entry(input.mimeType)
    ensures NormalizeModuleMediaUploadFile(input).Ok?
    ensures NormalizeModuleMediaUploadFile(input).value.safeFileName == DottedName(SanitizeFileStem(base, MediaFallback), ext)
  {
  }

  /**
   * Whatever the ids, a name of alphanumeric words separated by spaces, with
   * perhaps one stray symbol before a supported extension ("architecture
   * diagram.png" declared as image/png), is stored as the words joined by
   * dashes ("architecture-diagram.png") in the org's folder, with the kind
   * its MIME type names.
   */
  lemma SpacedWordsUpload(input: MediaUploadInput, words: seq<string>, space: char, tail: string, ext: string)
    requires |words| >= 1 && AlnumWords(words) && IsSpace(space) && StrayTail(tail)
    requires |Join(words, "-")| <= 64
    requires ext in MediaExtensions
    requires input.fileName == Join(words, [space]) + tail + "." + ext
    requires input.mimeType == ExtensionToMime(ext).mime
    ensures
      var r := NormalizeModuleMediaUploadFile(input);
      && r.Ok?
      && r.value.safeFileName == Join(words, "-") + "." + ext
      && StartsWith(r.value.filePath, "org/" + input.orgId + "/")
      && (r.value.kind == Image <==> StartsWith(input.mimeType, "image/"))
  {
    assert AllLowerAlnum(ext);
    SpacedWordsName(words, space, tail, ext, MediaFallback);
    UploadOfSplitName(input, Join(words, [space]) + tail, ext);
    var r := NormalizeModuleMediaUploadFile(input);
    MediaPathIsInOrgFolder(input, r.value.safeFileName);
  }

  /** "demo.png" declared as video/mp4 is refused as a mismatch. */
  lemma DemoPngAsVideoIsRejected(orgId: string, campaignId: string, moduleId: string, embedId: string)
    ensures
      var input := MediaUploadInput(orgId, campaignId, moduleId, embedId, "demo.png", "video/mp4");
      NormalizeModuleMediaUploadFile(input) == Err(MimeMismatch("png", "video/mp4"))
  {
    DemoPngSplits();
  }

  lemma DemoPngSplits()
    ensures SplitUploadName("demo.png") == Ok(NameParts("demo", "png"))
  {
    assert "demo.png" == "demo" + "." + "png";
    assert Lower("png") == "png";
    SplitOfJoinedName("demo", "png");
  }

  lemma MediaKindExamples()
    ensures GetMediaKindFromMime("image/png") == Some(Image)
    ensures GetMediaKindFromMime("image/webp") == Some(Image)
    ensures GetMediaKindFromMime("video/webm") == Some(Video)
    ensures GetMediaKindFromMime("application/pdf") == None
  {
  }
}
