/** The mock upload endpoints: input checks and the fabricated CDN descriptions
    of uploaded files.  Each file id (a random UUID) and each upload time (the
    clock) is passed in. */
module Upload {
  import opened Common

  const CdnHost := "https://cdn.mockapi.local"

  /** The MIME types the image endpoint accepts. */
  const ImageTypes: seq<string> := ["image/jpeg", "image/png", "image/gif", "image/webp"]

  /** The part of a multipart file the controller reads. */
  datatype UploadedFile = UploadedFile(originalName: string, mimeType: string, size: nat)

  datatype FileInfo = FileInfo(
    id: string,
    originalName: string,
    mimeType: string,
    size: nat,
    url: string,
    thumbnailUrl: Option<string>,
    uploadedAt: string)

  datatype SingleUpload = SingleUpload(success: bool, message: string, file: FileInfo)

  datatype MultipleUpload = MultipleUpload(success: bool, message: string, totalFiles: nat, files: seq<FileInfo>)

  datatype ImageInfo = ImageInfo(
    id: string,
    originalName: string,
    mimeType: string,
    size: nat,
    url: string,
    thumbnailUrl: string,
    mediumUrl: string,
    largeUrl: string,
    uploadedAt: string)

  datatype ImageUpload = ImageUpload(success: bool, message: string, image: ImageInfo)

  const UploadsPrefix := CdnHost + "/uploads/"

  function FileUrl(fileId: string, name: string): string
  {
    UploadsPrefix + fileId + "/" + name
  }

  function ThumbnailUrl(fileId: string): string
  {
    CdnHost + "/thumbnails/" + fileId + ".jpg"
  }

  function ImageBase(fileId: string): string
  {
    CdnHost + "/images/" + fileId
  }

  function IndexOf(s: string, c: char): Option<nat>
  {
    FindFirst(s, (x: char) => x == c)
  }

  /** Reads a file URL back into its file id and file name. */
  function ParseFileUrl(url: string): Option<(string, string)>
  {
    if !StartsWith(url, UploadsPrefix) then None
    else
      var rest := url[|UploadsPrefix|..];
      match IndexOf(rest, '/')
      case None => None
      case Some(i) => Some((rest[..i], rest[i + 1..]))
  }

  /** A file URL determines the file id and the original name it was built
      from, for any id without a slash (a UUID has none). */
  lemma FileUrlRoundTrip(fileId: string, name: string)
    requires '/' !in fileId
    ensures ParseFileUrl(FileUrl(fileId, name)) == Some((fileId, name))
  {
    var rest := fileId + "/" + name;
    assert FileUrl(fileId, name) == UploadsPrefix + rest;
    assert FileUrl(fileId, name)[|UploadsPrefix|..] == rest;
    assert rest[|fileId|] == '/';
    assert forall k :: 0 <= k < |fileId| ==> rest[k] == fileId[k] != '/';
    assert rest[..|fileId|] == fileId;
    assert rest[|fileId| + 1..] == name;
  }

  /** `mime.split('/')[1]`: the text between the first slash and the next one;
      None where JavaScript gives `undefined` (no slash at all). */
  function Subtype(mime: string): Option<string>
  {
    match IndexOf(mime, '/')
    case None => None
    case Some(i) =>
      var rest := mime[i + 1..];
      match IndexOf(rest, '/')
      case None => Some(rest)
      case Some(j) => Some(rest[..j])
  }

  /** For the accepted image types the subtype is what follows "image/". */
  lemma ImageSubtype(mime: string)
    requires mime in ImageTypes
    ensures Subtype(mime) == Some(mime[6..])
  {
    var sub := mime[6..];
    assert mime == "image" + "/" + sub by {
      assert mime[..6] == "image/";
    }
    assert '/' !in sub;
    SplitSubtype("image", sub);
  }

  /** `(a + '/' + b).split('/')[1]` is `b` when neither part holds a slash. */
  lemma SplitSubtype(a: string, b: string)
    requires '/' !in a && '/' !in b
    ensures Subtype(a + "/" + b) == Some(b)
  {
    var mime := a + "/" + b;
    assert forall k :: 0 <= k < |a| ==> mime[k] == a[k];
    IndexOfFirst(mime, '/', |a|);
    assert mime[|a| + 1..] == b;
    assert forall k :: 0 <= k < |b| ==> b[k] != '/';
  }

  /** The index of a character is the first position holding it. */
  lemma IndexOfFirst(s: string, c: char, i: nat)
    requires i < |s| && s[i] == c
    requires forall k :: 0 <= k < i ==> s[k] != c
    ensures IndexOf(s, c) == Some(i)
  {
  }

  /** The description of one stored file. */
  function Describe(file: UploadedFile, fileId: string, uploadedAt: string): (info: FileInfo)
    ensures info.id == fileId && info.uploadedAt == uploadedAt
    ensures info.originalName == file.originalName && info.mimeType == file.mimeType && info.size == file.size
    ensures info.url == FileUrl(fileId, file.originalName)
    ensures info.thumbnailUrl.Some? <==> StartsWith(file.mimeType, "image/")
    ensures info.thumbnailUrl.Some? ==> info.thumbnailUrl.value == ThumbnailUrl(fileId)
  {
    FileInfo(fileId, file.originalName, file.mimeType, file.size, FileUrl(fileId, file.originalName),
             if StartsWith(file.mimeType, "image/") then Some(ThumbnailUrl(fileId)) else None,
             uploadedAt)
  }

  /** `uploadSingle`: a missing file is a bad request; otherwise its description. */
  function UploadSingle(file: Option<UploadedFile>, fileId: string, uploadedAt: string): (r: Result<SingleUpload>)
    ensures file.None? ==> r == Err(BadRequest("No file provided"))
    ensures file.Some? ==> r.Ok? && r.value.success && r.value.message == "File uploaded successfully"
    ensures file.Some? ==> r.value.file == Describe(file.value, fileId, uploadedAt)
  {
    match file
    case None => Err(BadRequest("No file provided"))
    case Some(f) => Ok(SingleUpload(true, "File uploaded successfully", Describe(f, fileId, uploadedAt)))
  }

  /** `files.map(...)`: the `i`-th file gets the `i`-th fresh id and timestamp. */
  function DescribeAll(files: seq<UploadedFile>, fileIds: nat -> string, stamps: nat -> string): (infos: seq<FileInfo>)
    ensures |infos| == |files|
    ensures forall i :: 0 <= i < |files| ==> infos[i] == Describe(files[i], fileIds(i), stamps(i))
  {
    if |files| == 0 then []
    else
      var last := |files| - 1;
      DescribeAll(files[..last], fileIds, stamps) + [Describe(files[last], fileIds(last), stamps(last))]
  }

  /** `uploadMultiple`: no list or an empty list is a bad request; otherwise one
      description per file, in input order, and their count. */
  function UploadMultiple(files: Option<seq<UploadedFile>>, fileIds: nat -> string, stamps: nat -> string): (r: Result<MultipleUpload>)
    ensures files.None? || files.value == [] ==> r == Err(BadRequest("No files provided"))
    ensures files.Some? && files.value != [] ==>
      && r.Ok? && r.value.success && r.value.message == "Files uploaded successfully"
      && r.value.totalFiles == |files.value| == |r.value.files|
      && forall i :: 0 <= i < |files.value| ==>
           r.value.files[i] == Describe(files.value[i], fileIds(i), stamps(i))
  {
    if files.None? || |files.value| == 0 then Err(BadRequest("No files provided"))
    else
      var infos := DescribeAll(files.value, fileIds, stamps);
      Ok(MultipleUpload(true, "Files uploaded successfully", |infos|, infos))
  }

  /** `uploadImage`: a missing file, then a type outside the four image types, is
      a bad request; otherwise the four URLs under one base for this file id. */
  function UploadImage(file: Option<UploadedFile>, fileId: string, uploadedAt: string): (r: Result<ImageUpload>)
    ensures file.None? ==> r == Err(BadRequest("No image provided"))
    ensures file.Some? && file.value.mimeType !in ImageTypes ==>
      r == Err(BadRequest("Invalid image type. Allowed: jpg, png, gif, webp"))
    ensures r.Ok? <==> file.Some? && file.value.mimeType in ImageTypes
    ensures r.Ok? ==>
      var image := r.value.image;
      && r.value.success && r.value.message == "Image uploaded successfully"
      && image.id == fileId && image.uploadedAt == uploadedAt
      && image.originalName == file.value.originalName
      && image.mimeType == file.value.mimeType
      && image.size == file.value.size
      && image.url == ImageBase(fileId) + "/original." + file.value.mimeType[6..]
      && image.thumbnailUrl == ImageBase(fileId) + "/thumbnail.jpg"
      && image.mediumUrl == ImageBase(fileId) + "/medium.jpg"
      && image.largeUrl == ImageBase(fileId) + "/large.jpg"
  {
    match file
    case None => Err(BadRequest("No image provided"))
    case Some(f) =>
      if f.mimeType !in ImageTypes then Err(BadRequest("Invalid image type. Allowed: jpg, png, gif, webp"))
      else
        ImageSubtype(f.mimeType);
        var extension := match Subtype(f.mimeType) case Some(e) => e case None => "undefined";
        var base := ImageBase(fileId);
        Ok(ImageUpload(true, "Image uploaded successfully",
          ImageInfo(fileId, f.originalName, f.mimeType, f.size, base + "/original." + extension,
                    base + "/thumbnail.jpg", base + "/medium.jpg", base + "/large.jpg", uploadedAt)))
  }
}
