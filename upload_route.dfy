/**
 * `POST /api/upload` (app/api/upload/route.ts): reject a missing file, a type outside
 * the allow-list or more than 10 MiB, in that order; otherwise store the bytes under a
 * timestamped name in the public uploads directory and answer with its URL.
 */
module UploadRoute {
  import opened Wrappers
  import Decimal

  /** A file of the multipart form, its size being the length of its content. */
  datatype UploadedFile = UploadedFile(name: string, mimeType: string, content: seq<bv8>)

  /** What `formData.get('file')` gives: nothing, a text field, or a file. */
  datatype FormEntry = Absent | Text(value: string) | File(file: UploadedFile)

  /** `NotAForm` when `request.formData()` throws. */
  datatype UploadRequest = NotAForm | Form(entry: FormEntry)

  const ALLOWED_TYPES: seq<string> := ["image/jpeg", "image/png", "image/webp", "image/gif"]
  const MAX_SIZE: nat := 10 * 1024 * 1024
  const UPLOADS_URL_PREFIX: string := "/uploads/"

  datatype Rejection = NoFile | UnsupportedType | TooLarge | UploadFailed

  function RejectionStatus(r: Rejection): int {
    if r == UploadFailed then 500 else 400
  }

  /**
   * The presence, type and size checks, in that order. A text field has no `type`, so a non-empty one fails the
   * type check; an empty one is falsy and counts as no file.
   */
  function Validate(request: UploadRequest): (r: Result<UploadedFile, Rejection>)
    ensures r.Success? <==> request.Form? && request.entry.File?
                            && request.entry.file.mimeType in ALLOWED_TYPES
                            && |request.entry.file.content| <= MAX_SIZE
    ensures r.Success? ==> r.value == request.entry.file
    ensures request.NotAForm? ==> r == Failure(UploadFailed)
    ensures r == Failure(NoFile) <==> request == Form(Absent) || request == Form(Text(""))
    ensures r == Failure(UnsupportedType) <==>
      || (request.Form? && request.entry.Text? && request.entry.value != "")
      || (request.Form? && request.entry.File? && request.entry.file.mimeType !in ALLOWED_TYPES)
    ensures r == Failure(TooLarge) <==>
      request.Form? && request.entry.File? && request.entry.file.mimeType in ALLOWED_TYPES
      && |request.entry.file.content| > MAX_SIZE
  {
    match request
    case NotAForm => Failure(UploadFailed)
    case Form(entry) =>
      match entry
      case Absent => Failure(NoFile)
      case Text(value) => if value == "" then Failure(NoFile) else Failure(UnsupportedType)
      case File(file) =>
        if file.mimeType !in ALLOWED_TYPES then Failure(UnsupportedType)
        else if |file.content| > MAX_SIZE then Failure(TooLarge)
        else Success(file)
  }

  /** A file of exactly 10 MiB of any allowed type passes: the ceiling is inclusive. */
  lemma TenMiBIsAccepted(file: UploadedFile)
    requires file.mimeType in ALLOWED_TYPES && |file.content| == 10 * 1024 * 1024
    ensures Validate(Form(File(file))) == Success(file)
  {
  }

  /** `${Date.now()}-${random}${extname(name)}`. */
  function FileName(millis: nat, suffix: string, ext: string): (name: string)
    ensures var digits := |Decimal.NatToDecimal(millis)|;
            && |name| == digits + 1 + |suffix| + |ext|
            && name[..digits] == Decimal.NatToDecimal(millis)
            && name[digits] == '-'
            && name[digits + 1..] == suffix + ext
            && Decimal.ParseDecimal(name[..digits]) == millis
  {
    var d := Decimal.NatToDecimal(millis);
    var name := d + "-" + suffix + ext;
    assert name[..|d|] == d;
    assert name[|d| + 1..] == suffix + ext;
    Decimal.DecimalRoundTrip(millis);
    name
  }

  /** The public URL names the stored file, and the upload time can be read back from it. */
  lemma UrlCarriesTimestamp(millis: nat, suffix: string, ext: string)
    ensures var url := UPLOADS_URL_PREFIX + FileName(millis, suffix, ext);
            var digits := |Decimal.NatToDecimal(millis)|;
            && url[..|UPLOADS_URL_PREFIX|] == UPLOADS_URL_PREFIX
            && url[|UPLOADS_URL_PREFIX| + digits] == '-'
            && (forall i :: |UPLOADS_URL_PREFIX| <= i < |UPLOADS_URL_PREFIX| + digits ==> Decimal.IsDigit(url[i]))
            && Decimal.ParseDecimal(url[|UPLOADS_URL_PREFIX|..|UPLOADS_URL_PREFIX| + digits]) == millis
  {
    var d := Decimal.NatToDecimal(millis);
    var url := UPLOADS_URL_PREFIX + FileName(millis, suffix, ext);
    assert url == UPLOADS_URL_PREFIX + d + "-" + suffix + ext;
    assert url[|UPLOADS_URL_PREFIX|..|UPLOADS_URL_PREFIX| + |d|] == d;
    Decimal.DecimalRoundTrip(millis);
  }

  /** The public uploads directory: file name to content. */
  class UploadsDirectory {
    var files: map<string, seq<bv8>>

    constructor (initial: map<string, seq<bv8>>)
      ensures files == initial
    {
      files := initial;
    }

    /** writeFile: create or overwrite one file. */
    method WriteFile(name: string, content: seq<bv8>)
      modifies this
      ensures files == old(files)[name := content]
    {
      files := files[name := content];
    }
  }

  datatype UploadResponse = Uploaded(url: string) | Rejected(status: int, reason: Rejection)

  /**
   * The handler. A rejected request writes nothing; an accepted one writes its bytes under
   * FileName and answers with that file's public URL. The clock reading, the random suffix
   * and `path.extname` are parameters.
   */
  method Post(dir: UploadsDirectory, request: UploadRequest, millis: nat, suffix: string, extname: string -> string)
    returns (response: UploadResponse)
    modifies dir
    ensures Validate(request).Failure? ==>
      && response == Rejected(RejectionStatus(Validate(request).error), Validate(request).error)
      && dir.files == old(dir.files)
    ensures Validate(request).Success? ==>
      var file := request.entry.file;
      var name := FileName(millis, suffix, extname(file.name));
      && response == Uploaded(UPLOADS_URL_PREFIX + name)
      && dir.files == old(dir.files)[name := file.content]
  {
    var checked := Validate(request);
    if checked.Failure? {
      return Rejected(RejectionStatus(checked.error), checked.error);
    }
    var file := checked.value;
    var name := FileName(millis, suffix, extname(file.name));
    dir.WriteFile(name, file.content);
    response := Uploaded(UPLOADS_URL_PREFIX + name);
  }
}
