/** The image upload action (actions/upload.ts): four checks in order, then
    one write to the blob store under a name made of the current time and
    the file's own name. The clock and the blob service's answer are
    parameters. */
module UploadActions {
  import opened Common
  import opened Session
  import opened JsText

  const NoFile := "Dosya seçilmedi"
  const NotAnImage := "Sadece resim dosyaları yüklenebilir"
  const TooLarge := "Dosya boyutu 5MB'dan küçük olmalıdır"
  const UploadFailedPrefix := "Dosya yüklenirken bir hata oluştu: "
  const UnknownError := "Bilinmeyen hata"
  const ImagePrefix := "image/"
  /** Five mebibytes. */
  const MaxUploadBytes := 5242880

  /** The submitted file: its name, its MIME type and its size in bytes. */
  datatype UploadFile = UploadFile(name: string, mimeType: string, size: nat)

  /** What `put` throws: an `Error` with a message, or any other value. */
  datatype Thrown = ErrorValue(message: string) | OtherValue

  /** What the blob service does with one `put`. */
  datatype PutOutcome = Stored(url: string) | Threw(error: Thrown)

  /** `{ url }` or `{ error: message }`. */
  datatype UploadResult = Uploaded(url: string) | UploadError(message: string)

  /** The checks before the write, in order: session, presence, type, size.
      The first that fails names the message; none fails exactly when the
      file may be written. */
  function PreCheck(session: Option<Claims>, file: Option<UploadFile>): (issue: Option<string>)
    ensures issue == None <==>
      session.Some? && file.Some? && ImagePrefix <= file.value.mimeType && file.value.size <= MaxUploadBytes
    ensures session == None ==> issue == Some(Unauthorized)
    ensures session.Some? && file == None ==> issue == Some(NoFile)
    ensures session.Some? && file.Some? && !(ImagePrefix <= file.value.mimeType) ==> issue == Some(NotAnImage)
    ensures (session.Some? && file.Some? && ImagePrefix <= file.value.mimeType
             && file.value.size > MaxUploadBytes) ==> issue == Some(TooLarge)
  {
    if session == None then Some(Unauthorized)
    else if file == None then Some(NoFile)
    else if !(ImagePrefix <= file.value.mimeType) then Some(NotAnImage)
    else if file.value.size > 5 * 1024 * 1024 then Some(TooLarge)
    else None
  }

  /** `${timestamp}-${file.name}` */
  function BlobName(timestamp: nat, name: string): string
  {
    Decimal(timestamp) + "-" + name
  }

  /** The blob name keeps both of its parts: `parseInt` reads the timestamp
      back from it, and the file's own name follows the first `-`. */
  lemma BlobNameParts(timestamp: nat, name: string)
    ensures ParseInt(BlobName(timestamp, name)) == Some(timestamp)
    ensures var n := |Decimal(timestamp)|;
      n < |BlobName(timestamp, name)| && BlobName(timestamp, name)[n] == '-'
      && BlobName(timestamp, name)[n + 1..] == name
      && forall i :: 0 <= i < n ==> BlobName(timestamp, name)[i] != '-'
  {
    var d := Decimal(timestamp);
    DecimalDigits(timestamp);
    assert BlobName(timestamp, name) == d + ("-" + name);
    ParseDigitsThen(d, "-" + name);
    forall i | 0 <= i < |d| ensures BlobName(timestamp, name)[i] != '-' {
      DigitIsPlain(d[i]);
    }
  }

  /** The error message of a failed `put`. */
  function PutFailure(error: Thrown): string
  {
    UploadFailedPrefix + (match error case ErrorValue(m) => m case OtherValue => UnknownError)
  }

  /** The public blob store: files by path name. */
  class BlobStore {
    var blobs: map<string, UploadFile>

    constructor ()
      ensures blobs == map[]
    {
      blobs := map[];
    }

    /** `put(pathname, file)`, given the service's answer: a stored file is
      kept under its path name, a failed one leaves the store as it was. */
    method Put(pathname: string, file: UploadFile, outcome: PutOutcome)
      modifies this
      ensures outcome.Stored? ==> blobs == old(blobs)[pathname := file]
      ensures outcome.Threw? ==> blobs == old(blobs)
    {
      if outcome.Stored? {
        blobs := blobs[pathname := file];
      }
    }
  }

  /** `uploadImage`: the first failing check's message and no write, or one
      `put` under the timestamped name. */
  method UploadImage(jar: CookieJar, codec: TokenCodec, file: Option<UploadFile>, now: nat,
                     store: BlobStore, outcome: PutOutcome) returns (r: UploadResult)
    modifies store
    ensures PreCheck(GetSession(jar, codec), file).Some? ==>
      r == UploadError(PreCheck(GetSession(jar, codec), file).value) && store.blobs == old(store.blobs)
    ensures PreCheck(GetSession(jar, codec), file) == None && outcome.Stored? ==>
      r == Uploaded(outcome.url) && store.blobs == old(store.blobs)[BlobName(now, file.value.name) := file.value]
    ensures PreCheck(GetSession(jar, codec), file) == None && outcome.Threw? ==>
      r == UploadError(PutFailure(outcome.error)) && store.blobs == old(store.blobs)
  {
    var session := GetSession(jar, codec);
    if session == None {
      return UploadError(Unauthorized);
    }
    if file == None {
      return UploadError(NoFile);
    }
    if !(ImagePrefix <= file.value.mimeType) {
      return UploadError(NotAnImage);
    }
    if file.value.size > 5 * 1024 * 1024 {
      return UploadError(TooLarge);
    }
    var fileName := BlobName(now, file.value.name);
    store.Put(fileName, file.value, outcome);
    match outcome {
      case Stored(url) => r := Uploaded(url);
      case Threw(error) => r := UploadError(PutFailure(error));
    }
  }
}
