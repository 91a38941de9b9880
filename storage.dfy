/**
 * What the two storage services share: the document kinds, the stored file's stem, its path
 * under the uploading user's folder, and the upload request they send and whose response
 * they pass through. The storage call itself is a parameter: it answers with the stored
 * path or an error.
 */
module Documents {
  import opened Common
  import opened Strings

  datatype DocumentType = License | Identity | Tax

  /** The document type as it appears in the file name. */
  function Label(t: DocumentType): (r: string)
    ensures r != "" && '.' !in r && '/' !in r && '-' !in r
  {
    match t
    case License => "license"
    case Identity => "identity"
    case Tax => "tax"
  }

  /** A browser `File`, of which only the name is read. */
  datatype File = File(name: string)

  const BUCKET: string := "merchant-documents"
  const CACHE_CONTROL: string := "3600"

  /** `${documentType}-${Date.now()}`, with the clock reading `now` in milliseconds. */
  function Stem(t: DocumentType, now: nat): (r: string)
    ensures '.' !in r && '/' !in r
    ensures HasPrefix(r, Label(t) + "-")
  {
    var r := Label(t) + "-" + NatToString(now);
    assert r[..|Label(t) + "-"|] == Label(t) + "-";
    r
  }

  /** `${userId}/${fileName}` */
  function StoragePath(userId: string, fileName: string): string {
    userId + "/" + fileName
  }

  /** The upload request: the bucket, the path, and the options `{ cacheControl: '3600', upsert: false }`. */
  datatype UploadRequest = UploadRequest(bucket: string, path: string, cacheControl: string, upsert: bool)

  function Request(path: string): UploadRequest {
    UploadRequest(BUCKET, path, CACHE_CONTROL, false)
  }

  /** The result object: the path the storage reported and the path the service built (the public URL is not modelled). */
  datatype Uploaded = Uploaded(path: string, fullPath: string)

  /** `if (error) throw error; return { path: data.path, fullPath: filePath, ... }` */
  function Finish(request: UploadRequest, response: Result<string, string>): (r: Result<Uploaded, string>)
    ensures r.Ok? <==> response.Ok?
    ensures r.Err? ==> r.error == response.error
    ensures r.Ok? ==> r.value == Uploaded(response.value, request.path)
  {
    match response
    case Err(e) => Err(e)
    case Ok(stored) => Ok(Uploaded(stored, request.path))
  }

  /**
   * The path reads back: it starts with the user's folder, and when the file name has no
   * slash, the text after the path's last slash is that file name.
   */
  lemma PathReadsBack(userId: string, fileName: string)
    ensures HasPrefix(StoragePath(userId, fileName), userId + "/")
    ensures '/' !in fileName ==> LastSegment(StoragePath(userId, fileName), '/') == fileName
  {
    var p := StoragePath(userId, fileName);
    assert p[..|userId + "/"|] == userId + "/";
    if '/' !in fileName {
      LastAfter(userId, '/', fileName);
    }
  }

  /** The text after the last separator of `a + [sep] + b`, when `b` has none, is `b`. */
  lemma {:induction false} LastAfter(a: string, sep: char, b: string)
    requires sep !in b
    ensures LastSegment(a + [sep] + b, sep) == b
  {
    var s := a + [sep] + b;
    if b != [] {
      var init := b[..|b| - 1];
      assert s[..|s| - 1] == a + [sep] + init;
      LastAfter(a, sep, init);
      assert b == init + [b[|b| - 1]];
    }
  }
}

/** `StorageService.uploadMerchantDocument` in the web application's copy. */
module WebStorage {
  import opened Common
  import opened Strings
  import opened Documents

  const INVALID_FILE: string := "Invalid or missing file"

  /** `file.name.includes('.') ? file.name.split('.').pop() : ''`: the text after the last dot, or nothing. */
  function FileExt(name: string): (r: string)
    ensures '.' !in r
    ensures '.' !in name ==> r == ""
    ensures '.' in name ==> |r| < |name| && name[|name| - |r| - 1] == '.' && name[|name| - |r|..] == r
  {
    if '.' in name then LastSegment(name, '.') else ""
  }

  /** `type-ts.ext`, or `type-ts` when the extension is empty. */
  function FileName(t: DocumentType, now: nat, name: string): (r: string)
    ensures HasPrefix(r, Stem(t, now))
    ensures FileExt(name) == "" <==> r == Stem(t, now)
  {
    var ext := FileExt(name);
    var r := if ext != "" then Stem(t, now) + "." + ext else Stem(t, now);
    assert r[..|Stem(t, now)|] == Stem(t, now);
    r
  }

  /** The request the upload sends, or the error thrown before it for a missing file or an empty name. */
  function Plan(userId: string, file: Option<File>, t: DocumentType, now: nat): Result<UploadRequest, string> {
    if file.None? || file.value.name == "" then Err(INVALID_FILE)
    else Ok(Request(StoragePath(userId, FileName(t, now, file.value.name))))
  }

  /** The whole call, with `respond` standing for the storage's answer to a request. */
  function UploadMerchantDocument(userId: string, file: Option<File>, t: DocumentType, now: nat,
                                  respond: UploadRequest -> Result<string, string>): Result<Uploaded, string> {
    match Plan(userId, file, t, now)
    case Err(e) => Err(e)
    case Ok(request) => Finish(request, respond(request))
  }

  /**
   * A missing file or an empty name fails with "Invalid or missing file" whatever the storage
   * would answer; otherwise exactly one request is sent, to the documents bucket without
   * overwriting, under the user's folder; its error is the call's error, and on success
   * `fullPath` is the path built and `path` the path the storage reported.
   */
  lemma UploadOutcome(userId: string, file: Option<File>, t: DocumentType, now: nat, respond: UploadRequest -> Result<string, string>)
    ensures var r := UploadMerchantDocument(userId, file, t, now, respond);
      && (file.None? || file.value.name == "" ==> r == Err(INVALID_FILE))
      && (file.Some? && file.value.name != "" ==>
            var path := StoragePath(userId, FileName(t, now, file.value.name));
            var request := UploadRequest(BUCKET, path, CACHE_CONTROL, false);
            && Plan(userId, file, t, now) == Ok(request)
            && (r.Ok? <==> respond(request).Ok?)
            && (r.Err? ==> r.error == respond(request).error)
            && (r.Ok? ==> r.value.fullPath == path && r.value.path == respond(request).value))
  {}

  /**
   * The stored name keeps the file's extension: reading the extension of the generated name
   * gives the original one (none for a dotless name or a name ending in a dot).
   */
  lemma ExtensionKept(t: DocumentType, now: nat, name: string)
    ensures FileExt(FileName(t, now, name)) == FileExt(name)
  {
    var ext := FileExt(name);
    if ext != "" {
      LastAfter(Stem(t, now), '.', ext);
      assert Stem(t, now) + "." + ext == Stem(t, now) + ['.'] + ext;
    }
  }
}

/** `StorageService.uploadMerchantDocument` in the shared package's copy. */
module SharedStorage {
  import opened Common
  import opened Strings
  import opened Documents

  /** Reading `name` of an absent file throws. */
  const NO_FILE: string := "TypeError: Cannot read properties of undefined (reading 'name')"

  /** `file.name.split('.').pop()`: the text after the last dot, the whole name when there is none. */
  function FileExt(name: string): (r: string)
    ensures '.' !in r
    ensures '.' !in name ==> r == name
    ensures '.' in name ==> |r| < |name| && name[|name| - |r| - 1] == '.' && name[|name| - |r|..] == r
  {
    LastSegment(name, '.')
  }

  /** Always `type-ts.ext`, even when the extension is empty. */
  function FileName(t: DocumentType, now: nat, name: string): (r: string)
    ensures HasPrefix(r, Stem(t, now) + ".")
    ensures |r| == |Stem(t, now)| + 1 + |FileExt(name)|
  {
    var r := Stem(t, now) + "." + FileExt(name);
    assert r[..|Stem(t, now) + "."|] == Stem(t, now) + ".";
    r
  }

  /** The request the upload sends; there is no check on the file. */
  function Plan(userId: string, file: Option<File>, t: DocumentType, now: nat): Result<UploadRequest, string> {
    if file.None? then Err(NO_FILE)
    else Ok(Request(StoragePath(userId, FileName(t, now, file.value.name))))
  }

  function UploadMerchantDocument(userId: string, file: Option<File>, t: DocumentType, now: nat,
                                  respond: UploadRequest -> Result<string, string>): Result<Uploaded, string> {
    match Plan(userId, file, t, now)
    case Err(e) => Err(e)
    case Ok(request) => Finish(request, respond(request))
  }

  /**
   * Any present file, an empty name included, is uploaded to the documents bucket under the
   * user's folder without overwriting; the storage's error is the call's error, and on success
   * `fullPath` is the path built and `path` the path the storage reported.
   */
  lemma UploadOutcome(userId: string, file: File, t: DocumentType, now: nat, respond: UploadRequest -> Result<string, string>)
    ensures var r := UploadMerchantDocument(userId, Some(file), t, now, respond);
      var path := StoragePath(userId, FileName(t, now, file.name));
      var request := UploadRequest(BUCKET, path, CACHE_CONTROL, false);
      && Plan(userId, Some(file), t, now) == Ok(request)
      && (r.Ok? <==> respond(request).Ok?)
      && (r.Err? ==> r.error == respond(request).error)
      && (r.Ok? ==> r.value.fullPath == path && r.value.path == respond(request).value)
  {}

  /** The stored name keeps the file's extension, which for a dotless name is the whole name. */
  lemma ExtensionKept(t: DocumentType, now: nat, name: string)
    ensures FileExt(FileName(t, now, name)) == FileExt(name)
  {
    LastAfter(Stem(t, now), '.', FileExt(name));
    assert Stem(t, now) + "." + FileExt(name) == Stem(t, now) + ['.'] + FileExt(name);
  }
}

/** How the two copies of the service name the same file. */
module StorageCompared {
  import opened Strings
  import opened Documents
  import WebStorage
  import SharedStorage

  /**
   * The copies agree on every name whose last dot is followed by some text. They differ
   * otherwise: the shared copy turns a dotless name into the extension itself, and keeps a
   * trailing dot where the web copy drops it.
   */
  lemma FileNamesCompared(t: DocumentType, now: nat, name: string)
    ensures '.' in name && LastSegment(name, '.') != "" ==> WebStorage.FileName(t, now, name) == SharedStorage.FileName(t, now, name)
    ensures '.' !in name ==> SharedStorage.FileName(t, now, name) == WebStorage.FileName(t, now, name) + "." + name
    ensures '.' in name && LastSegment(name, '.') == "" ==> SharedStorage.FileName(t, now, name) == WebStorage.FileName(t, now, name) + "."
  {}

  /** A dotless upload, `scan`: the web copy stores no extension, the shared copy stores the name as one. */
  lemma DotlessName()
    ensures WebStorage.FileName(License, 7, "scan") == "license-7"
    ensures SharedStorage.FileName(License, 7, "scan") == "license-7.scan"
  {
    assert Stem(License, 7) == "license-7" by { assert NatToString(7) == "7"; }
    assert '.' !in "scan";
  }

  /** An upload ending in a dot, `scan.`: the shared copy keeps the trailing dot. */
  lemma TrailingDotName()
    ensures WebStorage.FileName(Tax, 7, "scan.") == "tax-7"
    ensures SharedStorage.FileName(Tax, 7, "scan.") == "tax-7."
  {
    assert Stem(Tax, 7) == "tax-7" by { assert NatToString(7) == "7"; }
    assert "scan."[|"scan."| - 1] == '.';
    assert '.' in "scan.";
  }

  /** An ordinary name, `id.png`, is stored the same way by both. */
  lemma OrdinaryName()
    ensures WebStorage.FileName(Identity, 7, "id.png") == SharedStorage.FileName(Identity, 7, "id.png") == "identity-7.png"
  {
    assert Stem(Identity, 7) == "identity-7" by { assert NatToString(7) == "7"; }
    LastAfter("id", '.', "png");
    assert "id" + ['.'] + "png" == "id.png";
    assert "id.png"[2] == '.';
  }
}
