/** The two storage adapters and the coordinator that runs both
    (lib/uploader.js). Every network reply, the clock, the random key
    suffix and content sniffing are inputs: an adapter is a function from
    those replies to the requests it issues and the URL it settles on. */
module Uploader {
  import opened Values
  import opened Text

  datatype Provider = CloudSky | Catbox

  /** The name stored in `primaryProvider` and sent as `X-Served-By`. */
  function ProviderName(p: Provider): (name: string)
    ensures name == "cloudsky" || name == "catbox"
  {
    match p
    case CloudSky => "cloudsky"
    case Catbox => "catbox"
  }

  lemma ProviderNameInjective(p: Provider, q: Provider)
    requires ProviderName(p) == ProviderName(q)
    ensures p == q
  {
  }

  /** What `fromBuffer` (content sniffing) recognised in the bytes, if anything. */
  datatype FileType = FileType(mime: string, ext: string)

  /** A request one of the adapters sends to its backend. */
  datatype ProviderRequest =
    /** POST to CloudSky's `get-upload-url` endpoint, asking for a presigned URL. */
    | PresignRequest(fileKey: string, contentType: string, fileSize: nat)
    /** PUT of the bytes to the presigned URL. */
    | PutRequest(url: string, contentType: string, body: seq<byte>)
    /** Multipart POST to Catbox's `user/api.php` (`reqtype=fileupload`). */
    | CatboxRequest(fileName: string, body: seq<byte>)

  /** What the adapter's promise settled to, and the requests it issued. */
  datatype AdapterRun = AdapterRun(outcome: Result<string>, requests: seq<ProviderRequest>)

  // ---------------------------------------------------------------------
  // CloudSky: content type, storage key, two-step upload

  /** The static MIME-to-extension table of `uploadToCloudSky`. */
  const MimeToExt: map<string, string> := map[
    "image/jpeg" := "jpg",
    "image/png" := "png",
    "image/gif" := "gif",
    "image/webp" := "webp",
    "image/svg+xml" := "svg",
    "image/avif" := "avif",
    "image/tiff" := "tiff",
    "image/x-icon" := "ico",
    "video/mp4" := "mp4",
    "video/webm" := "webm",
    "video/quicktime" := "mov",
    "video/x-msvideo" := "avi",
    "video/x-matroska" := "mkv",
    "audio/mpeg" := "mp3",
    "audio/wav" := "wav",
    "audio/ogg" := "ogg",
    "audio/mp4" := "m4a",
    "audio/aac" := "aac",
    "application/pdf" := "pdf",
    "text/plain" := "txt",
    "text/html" := "html",
    "text/csv" := "csv",
    "application/json" := "json",
    "application/msword" := "doc",
    "application/vnd.openxmlformats-officedocument.wordprocessingml.document" := "docx",
    "application/vnd.ms-excel" := "xls",
    "application/vnd.openxmlformats-officedocument.spreadsheetml.sheet" := "xlsx",
    "application/vnd.ms-powerpoint" := "ppt",
    "application/vnd.openxmlformats-officedocument.presentationml.presentation" := "pptx",
    "application/zip" := "zip",
    "application/x-7z-compressed" := "7z",
    "application/x-rar-compressed" := "rar",
    "application/x-tar" := "tar"
  ]

  /** Every extension in the table is a non-empty run of lower-case
      letters and digits. */
  predicate PlainExtension(e: string)
  {
    e != "" && forall k | 0 <= k < |e| :: IsLowerAlnum(e[k])
  }

  lemma TableExtensionsArePlain()
    ensures forall m | m in MimeToExt :: PlainExtension(MimeToExt[m])
  {
  }

  /** The content type and file extension CloudSky is given. */
  datatype ContentType = ContentType(mime: string, ext: string)

  /** The declared type when there is one (`""` stands for a missing
      mimetype); otherwise whatever sniffing found, falling back to a
      generic binary type. */
  function ResolveContentType(mimetype: string, sniffed: Option<FileType>): (t: ContentType)
    ensures mimetype != "" ==> t.mime == mimetype && t.ext != "" && '/' !in t.ext
  {
    if mimetype == "" then
      match sniffed
      case Some(ft) => ContentType(ft.mime, ft.ext)
      case None => ContentType("application/octet-stream", "bin")
    else
      TableExtensionsArePlain();
      var listed := if mimetype in MimeToExt then MimeToExt[mimetype] else "";
      var subtype := SplitPart(mimetype, '/', 1);
      ContentType(mimetype, if listed != "" then listed else if subtype != "" then subtype else "bin")
  }

  /** A declared type the table lists gets the table's extension. */
  lemma ListedTypeUsesTable(mimetype: string, sniffed: Option<FileType>)
    requires mimetype in MimeToExt
    ensures ResolveContentType(mimetype, sniffed) == ContentType(mimetype, MimeToExt[mimetype])
  {
  }

  /** An unlisted `top/sub` type gets `sub` as its extension. */
  lemma UnlistedTypeUsesSubtype(top: string, sub: string, sniffed: Option<FileType>)
    requires '/' !in top && '/' !in sub && sub != ""
    requires top + "/" + sub !in MimeToExt
    ensures ResolveContentType(top + "/" + sub, sniffed) == ContentType(top + "/" + sub, sub)
  {
    SplitAtFirst(top, '/', sub);
    assert Split(sub, '/') == [sub];
  }

  /** An unlisted type without a subtype (no '/', or nothing after it)
      gets the generic extension. */
  lemma UnlistedTypeWithoutSubtype(top: string, sniffed: Option<FileType>)
    requires '/' !in top && top != ""
    requires top !in MimeToExt && top + "/" !in MimeToExt
    ensures ResolveContentType(top, sniffed) == ContentType(top, "bin")
    ensures ResolveContentType(top + "/", sniffed) == ContentType(top + "/", "bin")
  {
    SplitAtFirst(top, '/', "");
    assert top + "/" == top + ['/'] + "";
  }

  /** `mime.split('/')[1]` is the second `/`-separated piece, not the text
      after the first `/`: an unlisted `top/sub/...` gets `sub`, and an
      empty second piece (`top//...`) gets `bin`. */
  lemma SecondPieceIsExtension(top: string, sub: string, rest: string, sniffed: Option<FileType>)
    requires '/' !in top && '/' !in sub && (rest == "" || rest[0] == '/')
    requires top + "/" + sub + rest !in MimeToExt
    ensures ResolveContentType(top + "/" + sub + rest, sniffed) ==
            ContentType(top + "/" + sub + rest, if sub != "" then sub else "bin")
  {
    SecondPiece(top, sub, rest);
  }

  /** The second piece of `top/sub...` is `sub`. */
  lemma SecondPiece(top: string, sub: string, rest: string)
    requires '/' !in top && '/' !in sub && (rest == "" || rest[0] == '/')
    ensures SplitPart(top + "/" + sub + rest, '/', 1) == sub
  {
    var tail := sub + rest;
    assert top + "/" + sub + rest == top + ['/'] + tail;
    if rest == "" {
      assert tail == sub;
      SplitAtFirst(top, '/', sub);
      assert Split(sub, '/') == [sub];
    } else {
      var more := rest[1..];
      assert tail == sub + ['/'] + more by {
        assert rest == ['/'] + more;
      }
      SplitAtFirst(sub, '/', more);
      SplitAtFirst(top, '/', tail);
    }
  }

  /** The two shapes the rule above tells apart from "everything after the
      first `/`". */
  lemma SecondPieceExamples(sniffed: Option<FileType>)
    ensures ResolveContentType("a/b/c", sniffed).ext == "b"
    ensures ResolveContentType("a//b", sniffed).ext == "bin"
  {
    assert "a/b/c" == "a" + "/" + "b" + "/c";
    assert "a//b" == "a" + "/" + "" + "/b";
    assert "a/b/c" !in MimeToExt;
    assert "a//b" !in MimeToExt;
    SecondPieceIsExtension("a", "b", "/c", sniffed);
    SecondPieceIsExtension("a", "", "/b", sniffed);
  }

  /** With no declared type, sniffing decides both the type and the
      extension. */
  lemma UndeclaredTypeIsSniffed(sniffed: Option<FileType>)
    ensures ResolveContentType("", sniffed) ==
      if sniffed.Some? then ContentType(sniffed.value.mime, sniffed.value.ext)
      else ContentType("application/octet-stream", "bin")
  {
  }

  /** The `crypto.randomBytes(4)` a CloudSky key ends with. */
  type KeySuffix = s: seq<byte> | |s| == 4 witness [0, 0, 0, 0]

  /** The storage key: `prefix/<Date.now()>-<hex of 4 random bytes>.<ext>`. */
  function FileKey(prefix: string, now: nat, suffix: seq<byte>, ext: string): string
  {
    prefix + "/" + Decimal(now) + "-" + Hex(suffix) + "." + ext
  }

  /** The parts a storage key is built from. */
  datatype KeyParts = KeyParts(now: nat, suffix: seq<byte>, ext: string)

  /** Reads `<digits>-<hex>.<ext>` back into its parts. */
  function ParseKeyName(name: string): Option<KeyParts>
  {
    if '-' !in name then None
    else
      var i := IndexOf(name, '-');
      ParseKeyTail(name[..i], name[i + 1..])
  }

  /** Reads the `<hex>.<ext>` that follows the timestamp `digits`. */
  function ParseKeyTail(digits: string, rest: string): Option<KeyParts>
  {
    if digits == [] || !AllDigits(digits) || '.' !in rest then None
    else
      var j := IndexOf(rest, '.');
      var hex := rest[..j];
      if |hex| % 2 != 0 || !AllHex(hex) then None
      else Some(KeyParts(DigitsValue(digits), Unhex(hex), rest[j + 1..]))
  }

  /** Reads a storage key under `prefix` back into its parts. */
  function ParseFileKey(prefix: string, key: string): Option<KeyParts>
  {
    if StartsWith(key, prefix + "/") then ParseKeyName(key[|prefix| + 1..]) else None
  }

  /** Neither separator of a key name can occur in a decimal or a
      hexadecimal numeral. */
  lemma NumeralsHaveNoSeparators(d: string, h: string)
    requires AllDigits(d) && AllHex(h)
    ensures '-' !in d && '.' !in h
  {
    forall k | 0 <= k < |d| ensures d[k] != '-' { assert IsDigit(d[k]); }
    forall k | 0 <= k < |h| ensures h[k] != '.' { assert IsHexDigit(h[k]); }
  }

  /** The text after the timestamp splits at its first dot. */
  lemma ParseKeyTailOf(d: string, h: string, ext: string)
    requires d != [] && AllDigits(d) && |h| % 2 == 0 && AllHex(h)
    ensures ParseKeyTail(d, h + "." + ext) == Some(KeyParts(DigitsValue(d), Unhex(h), ext))
  {
    var rest := h + ['.'] + ext;
    assert h + "." + ext == rest;
    NumeralsHaveNoSeparators(d, h);
    IndexOfAfter(h, '.', ext);
    assert rest[..|h|] == h;
    assert rest[|h| + 1..] == ext;
  }

  /** A name built from digits, hexadecimal text and an extension parses
      into the values those denote. */
  lemma ParseKeyNameOf(d: string, h: string, ext: string)
    requires d != [] && AllDigits(d) && |h| % 2 == 0 && AllHex(h)
    ensures ParseKeyName(d + "-" + h + "." + ext) == Some(KeyParts(DigitsValue(d), Unhex(h), ext))
  {
    var rest := h + "." + ext;
    var name := d + ['-'] + rest;
    assert d + "-" + h + "." + ext == name;
    NumeralsHaveNoSeparators(d, h);
    IndexOfAfter(d, '-', rest);
    assert name[..|d|] == d;
    assert name[|d| + 1..] == rest;
    ParseKeyTailOf(d, h, ext);
  }

  /** The storage key determines the timestamp, the random suffix and the
      extension it was built from. */
  lemma FileKeyRoundTrip(prefix: string, now: nat, suffix: seq<byte>, ext: string)
    ensures ParseFileKey(prefix, FileKey(prefix, now, suffix, ext)) == Some(KeyParts(now, suffix, ext))
  {
    var name := Decimal(now) + "-" + Hex(suffix) + "." + ext;
    var key := FileKey(prefix, now, suffix, ext);
    assert key == (prefix + "/") + name;
    assert key[|prefix| + 1..] == name;
    ParseKeyNameOf(Decimal(now), Hex(suffix), ext);
    DecimalRoundTrip(now);
    HexRoundTrip(suffix);
  }

  /** Two uploads under the same prefix whose clocks or random suffixes
      differ get different storage keys. */
  lemma FileKeyInjective(prefix: string, now1: nat, suffix1: seq<byte>, ext1: string,
                         now2: nat, suffix2: seq<byte>, ext2: string)
    requires FileKey(prefix, now1, suffix1, ext1) == FileKey(prefix, now2, suffix2, ext2)
    ensures now1 == now2 && suffix1 == suffix2 && ext1 == ext2
  {
    FileKeyRoundTrip(prefix, now1, suffix1, ext1);
    FileKeyRoundTrip(prefix, now2, suffix2, ext2);
  }

  /** Where CloudSky later serves a stored key. */
  const CloudSkyFileEndpoint := "https://api.cloudsky.biz.id/file?key="

  /** The answer to the presign POST: the call threw (network error or a
      body that is not JSON), a non-ok status with its error text, or an
      ok status with the JSON's `uploadUrl` (`""` when missing or empty). */
  datatype PresignReply = PresignThrew(message: string) | PresignRefused(errorText: string) | PresignGranted(uploadUrl: string)

  /** The answer to the PUT of the bytes. */
  datatype PutReply = PutThrew(message: string) | PutRefused(errorText: string) | PutDone

  const CloudSkyFailed := "CloudSky upload failed: "

  /** `uploadToCloudSky(buffer, mimetype, prefix)` given the sniffed type,
      `Date.now()`, the 4 random key bytes and the backend's two replies. */
  function UploadToCloudSky(buffer: seq<byte>, mimetype: string, prefix: string, sniffed: Option<FileType>,
                            now: nat, suffix: KeySuffix, presign: PresignReply, put: PutReply): (run: AdapterRun)
    ensures var t := ResolveContentType(mimetype, sniffed);
            var key := FileKey(prefix, now, suffix, t.ext);
            && 1 <= |run.requests| <= 2
            && run.requests[0] == PresignRequest(key, t.mime, |buffer|)
            && (|run.requests| == 2 <==> presign.PresignGranted? && presign.uploadUrl != "")
            && (|run.requests| == 2 ==> run.requests[1] == PutRequest(presign.uploadUrl, t.mime, buffer))
            && (run.outcome.Success? <==> |run.requests| == 2 && put.PutDone?)
            && (run.outcome.Success? ==> run.outcome.value == CloudSkyFileEndpoint + key)
            && (run.outcome.Failure? ==> StartsWith(run.outcome.error, CloudSkyFailed))
  {
    var t := ResolveContentType(mimetype, sniffed);
    var key := FileKey(prefix, now, suffix, t.ext);
    var presignRequest := PresignRequest(key, t.mime, |buffer|);
    match presign
    case PresignThrew(m) => AdapterRun(Failure(CloudSkyFailed + m), [presignRequest])
    case PresignRefused(text) =>
      AdapterRun(Failure(CloudSkyFailed + "Failed to get presigned URL: " + text), [presignRequest])
    case PresignGranted(uploadUrl) =>
      if uploadUrl == "" then
        AdapterRun(Failure(CloudSkyFailed + "No uploadUrl received from API"), [presignRequest])
      else
        var requests := [presignRequest, PutRequest(uploadUrl, t.mime, buffer)];
        match put
        case PutThrew(m) => AdapterRun(Failure(CloudSkyFailed + m), requests)
        case PutRefused(text) => AdapterRun(Failure(CloudSkyFailed + "File upload failed: " + text), requests)
        case PutDone => AdapterRun(Success(CloudSkyFileEndpoint + key), requests)
  }

  /** The failure messages CloudSky reports, one per failing step. */
  lemma CloudSkyFailureReasons(buffer: seq<byte>, mimetype: string, prefix: string, sniffed: Option<FileType>,
                               now: nat, suffix: KeySuffix, presign: PresignReply, put: PutReply)
    ensures var run := UploadToCloudSky(buffer, mimetype, prefix, sniffed, now, suffix, presign, put);
            && (presign.PresignRefused? ==>
                  run.outcome == Failure(CloudSkyFailed + "Failed to get presigned URL: " + presign.errorText))
            && (presign == PresignGranted("") ==>
                  run.outcome == Failure(CloudSkyFailed + "No uploadUrl received from API"))
            && (presign.PresignGranted? && presign.uploadUrl != "" && put.PutRefused? ==>
                  run.outcome == Failure(CloudSkyFailed + "File upload failed: " + put.errorText))
  {
  }

  // ---------------------------------------------------------------------
  // Catbox: one multipart POST, success judged from the body text

  /** The answer to the Catbox POST: the call threw, or a response with
      its ok flag and body text. */
  datatype CatboxReply = CatboxThrew(message: string) | CatboxAnswered(ok: bool, text: string)

  const CatboxFailed := "Catbox upload failed: "

  /** The body text Catbox must send back for the upload to count. */
  predicate CatboxAccepts(text: string)
  {
    text != "" && StartsWith(text, "http")
  }

  /** The emptiness test is subsumed: a body is accepted exactly when it
      starts with "http". */
  lemma CatboxAcceptsIffHttp(text: string)
    ensures CatboxAccepts(text) <==> StartsWith(text, "http")
  {
  }

  /** `uploadToCatbox(buffer)` given the sniffed type and the reply. */
  function UploadToCatbox(buffer: seq<byte>, sniffed: Option<FileType>, reply: CatboxReply): (run: AdapterRun)
    ensures run.requests == [CatboxRequest("file." + (if sniffed.Some? then sniffed.value.ext else "bin"), buffer)]
    ensures run.outcome.Success? <==> reply.CatboxAnswered? && CatboxAccepts(reply.text)
    ensures run.outcome.Success? ==> run.outcome.value == Trim(reply.text) && StartsWith(run.outcome.value, "http")
    ensures run.outcome.Failure? ==> StartsWith(run.outcome.error, CatboxFailed)
  {
    var ext := if sniffed.Some? then sniffed.value.ext else "bin";
    var requests := [CatboxRequest("file." + ext, buffer)];
    match reply
    case CatboxThrew(m) => AdapterRun(Failure(CatboxFailed + m), requests)
    case CatboxAnswered(_, text) =>
      if CatboxAccepts(text) then
        TrimKeepsPrefix(text, "http");
        AdapterRun(Success(Trim(text)), requests)
      else
        AdapterRun(Failure(CatboxFailed + "Invalid response from Catbox"), requests)
  }

  /** The HTTP status plays no part: an error status whose body starts
      with "http" is accepted, an ok status with any other body is not. */
  lemma CatboxIgnoresStatus(buffer: seq<byte>, sniffed: Option<FileType>, text: string)
    ensures UploadToCatbox(buffer, sniffed, CatboxAnswered(true, text))
         == UploadToCatbox(buffer, sniffed, CatboxAnswered(false, text))
  {
  }

  // ---------------------------------------------------------------------
  // Both providers

  /** The coordinator's result object. */
  datatype Replication = Replication(cloudSkyUrl: Option<string>, catboxUrl: Option<string>,
                                     primaryProvider: Provider, backupProvider: Option<Provider>)

  /** The URL field named by a provider. */
  function UrlOf(rep: Replication, p: Provider): Option<string>
  {
    match p
    case CloudSky => rep.cloudSkyUrl
    case Catbox => rep.catboxUrl
  }

  /** The field a settled adapter fills in: its value when fulfilled,
      `null` when rejected. */
  function UrlField(outcome: Result<string>): Option<string>
  {
    if outcome.Success? then Some(outcome.value) else None
  }

  const BothFailed := "Both CloudSky and Catbox upload failed"

  /** How the two settled adapters combine: each URL field comes from its
      own adapter alone; CloudSky is primary whenever its URL is set,
      Catbox only when CloudSky's is not; Catbox is the backup only when
      both are set; and the call fails exactly when neither is. */
  function CombineOutcomes(cloudSky: Result<string>, catbox: Result<string>): (r: Result<Replication>)
    ensures r.Success? <==> Truthy(UrlField(cloudSky)) || Truthy(UrlField(catbox))
    ensures r.Failure? ==> r.error == BothFailed
    ensures r.Success? ==>
              && r.value.cloudSkyUrl == UrlField(cloudSky)
              && r.value.catboxUrl == UrlField(catbox)
              && (r.value.primaryProvider == CloudSky <==> Truthy(UrlField(cloudSky)))
              && (r.value.backupProvider.Some? <==> Truthy(UrlField(cloudSky)) && Truthy(UrlField(catbox)))
              && r.value.backupProvider != Some(CloudSky)
              && Truthy(UrlOf(r.value, r.value.primaryProvider))
  {
    var cloudSkyUrl, catboxUrl := UrlField(cloudSky), UrlField(catbox);
    if Truthy(cloudSkyUrl) && Truthy(catboxUrl) then
      Success(Replication(cloudSkyUrl, catboxUrl, CloudSky, Some(Catbox)))
    else if Truthy(cloudSkyUrl) then
      Success(Replication(cloudSkyUrl, catboxUrl, CloudSky, None))
    else if Truthy(catboxUrl) then
      Success(Replication(cloudSkyUrl, catboxUrl, Catbox, None))
    else
      Failure(BothFailed)
  }

  /** Everything the two backends say during one replication, plus the
      inputs both adapters draw from the environment. */
  datatype ProviderReplies = ProviderReplies(
    sniffed: Option<FileType>,
    now: nat,
    keySuffix: KeySuffix,
    presign: PresignReply,
    put: PutReply,
    catbox: CatboxReply)

  datatype ReplicationRun = ReplicationRun(result: Result<Replication>, requests: seq<ProviderRequest>)

  /** Both adapters run once each (concurrently in the source; the model
      lists CloudSky's requests before Catbox's) and their settled
      outcomes are combined. */
  function Replicate(buffer: seq<byte>, mimetype: string, prefix: string, replies: ProviderReplies): (run: ReplicationRun)
    ensures 2 <= |run.requests| <= 3
    ensures run.requests[0].PresignRequest?
    ensures run.requests[|run.requests| - 1].CatboxRequest? && run.requests[|run.requests| - 1].body == buffer
  {
    var cloudSky := UploadToCloudSky(buffer, mimetype, prefix, replies.sniffed, replies.now, replies.keySuffix,
                                     replies.presign, replies.put);
    var catbox := UploadToCatbox(buffer, replies.sniffed, replies.catbox);
    ReplicationRun(CombineOutcomes(cloudSky.outcome, catbox.outcome), cloudSky.requests + catbox.requests)
  }

  /** `uploadToMultipleProviders`: settle both adapters, then fill in the
      result object field by field. */
  method UploadToMultipleProviders(buffer: seq<byte>, mimetype: string, prefix: string, replies: ProviderReplies)
    returns (result: Result<Replication>, requests: seq<ProviderRequest>)
    ensures ReplicationRun(result, requests) == Replicate(buffer, mimetype, prefix, replies)
  {
    var cloudSky := UploadToCloudSky(buffer, mimetype, prefix, replies.sniffed, replies.now, replies.keySuffix,
                                     replies.presign, replies.put);
    var catbox := UploadToCatbox(buffer, replies.sniffed, replies.catbox);
    requests := cloudSky.requests + catbox.requests;

    var cloudSkyUrl: Option<string> := None;
    var catboxUrl: Option<string> := None;
    var primaryProvider: Option<Provider> := None;
    var backupProvider: Option<Provider> := None;

    if cloudSky.outcome.Success? {
      cloudSkyUrl := Some(cloudSky.outcome.value);
    }
    if catbox.outcome.Success? {
      catboxUrl := Some(catbox.outcome.value);
    }

    if Truthy(cloudSkyUrl) && Truthy(catboxUrl) {
      primaryProvider := Some(CloudSky);
      backupProvider := Some(Catbox);
    } else if Truthy(cloudSkyUrl) {
      primaryProvider := Some(CloudSky);
    } else if Truthy(catboxUrl) {
      primaryProvider := Some(Catbox);
    } else {
      result := Failure(BothFailed);
      return;
    }
    result := Success(Replication(cloudSkyUrl, catboxUrl, primaryProvider.value, backupProvider));
  }

  /** The adapters never settle to an empty URL, so on a replication the
      URL fields are set exactly for the adapters that succeeded, and a
      single failing adapter leaves the other one primary. */
  lemma ReplicationReflectsAdapters(buffer: seq<byte>, mimetype: string, prefix: string, replies: ProviderReplies)
    ensures var cloudSky := UploadToCloudSky(buffer, mimetype, prefix, replies.sniffed, replies.now,
                                             replies.keySuffix, replies.presign, replies.put);
            var catbox := UploadToCatbox(buffer, replies.sniffed, replies.catbox);
            var r := Replicate(buffer, mimetype, prefix, replies).result;
            && Truthy(UrlField(cloudSky.outcome)) == cloudSky.outcome.Success?
            && Truthy(UrlField(catbox.outcome)) == catbox.outcome.Success?
            && (r.Failure? <==> cloudSky.outcome.Failure? && catbox.outcome.Failure?)
            && (r.Success? && cloudSky.outcome.Success? ==> r.value.primaryProvider == CloudSky)
            && (r.Success? && cloudSky.outcome.Failure? ==> r.value.primaryProvider == Catbox)
  {
  }
}
