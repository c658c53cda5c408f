/** Object-store names and addresses (`modules/upload/uploadService.ts` and
    `utils/upload.ts`): the key a new upload is stored under, the address the browser
    posts it to, the public address of a stored file, and the `data:` URL (RFC 2397)
    an attachment is turned into. The presigning call, `fetch` and the uuid generator
    are foreign: their results are inputs. */
module Upload {
  import opened Common
  import Base64
  import AppConfig

  /** `name.split(".").pop()`: the text after the last '.', or the whole name when it
      has no '.'. It is the longest suffix without a '.'. */
  function LastSegment(s: string): (r: string)
    ensures |r| <= |s| && r == s[|s| - |r|..]
    ensures forall i :: 0 <= i < |r| ==> r[i] != '.'
    ensures |r| < |s| ==> s[|s| - |r| - 1] == '.'
    decreases |s|
  {
    if |s| == 0 || s[|s| - 1] == '.' then ""
    else LastSegment(s[..|s| - 1]) + [s[|s| - 1]]
  }

  /** The key of a new upload: the fresh uuid, followed by "." and the file name's
      extension when there is a non-empty one. */
  function UploadKey(uuid: string, filename: Option<string>): (key: string)
    ensures !Truthy(filename) ==> key == uuid
    ensures Truthy(filename) ==>
              var ext := LastSegment(filename.value);
              key == (if ext == "" then uuid else uuid + "." + ext)
  {
    if Truthy(filename) then
      var ext := LastSegment(filename.value);
      if ext != "" then uuid + "." + ext else uuid
    else uuid
  }

  /** The two corner cases of the extension: a name without '.' is its own extension,
      and a name ending in '.' has none. */
  lemma {:induction false} UploadKeyCorners(uuid: string, name: string)
    ensures name != "" && (forall i :: 0 <= i < |name| ==> name[i] != '.') ==> UploadKey(uuid, Some(name)) == uuid + "." + name
    ensures name != "" && name[|name| - 1] == '.' ==> UploadKey(uuid, Some(name)) == uuid
  {
    if name != "" && (forall i :: 0 <= i < |name| ==> name[i] != '.') {
      LastSegmentOfPlainName(name);
    }
  }

  /** A name without '.' is its own last segment. */
  lemma {:induction false} LastSegmentOfPlainName(name: string)
    requires forall i :: 0 <= i < |name| ==> name[i] != '.'
    ensures LastSegment(name) == name
    decreases |name|
  {
    if |name| > 0 {
      LastSegmentOfPlainName(name[..|name| - 1]);
      assert name == name[..|name| - 1] + [name[|name| - 1]];
    }
  }

  /** With a uuid that has no '.', the key keeps the uuid as its prefix and its own
      extension is exactly the file's: the extension survives into the stored name. */
  lemma {:induction false} UploadKeyKeepsExtension(uuid: string, filename: Option<string>)
    requires forall i :: 0 <= i < |uuid| ==> uuid[i] != '.'
    ensures UploadKey(uuid, filename)[..|uuid|] == uuid
    ensures UploadKey(uuid, filename) != uuid ==>
              filename.Some? && LastSegment(UploadKey(uuid, filename)) == LastSegment(filename.value)
    ensures UploadKey(uuid, filename) == uuid ==> LastSegment(UploadKey(uuid, filename)) == uuid
  {
    var key := UploadKey(uuid, filename);
    if key != uuid {
      var ext := LastSegment(filename.value);
      LastSegmentAfterDot(uuid, ext);
    } else {
      LastSegmentOfPlainName(uuid);
    }
  }

  /** The last segment of `prefix + "." + ext`, when `ext` has no '.', is `ext`. */
  lemma {:induction false} LastSegmentAfterDot(prefix: string, ext: string)
    requires forall i :: 0 <= i < |ext| ==> ext[i] != '.'
    ensures LastSegment(prefix + "." + ext) == ext
    decreases |ext|
  {
    var s := prefix + "." + ext;
    if |ext| == 0 {
      assert s[|s| - 1] == '.';
    } else {
      var shorter := ext[..|ext| - 1];
      assert s[..|s| - 1] == prefix + "." + shorter;
      LastSegmentAfterDot(prefix, shorter);
      assert ext == shorter + [ext[|ext| - 1]];
    }
  }

  /** The local object store's bucket address: `endpoint/bucket/`. */
  function LocalBase(env: AppConfig.Env): string {
    env.s3Endpoint + "/" + env.s3Bucket + "/"
  }

  /** The base of a stored file's address: the local bucket address, or the bucket's
      virtual-hosted address in the cloud region. It always ends in '/'. */
  function BaseUrl(env: AppConfig.Env): (b: string)
    ensures |b| > 0 && b[|b| - 1] == '/'
    ensures env.useLocalS3 ==> b == LocalBase(env)
  {
    if env.useLocalS3 then LocalBase(env)
    else "https://" + env.s3Bucket + ".s3." + env.awsRegion + ".amazonaws.com/"
  }

  /** `getFileUrl(key)`: the base followed directly by the key, so the key can be read
      back from the address. */
  function GetFileUrl(env: AppConfig.Env, key: string): (u: string)
    ensures |u| == |BaseUrl(env)| + |key|
    ensures u[..|BaseUrl(env)|] == BaseUrl(env) && u[|BaseUrl(env)|..] == key
    ensures u[|BaseUrl(env)| - 1] == '/'
  {
    BaseUrl(env) + key
  }

  /** What the presigning call returns: the address to post to and the form fields. */
  datatype PresignedPost = PresignedPost(url: string, fields: map<string, string>)

  /** The body of a successful presign answer; `id` is the upload's key. */
  datatype PresignedUpload = PresignedUpload(url: string, fields: map<string, string>, id: string)

  const PRESIGNED := "Presigned URL created successfully"
  const PRESIGN_ERROR := "An error occurred while getting presigned URL."

  /** `finalUrl`: the local bucket address in local mode, the presigned address otherwise. */
  function FinalUrl(env: AppConfig.Env, presignedUrl: string): (u: string)
    ensures env.useLocalS3 ==> u == LocalBase(env)
    ensures !env.useLocalS3 ==> u == presignedUrl
  {
    if env.useLocalS3 then LocalBase(env) else presignedUrl
  }

  /** `getPresignedUrl(filename)` with `uuid` the fresh uuid and `presign` the foreign
      presigning call for a key: a presigning error gives 500; otherwise the answer
      carries the final address, the form fields, and as `id` the key the form was
      presigned for. */
  function GetPresignedUrl(env: AppConfig.Env, uuid: string, filename: Option<string>,
                           presign: string -> Result<PresignedPost, string>): (r: ServiceResponse<PresignedUpload>)
    ensures presign(UploadKey(uuid, filename)).Failure? <==> r == Fail(PRESIGN_ERROR, INTERNAL_SERVER_ERROR)
    ensures r.success ==>
              var post := presign(UploadKey(uuid, filename)).value;
              r.message == PRESIGNED && r.statusCode == OK &&
              r.responseObject == Some(PresignedUpload(FinalUrl(env, post.url), post.fields, UploadKey(uuid, filename)))
  {
    var key := UploadKey(uuid, filename);
    match presign(key)
    case Failure(_) => Fail(PRESIGN_ERROR, INTERNAL_SERVER_ERROR)
    case Success(post) => Succeed(PRESIGNED, Some(PresignedUpload(FinalUrl(env, post.url), post.fields, key)), OK)
  }

  /** In local mode the answer's address followed by its id is the address at which
      the stored file is then served. */
  lemma LocalUploadIsServedAtFileUrl(env: AppConfig.Env, uuid: string, filename: Option<string>,
                                     presign: string -> Result<PresignedPost, string>)
    requires env.useLocalS3
    ensures var r := GetPresignedUrl(env, uuid, filename, presign);
            r.success ==> r.responseObject.value.url + r.responseObject.value.id == GetFileUrl(env, r.responseObject.value.id)
  {
  }

  const OCTET_STREAM := "application/octet-stream"

  /** The media type of the data URL: the response's content type, or
      "application/octet-stream" when it is missing or empty. */
  function MediaType(contentType: Option<string>): (m: string)
    ensures m != ""
    ensures Truthy(contentType) ==> m == contentType.value
  {
    if Truthy(contentType) then contentType.value else OCTET_STREAM
  }

  /** `data:<media type>;base64,<standard base 64 of the body>`. */
  function DataUrl(contentType: Option<string>, body: seq<byte>): string {
    "data:" + MediaType(contentType) + ";base64," + Base64.EncodeStd(body)
  }

  /** The index of the last occurrence of `c` in `s`. */
  function LastIndexOf(s: string, c: char): (r: Option<nat>)
    ensures r.Some? ==> r.value < |s| && s[r.value] == c && forall j :: r.value < j < |s| ==> s[j] != c
    ensures r.None? ==> forall j :: 0 <= j < |s| ==> s[j] != c
    decreases |s|
  {
    if |s| == 0 then None
    else if s[|s| - 1] == c then Some(|s| - 1)
    else LastIndexOf(s[..|s| - 1], c)
  }

  /** Reference reader of a base 64 `data:` URL (RFC 2397): the media type between
      "data:" and ";base64", and the bytes the text after the last ',' decodes to. */
  function ParseDataUrl(u: string): Option<(string, seq<byte>)> {
    if |u| < 5 || u[..5] != "data:" then None
    else
      match LastIndexOf(u, ',')
      case None => None
      case Some(c) =>
        if c < 12 then None
        else
          var head := u[5..c];
          if head[|head| - 7..] != ";base64" then None
          else
            match Base64.DecodeStd(u[c + 1..])
            case None => None
            case Some(b) => Some((head[..|head| - 7], b))
  }

  /** In `pre + "," + e` with no ',' in `e`, the last ',' is the one after `pre`. */
  lemma {:induction false} LastCommaBeforeText(pre: string, e: string)
    requires forall j :: 0 <= j < |e| ==> e[j] != ','
    ensures LastIndexOf(pre + "," + e, ',') == Some(|pre|)
    decreases |e|
  {
    var u := pre + "," + e;
    if |e| == 0 {
      assert u[|u| - 1] == ',';
    } else {
      var shorter := e[..|e| - 1];
      assert u[|u| - 1] == e[|e| - 1];
      assert u[..|u| - 1] == pre + "," + shorter;
      LastCommaBeforeText(pre, shorter);
    }
  }

  /** Reading `data:<m>;base64,<e>`, for a text `e` without ',', gives `m` and what
      `e` decodes to, whatever `m` holds. */
  lemma ParseDataUrlOf(m: string, e: string)
    requires forall j :: 0 <= j < |e| ==> e[j] != ','
    ensures ParseDataUrl("data:" + m + ";base64," + e)
            == match Base64.DecodeStd(e) case None => None case Some(b) => Some((m, b))
  {
    var pre := "data:" + m + ";base64";
    var u := pre + "," + e;
    assert "data:" + m + ";base64," + e == u;
    LastCommaBeforeText(pre, e);
    assert u[..5] == "data:";
    var head := u[5..|pre|];
    assert u[..|pre|] == pre;
    assert head == pre[5..];
    assert pre == "data:" + (m + ";base64");
    assert head == m + ";base64";
    assert head[|head| - 7..] == ";base64" && head[..|head| - 7] == m;
    assert u[|pre| + 1..] == e;
  }

  /** Reading back a data URL gives its media type and the body's bytes, whatever the
      content type (a ',' in it does not matter: the base 64 text has none). */
  lemma DataUrlRoundTrip(contentType: Option<string>, body: seq<byte>)
    ensures ParseDataUrl(DataUrl(contentType, body)) == Some((MediaType(contentType), body))
  {
    Base64.EncodeStdAlphabet(body);
    ParseDataUrlOf(MediaType(contentType), Base64.EncodeStd(body));
    Base64.DecodeStdEncodeStd(body);
  }

  /** The decimal text of a number, as a template string writes it. */
  function DecimalText(n: nat): (t: string)
    ensures |t| > 0 && forall i :: 0 <= i < |t| ==> '0' <= t[i] <= '9'
  {
    if n < 10 then [(48 + n) as char] else DecimalText(n / 10) + [(48 + n % 10) as char]
  }

  /** The part of a `fetch` response the conversion reads. */
  datatype FetchResponse = FetchResponse(ok: bool, status: nat, statusText: string, contentType: Option<string>, body: seq<byte>)

  /** `convertFileUrlToBase64(url)`, given what `fetch(url)` produced (a response, or
      the error it threw): a thrown error is passed on, a response that is not ok
      throws "Failed to fetch file: <status> <status text>", and an ok response
      becomes the data URL of its body, which reads back to the body's bytes. */
  function ConvertFileUrlToBase64(fetched: Result<FetchResponse, string>): (r: Result<string, string>)
    ensures r.Success? <==> fetched.Success? && fetched.value.ok
    ensures fetched.Failure? ==> r == Failure(fetched.error)
    ensures fetched.Success? && !fetched.value.ok ==>
              r == Failure("Failed to fetch file: " + DecimalText(fetched.value.status) + " " + fetched.value.statusText)
    ensures r.Success? ==>
              ParseDataUrl(r.value) == Some((MediaType(fetched.value.contentType), fetched.value.body))
  {
    match fetched
    case Failure(e) => Failure(e)
    case Success(response) =>
      if !response.ok then
        Failure("Failed to fetch file: " + DecimalText(response.status) + " " + response.statusText)
      else
        DataUrlRoundTrip(response.contentType, response.body);
        Success(DataUrl(response.contentType, response.body))
  }
}
