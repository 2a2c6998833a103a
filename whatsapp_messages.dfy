/** The public WhatsApp send actions: the credential check, text sends, media sends that
    reuse a cached media handle and fall back to a fresh upload, and read receipts. Every
    Graph API call and database write is an outcome the environment supplies; the calls
    made are returned as a trace so that contracts can count them. */
module WhatsAppMessages {
  import opened Common
  import opened MediaCache

  const ACCESS_TOKEN_VAR := "CLOUD_API_ACCESS_TOKEN"
  const PHONE_NUMBER_ID_VAR := "WA_PHONE_NUMBER_ID"

  datatype Credentials = Credentials(accessToken: string, phoneNumberId: string)

  /** The names of the unset environment variables, in the order they are checked
      (an empty value counts as unset). */
  function MissingVariables(accessToken: string, phoneNumberId: string): (r: seq<string>)
    ensures ACCESS_TOKEN_VAR in r <==> accessToken == ""
    ensures PHONE_NUMBER_ID_VAR in r <==> phoneNumberId == ""
    ensures r == [] <==> accessToken != "" && phoneNumberId != ""
    ensures accessToken == "" ==> r[0] == ACCESS_TOKEN_VAR
  {
    (if accessToken == "" then [ACCESS_TOKEN_VAR] else [])
    + (if phoneNumberId == "" then [PHONE_NUMBER_ID_VAR] else [])
  }

  /** `getWhatsAppCredentials` of this file. */
  function GetCredentials(accessToken: string, phoneNumberId: string): (r: Result<Credentials>)
    ensures r.Ok? <==> MissingVariables(accessToken, phoneNumberId) == []
    ensures r.Ok? ==> r.value == Credentials(accessToken, phoneNumberId)
    ensures r.Err? ==> "WhatsApp API not configured. Missing: " + Join(", ", MissingVariables(accessToken, phoneNumberId)) <= r.msg
  {
    var missing := MissingVariables(accessToken, phoneNumberId);
    if missing != [] then
      var named := "WhatsApp API not configured. Missing: " + Join(", ", missing);
      var hint := ". Set these in Convex dashboard > Environment Variables.";
      PrefixOfAppend(named, hint);
      Err(named + hint)
    else
      Ok(Credentials(accessToken, phoneNumberId))
  }

  /** Characters matched by `/[\s-]/`. */
  predicate IsPhoneNoise(c: char) {
    IsSpace(c) || c == '-'
  }

  /** `phoneNumber.replace(/[\s-]/g, "")`: a single character is dropped exactly when it is
      white space or '-', and `CleanPhoneAppend` keeps every other character, '+' included,
      in its order. */
  function CleanPhone(s: string): (r: string)
    ensures |r| <= |s|
    ensures forall i :: 0 <= i < |r| ==> !IsPhoneNoise(r[i])
    ensures forall c :: !IsPhoneNoise(c) ==> (c in r <==> c in s)
    ensures |s| == 1 ==> r == (if IsPhoneNoise(s[0]) then "" else s)
  {
    if s == [] then []
    else if IsPhoneNoise(s[0]) then CleanPhone(s[1..])
    else [s[0]] + CleanPhone(s[1..])
  }

  /** Cleaning two texts put together cleans each and keeps their order. */
  lemma {:induction false} CleanPhoneAppend(a: string, b: string)
    ensures CleanPhone(a + b) == CleanPhone(a) + CleanPhone(b)
    decreases |a|
  {
    if a != [] {
      assert (a + b)[0] == a[0] && (a + b)[1..] == a[1..] + b;
      CleanPhoneAppend(a[1..], b);
    } else {
      assert a + b == b;
    }
  }

  lemma {:induction false} CleanPhoneIdempotent(s: string)
    ensures CleanPhone(CleanPhone(s)) == CleanPhone(s)
  {
    if s != [] {
      CleanPhoneIdempotent(s[1..]);
      if !IsPhoneNoise(s[0]) {
        assert ([s[0]] + CleanPhone(s[1..]))[1..] == CleanPhone(s[1..]);
      }
    }
  }

  lemma {:induction false} CleanPhoneKeepsClean(s: string)
    requires forall i :: 0 <= i < |s| ==> !IsPhoneNoise(s[i])
    ensures CleanPhone(s) == s
  {
    if s != [] {
      CleanPhoneKeepsClean(s[1..]);
      assert s == [s[0]] + s[1..];
    }
  }

  /** The text message the Graph API receives; `context` holds the quoted message id. */
  datatype TextPayload = TextPayload(to: string, body: string, context: Option<string>)

  /** The payload built by `send` (and by `sendMessage` of the internal actions). */
  function BuildTextPayload(phoneNumber: string, message: string, quotedExternalId: Option<string>): (p: TextPayload)
    ensures p.to == CleanPhone(phoneNumber) && p.body == message
    ensures p.context.Some? <==> quotedExternalId.Some? && quotedExternalId.value != ""
    ensures p.context.Some? ==> p.context == quotedExternalId
  {
    var context := if quotedExternalId.Some? && quotedExternalId.value != "" then quotedExternalId else None;
    TextPayload(CleanPhone(phoneNumber), message, context)
  }

  /** `send`. `sendOk` answers the Graph API call and `storeOk` the message insert. A
      credential or phone failure is thrown as is; a failure inside the request block is
      rethrown with the `Failed to send WhatsApp message: ` prefix. */
  function Send(accessToken: string, phoneNumberId: string, phoneNumber: string, message: string,
                quotedExternalId: Option<string>, sendOk: bool, storeOk: bool): (r: Result<TextPayload>)
    ensures r.Ok? <==> GetCredentials(accessToken, phoneNumberId).Ok? && Trim(phoneNumber) != "" && sendOk && storeOk
    ensures r.Ok? ==> r.value == BuildTextPayload(phoneNumber, message, quotedExternalId)
    ensures GetCredentials(accessToken, phoneNumberId).Ok? && Trim(phoneNumber) == "" ==>
      r == Err("Phone number is required and cannot be empty")
    ensures GetCredentials(accessToken, phoneNumberId).Ok? && Trim(phoneNumber) != "" && r.Err? ==>
      "Failed to send WhatsApp message: " <= r.msg
  {
    var creds := GetCredentials(accessToken, phoneNumberId);
    if creds.Err? then Err(creds.msg)
    else if Trim(phoneNumber) == "" then Err("Phone number is required and cannot be empty")
    else if !sendOk then Err("Failed to send WhatsApp message: " + "WhatsApp API error")
    else if !storeOk then Err("Failed to send WhatsApp message: " + "storeMessage failed")
    else Ok(BuildTextPayload(phoneNumber, message, quotedExternalId))
  }

  datatype MediaType = Image | Video | Audio | Document

  function MediaTypeName(t: MediaType): string {
    match t
    case Image => "image"
    case Video => "video"
    case Audio => "audio"
    case Document => "document"
  }

  /** The message type chosen from the MIME type's prefix. */
  function MediaTypeOf(mimeType: string): (r: MediaType)
    ensures r == Image <==> "image/" <= mimeType
    ensures r == Video <==> "video/" <= mimeType
    ensures r == Audio <==> "audio/" <= mimeType
    ensures r == Document <==> !("image/" <= mimeType || "video/" <= mimeType || "audio/" <= mimeType)
  {
    assert "image/" <= mimeType ==> mimeType[0] == 'i';
    assert "video/" <= mimeType ==> mimeType[0] == 'v';
    assert "audio/" <= mimeType ==> mimeType[0] == 'a';
    if "image/" <= mimeType then Image
    else if "video/" <= mimeType then Video
    else if "audio/" <= mimeType then Audio
    else Document
  }

  /** The `[type]` object of a media message. */
  datatype MediaPayload = MediaPayload(to: string, mediaType: MediaType, mediaId: string,
                                       caption: Option<string>, filename: Option<string>)

  /** `sendMediaMessage`'s payload: a caption only when a non-empty one is given, a filename
      only for documents and only when non-empty. */
  function BuildMediaPayload(to: string, t: MediaType, mediaId: string, caption: Option<string>, filename: string): (p: MediaPayload)
    ensures p.to == to && p.mediaType == t && p.mediaId == mediaId
    ensures p.caption.Some? <==> caption.Some? && caption.value != ""
    ensures p.caption.Some? ==> p.caption == caption
    ensures p.filename.Some? <==> t == Document && filename != ""
    ensures p.filename.Some? ==> p.filename.value == filename
  {
    MediaPayload(to, t, mediaId,
      if caption.Some? && caption.value != "" then caption else None,
      if t == Document && filename != "" then Some(filename) else None)
  }

  /** One external effect of a media send, in the order it happens. */
  datatype Call =
    | PostMessage(payload: MediaPayload, ok: bool)
    | StoreMessage(content: string, mediaType: MediaType, ok: bool)
    | ReadFile(found: bool)
    | Upload(reply: UploadReply)
    | CacheSave(mediaId: string)
    | CacheRemove
    | LogError(action: string, details: string)

  /** The media upload's answer: a non-ok response, or the JSON body's `id` (`""` when absent). */
  datatype UploadReply = UploadRejected | UploadAccepted(id: string)

  /** The environment of one `sendMedia` run: the two variables, the stored files and the
      answers of the Graph API and of the message insert, for the cached attempt and for the
      upload path. */
  datatype MediaEnv = MediaEnv(
    accessToken: string,
    phoneNumberId: string,
    files: map<StorageId, seq<Byte>>,
    cachedSendOk: bool,
    cachedStoreOk: bool,
    upload: UploadReply,
    sendOk: bool,
    storeOk: bool)

  datatype MediaArgs = MediaArgs(phoneNumber: string, message: Option<string>, storageId: StorageId,
                                 fileName: string, mimeType: string)

  /** The number of media messages WhatsApp accepted, i.e. that reached the recipient. */
  function Deliveries(trace: seq<Call>): (r: nat)
    ensures r <= |trace|
  {
    if trace == [] then 0
    else Deliveries(trace[..|trace| - 1]) + (if trace[|trace| - 1].PostMessage? && trace[|trace| - 1].ok then 1 else 0)
  }

  /** The number of uploads of the file to WhatsApp. */
  function Uploads(trace: seq<Call>): (r: nat)
    ensures r <= |trace|
  {
    if trace == [] then 0
    else Uploads(trace[..|trace| - 1]) + (if trace[|trace| - 1].Upload? then 1 else 0)
  }

  /** `sendMedia`'s first three steps after the credential check all succeed. */
  predicate UploadSucceeds(env: MediaEnv, args: MediaArgs) {
    args.storageId in env.files && env.upload.UploadAccepted? && env.upload.id != ""
  }

  predicate CredentialsSet(env: MediaEnv) {
    GetCredentials(env.accessToken, env.phoneNumberId).Ok?
  }

  /** Appending one call adds that call's contribution to each count. */
  lemma CountsSnoc(a: seq<Call>, c: Call)
    ensures Deliveries(a + [c]) == Deliveries(a) + (if c.PostMessage? && c.ok then 1 else 0)
    ensures Uploads(a + [c]) == Uploads(a) + (if c.Upload? then 1 else 0)
  {
    assert (a + [c])[..|a + [c]| - 1] == a;
  }

  lemma {:induction false} CountsAppend(a: seq<Call>, b: seq<Call>)
    ensures Deliveries(a + b) == Deliveries(a) + Deliveries(b)
    ensures Uploads(a + b) == Uploads(a) + Uploads(b)
    decreases |b|
  {
    if b == [] {
      assert a + b == a;
    } else {
      assert (a + b)[..|a + b| - 1] == a + b[..|b| - 1];
      CountsAppend(a, b[..|b| - 1]);
    }
  }

  function StoredContent(message: Option<string>): string {
    if message.Some? then message.value else ""
  }

  /** The cached handle is used only when it is truthy. */
  function CachedHandle(row: Option<CacheEntry>): string {
    if row.Some? then row.value.mediaId else ""
  }

  const MEDIA_ERROR_ACTION := "Media Send Error"

  /** The upload path shared by `sendMedia`'s first attempt without a usable handle and its
      retry: read the file, upload it, cache the new handle, send, record the message. */
  method UploadAndSend(cache: MediaCacheTable, env: MediaEnv, args: MediaArgs, now: int)
    returns (r: Result<MediaPayload>, trace: seq<Call>)
    requires cache.Valid()
    modifies cache
    ensures cache.Valid()
    ensures Uploads(trace) == (if args.storageId in env.files then 1 else 0)
    ensures Deliveries(trace) == (if UploadSucceeds(env, args) && env.sendOk then 1 else 0)
    ensures r.Ok? <==> UploadSucceeds(env, args) && env.sendOk && env.storeOk
    ensures r.Ok? ==> r.value == BuildMediaPayload(args.phoneNumber, MediaTypeOf(args.mimeType), env.upload.id, args.message, args.fileName)
    ensures UploadSucceeds(env, args) ==>
      cache.Get(args.storageId).Some? && cache.Get(args.storageId).value.mediaId == env.upload.id
      && cache.Get(args.storageId).value.mimeType == args.mimeType
    ensures !UploadSucceeds(env, args) ==> cache.rows == old(cache.rows) && cache.nextRowId == old(cache.nextRowId)
    ensures forall t :: t != args.storageId ==> cache.Get(t) == old(cache.Get(t))
  {
    CountsSnoc([], ReadFile(args.storageId in env.files));
    trace := [] + [ReadFile(args.storageId in env.files)];
    if args.storageId !in env.files {
      return Err("File not found"), trace;
    }
    CountsSnoc(trace, Upload(env.upload));
    trace := trace + [Upload(env.upload)];
    if env.upload.UploadRejected? {
      return Err("Upload error"), trace;
    }
    var mediaId := env.upload.id;
    if mediaId == "" {
      return Err("No media ID returned"), trace;
    }
    cache.Save(args.storageId, mediaId, args.mimeType, Some(args.fileName), now);
    CountsSnoc(trace, CacheSave(mediaId));
    trace := trace + [CacheSave(mediaId)];
    var mediaType := MediaTypeOf(args.mimeType);
    var payload := BuildMediaPayload(args.phoneNumber, mediaType, mediaId, args.message, args.fileName);
    CountsSnoc(trace, PostMessage(payload, env.sendOk));
    trace := trace + [PostMessage(payload, env.sendOk)];
    if !env.sendOk {
      return Err("Send error"), trace;
    }
    CountsSnoc(trace, StoreMessage(StoredContent(args.message), mediaType, env.storeOk));
    trace := trace + [StoreMessage(StoredContent(args.message), mediaType, env.storeOk)];
    if !env.storeOk {
      return Err("storeMessage failed"), trace;
    }
    r := Ok(payload);
  }

  /** The cached attempt of `sendMedia`: send with the cached handle, then record the
      message. `trace` holds the calls made. */
  method SendCached(env: MediaEnv, args: MediaArgs, mediaId: string)
    returns (payload: MediaPayload, trace: seq<Call>)
    ensures payload == BuildMediaPayload(args.phoneNumber, MediaTypeOf(args.mimeType), mediaId, args.message, args.fileName)
    ensures Deliveries(trace) == (if env.cachedSendOk then 1 else 0) && Uploads(trace) == 0
    ensures trace != [] && trace[0] == PostMessage(payload, env.cachedSendOk)
  {
    var mediaType := MediaTypeOf(args.mimeType);
    payload := BuildMediaPayload(args.phoneNumber, mediaType, mediaId, args.message, args.fileName);
    CountsSnoc([], PostMessage(payload, env.cachedSendOk));
    trace := [] + [PostMessage(payload, env.cachedSendOk)];
    if env.cachedSendOk {
      CountsSnoc(trace, StoreMessage(StoredContent(args.message), mediaType, env.cachedStoreOk));
      trace := trace + [StoreMessage(StoredContent(args.message), mediaType, env.cachedStoreOk)];
    }
  }

  /** `sendMedia` as written: any exception in the cached attempt, including a failed message
      insert after WhatsApp accepted the message, invalidates the cache entry and runs the
      upload path once more. Every failure is logged and rethrown. */
  method SendMedia(cache: MediaCacheTable, env: MediaEnv, args: MediaArgs, now: int)
    returns (r: Result<MediaPayload>, trace: seq<Call>)
    requires cache.Valid()
    modifies cache
    ensures cache.Valid()
    ensures !CredentialsSet(env) ==>
      r.Err? && trace == [LogError(MEDIA_ERROR_ACTION, "Failed: " + args.fileName)] && cache.rows == old(cache.rows)
    ensures r.Err? ==> trace != [] && trace[|trace| - 1] == LogError(MEDIA_ERROR_ACTION, "Failed: " + args.fileName)
    ensures var hit := CachedHandle(old(cache.Get(args.storageId)));
      CredentialsSet(env) && hit != "" && env.cachedSendOk && env.cachedStoreOk ==>
        r == Ok(BuildMediaPayload(args.phoneNumber, MediaTypeOf(args.mimeType), hit, args.message, args.fileName))
        && Uploads(trace) == 0 && cache.rows == old(cache.rows)
    ensures var hit := CachedHandle(old(cache.Get(args.storageId)));
      CredentialsSet(env) && hit != "" && !(env.cachedSendOk && env.cachedStoreOk) ==>
        CacheRemove in trace && (UploadSucceeds(env, args) || cache.Get(args.storageId).None?)
    ensures var hit := CachedHandle(old(cache.Get(args.storageId)));
      CredentialsSet(env) && !(hit != "" && env.cachedSendOk && env.cachedStoreOk) ==>
        (r.Ok? <==> UploadSucceeds(env, args) && env.sendOk && env.storeOk)
        && (r.Ok? ==> r.value == BuildMediaPayload(args.phoneNumber, MediaTypeOf(args.mimeType), env.upload.id,
                                                   args.message, args.fileName))
        && Uploads(trace) == (if args.storageId in env.files then 1 else 0)
    ensures Uploads(trace) <= 1
    ensures r.Ok? ==>
              Deliveries(trace) >= 1 && r.value.to == args.phoneNumber
              && r.value.mediaType == MediaTypeOf(args.mimeType) && r.value.mediaId != ""
    ensures Deliveries(trace) == 2 <==>
      CredentialsSet(env) && CachedHandle(old(cache.Get(args.storageId))) != ""
      && env.cachedSendOk && !env.cachedStoreOk && UploadSucceeds(env, args) && env.sendOk
    ensures Deliveries(trace) <= 2
    ensures CredentialsSet(env) && UploadSucceeds(env, args) && Uploads(trace) == 1 ==>
      cache.Get(args.storageId).Some? && cache.Get(args.storageId).value.mediaId == env.upload.id
    ensures forall t :: t != args.storageId ==> cache.Get(t) == old(cache.Get(t))
  {
    var logged := LogError(MEDIA_ERROR_ACTION, "Failed: " + args.fileName);
    var creds := GetCredentials(env.accessToken, env.phoneNumberId);
    if creds.Err? {
      return Err(creds.msg), [logged];
    }
    trace := [];
    var mediaId := CachedHandle(cache.Get(args.storageId));
    if mediaId != "" {
      var done, payload;
      done, payload, trace := TryCached(cache, env, args, mediaId);
      if done {
        return Ok(payload), trace;
      }
    }
    r, trace := UploadAndLog(cache, env, args, now, trace);
  }

  /** The cached attempt of `sendMedia` with its `catch`: when the send or the record fails,
      the cache entry is removed. */
  method TryCached(cache: MediaCacheTable, env: MediaEnv, args: MediaArgs, mediaId: string)
    returns (done: bool, payload: MediaPayload, trace: seq<Call>)
    requires cache.Valid()
    modifies cache
    ensures cache.Valid()
    ensures done <==> env.cachedSendOk && env.cachedStoreOk
    ensures payload == BuildMediaPayload(args.phoneNumber, MediaTypeOf(args.mimeType), mediaId, args.message, args.fileName)
    ensures Uploads(trace) == 0 && Deliveries(trace) == (if env.cachedSendOk then 1 else 0)
    ensures done ==> cache.rows == old(cache.rows)
    ensures !done ==> CacheRemove in trace && cache.Get(args.storageId).None?
    ensures forall t :: t != args.storageId ==> cache.Get(t) == old(cache.Get(t))
  {
    payload, trace := SendCached(env, args, mediaId);
    done := env.cachedSendOk && env.cachedStoreOk;
    if !done {
      cache.Remove(args.storageId);
      CountsSnoc(trace, CacheRemove);
      trace := trace + [CacheRemove];
    }
  }

  /** The upload path after the calls in `before`, with the failure logged. */
  method UploadAndLog(cache: MediaCacheTable, env: MediaEnv, args: MediaArgs, now: int, before: seq<Call>)
    returns (r: Result<MediaPayload>, trace: seq<Call>)
    requires cache.Valid()
    modifies cache
    ensures cache.Valid()
    ensures forall c :: c in before ==> c in trace
    ensures Uploads(trace) == Uploads(before) + (if args.storageId in env.files then 1 else 0)
    ensures Deliveries(trace) == Deliveries(before) + (if UploadSucceeds(env, args) && env.sendOk then 1 else 0)
    ensures r.Ok? <==> UploadSucceeds(env, args) && env.sendOk && env.storeOk
    ensures r.Ok? ==> r.value == BuildMediaPayload(args.phoneNumber, MediaTypeOf(args.mimeType), env.upload.id, args.message, args.fileName)
    ensures r.Err? ==> trace != [] && trace[|trace| - 1] == LogError(MEDIA_ERROR_ACTION, "Failed: " + args.fileName)
    ensures UploadSucceeds(env, args) ==>
      cache.Get(args.storageId).Some? && cache.Get(args.storageId).value.mediaId == env.upload.id
    ensures !UploadSucceeds(env, args) ==> cache.rows == old(cache.rows)
    ensures forall t :: t != args.storageId ==> cache.Get(t) == old(cache.Get(t))
  {
    var tail;
    r, tail := UploadAndSend(cache, env, args, now);
    CountsAppend(before, tail);
    trace := before + tail;
    if r.Err? {
      var logged := LogError(MEDIA_ERROR_ACTION, "Failed: " + args.fileName);
      CountsSnoc(trace, logged);
      trace := trace + [logged];
    }
  }

  /** `sendMedia` with the cached attempt's `try` around the send alone: once WhatsApp has
      accepted the message, a failure to record it is logged and rethrown, never retried. */
  method SendMediaOnce(cache: MediaCacheTable, env: MediaEnv, args: MediaArgs, now: int)
    returns (r: Result<MediaPayload>, trace: seq<Call>)
    requires cache.Valid()
    modifies cache
    ensures cache.Valid()
    ensures Deliveries(trace) <= 1
    ensures r.Ok? ==>
              Deliveries(trace) == 1 && r.value.to == args.phoneNumber
              && r.value.mediaType == MediaTypeOf(args.mimeType) && r.value.mediaId != ""
    ensures Uploads(trace) <= 1
    ensures r.Err? ==> trace != [] && trace[|trace| - 1] == LogError(MEDIA_ERROR_ACTION, "Failed: " + args.fileName)
    ensures var hit := CachedHandle(old(cache.Get(args.storageId)));
      CredentialsSet(env) && hit != "" && env.cachedSendOk ==>
        Uploads(trace) == 0 && Deliveries(trace) == 1 && cache.rows == old(cache.rows)
        && (r.Ok? <==> env.cachedStoreOk)
    ensures forall t :: t != args.storageId ==> cache.Get(t) == old(cache.Get(t))
  {
    var logged := LogError(MEDIA_ERROR_ACTION, "Failed: " + args.fileName);
    var creds := GetCredentials(env.accessToken, env.phoneNumberId);
    if creds.Err? {
      return Err(creds.msg), [logged];
    }
    trace := [];
    var mediaId := CachedHandle(cache.Get(args.storageId));
    if mediaId != "" {
      var payload;
      payload, trace := SendCached(env, args, mediaId);
      if env.cachedSendOk {
        if env.cachedStoreOk {
          return Ok(payload), trace;
        }
        CountsSnoc(trace, logged);
        return Err("storeMessage failed"), trace + [logged];
      }
      cache.Remove(args.storageId);
      CountsSnoc(trace, CacheRemove);
      trace := trace + [CacheRemove];
      mediaId := "";
    }
    var tail;
    r, tail := UploadAndSend(cache, env, args, now);
    CountsAppend(trace, tail);
    trace := trace + tail;
    if r.Err? {
      CountsSnoc(trace, logged);
      trace := trace + [logged];
    }
  }

  /** The input that makes the as-written `sendMedia` deliver the same media twice: a cached
      handle, an accepted cached send whose message insert fails, and a successful retry. */
  method DoubleDelivery() returns (delivered: nat, onceDelivered: nat)
    ensures delivered == 2 && onceDelivered == 1
  {
    var env := MediaEnv("token", "phone-id", map[7 := [0x25, 0x50, 0x44, 0x46]], true, false, UploadAccepted("m2"), true, true);
    var args := MediaArgs("919876543210", None, 7, "price.pdf", "application/pdf");
    var cache := new MediaCacheTable();
    cache.Save(7, "m1", "application/pdf", Some("price.pdf"), 0);
    var r, trace := SendMedia(cache, env, args, 1);
    delivered := Deliveries(trace);
    var cache2 := new MediaCacheTable();
    cache2.Save(7, "m1", "application/pdf", Some("price.pdf"), 0);
    var r2, trace2 := SendMediaOnce(cache2, env, args, 1);
    onceDelivered := Deliveries(trace2);
    assert r2.Err? by {
      assert GetCredentials("token", "phone-id").Ok?;
    }
  }

  /** The answer to one read-receipt request: ok, a non-ok response (logged, the loop goes
      on), or an exception, which ends the loop. */
  datatype ReadReply = ReadOk | ReadRejected | ReadThrew

  /** The first request that throws, among the first `n`. */
  function FirstThrow(replies: nat -> ReadReply, n: nat): (r: Option<nat>)
    ensures r.Some? ==> r.value < n && replies(r.value) == ReadThrew
    ensures r.Some? ==> forall i :: 0 <= i < r.value ==> replies(i) != ReadThrew
    ensures r.None? ==> forall i :: 0 <= i < n ==> replies(i) != ReadThrew
  {
    if n == 0 then None
    else match FirstThrow(replies, n - 1)
      case Some(k) => Some(k)
      case None => if replies(n - 1) == ReadThrew then Some(n - 1) else None
  }

  /** The ids among the first `n` whose request came back non-ok, in the order they were
      sent (`RejectedGrows`). */
  function Rejected(ids: seq<string>, replies: nat -> ReadReply, n: nat): (r: seq<string>)
    requires n <= |ids|
    ensures |r| <= n
    ensures forall x :: x in r <==> exists k :: 0 <= k < n && ids[k] == x && replies(k) == ReadRejected
  {
    if n == 0 then []
    else
      var r := Rejected(ids, replies, n - 1) + (if replies(n - 1) == ReadRejected then [ids[n - 1]] else []);
      assert forall x :: x in r && x !in Rejected(ids, replies, n - 1) ==> x == ids[n - 1];
      r
  }

  /** What is logged for the first `m` requests stays at the head of the log as more
      requests are made. */
  lemma {:induction false} RejectedGrows(ids: seq<string>, replies: nat -> ReadReply, m: nat, n: nat)
    requires m <= n <= |ids|
    ensures Rejected(ids, replies, m) <= Rejected(ids, replies, n)
    decreases n - m
  {
    if m < n {
      RejectedGrows(ids, replies, m, n - 1);
      PrefixOfAppend(Rejected(ids, replies, n - 1), if replies(n - 1) == ReadRejected then [ids[n - 1]] else []);
    }
  }

  /** `markMessagesAsRead`: one request per id, in order; `replies(i)` answers the i-th. */
  method MarkMessagesAsRead(accessToken: string, phoneNumberId: string, messageIds: seq<string>, replies: nat -> ReadReply)
    returns (success: bool, posted: seq<string>, logged: seq<string>)
    ensures success <==> GetCredentials(accessToken, phoneNumberId).Ok? && FirstThrow(replies, |messageIds|).None?
    ensures GetCredentials(accessToken, phoneNumberId).Err? ==> posted == []
    ensures success ==> posted == messageIds && logged == Rejected(messageIds, replies, |messageIds|)
    ensures GetCredentials(accessToken, phoneNumberId).Ok? && FirstThrow(replies, |messageIds|).Some? ==>
      posted == messageIds[..FirstThrow(replies, |messageIds|).value + 1]
  {
    posted := [];
    logged := [];
    var creds := GetCredentials(accessToken, phoneNumberId);
    if creds.Err? {
      return false, posted, logged;
    }
    var i := 0;
    while i < |messageIds|
      invariant 0 <= i <= |messageIds|
      invariant FirstThrow(replies, i).None?
      invariant posted == messageIds[..i]
      invariant logged == Rejected(messageIds, replies, i)
    {
      posted := posted + [messageIds[i]];
      var reply := replies(i);
      if reply == ReadThrew {
        assert FirstThrow(replies, i + 1) == Some(i);
        FirstThrowStable(replies, i + 1, |messageIds|);
        assert posted == messageIds[..i + 1];
        return false, posted, logged;
      }
      if reply == ReadRejected {
        logged := logged + [messageIds[i]];
      }
      i := i + 1;
    }
    assert messageIds[..i] == messageIds;
    success := true;
  }

  lemma {:induction false} FirstThrowStable(replies: nat -> ReadReply, m: nat, n: nat)
    requires m <= n && FirstThrow(replies, m).Some?
    ensures FirstThrow(replies, n) == FirstThrow(replies, m)
    decreases n - m
  {
    if m < n {
      FirstThrowStable(replies, m, n - 1);
    }
  }
}
