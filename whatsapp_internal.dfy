/** The internal WhatsApp actions called by other server code: the welcome message for a
    new lead, a text send that reports failure instead of throwing, and a media send that
    always uploads and never touches the media cache. */
module WhatsAppInternal {
  import opened Common
  import opened MediaCache
  import opened WhatsAppMessages

  const NOT_CONFIGURED := "WhatsApp API not configured. Missing environment variables: "
  const SETTINGS_HINT := ". Please set these in the Convex dashboard under Settings > Environment Variables."

  /** `getWhatsAppCredentials` of this file: the same check, with a longer message. */
  function GetInternalCredentials(accessToken: string, phoneNumberId: string): (r: Result<Credentials>)
    ensures r.Ok? <==> accessToken != "" && phoneNumberId != ""
    ensures r.Ok? ==> r.value == Credentials(accessToken, phoneNumberId)
    ensures r.Err? ==> NOT_CONFIGURED + Join(", ", MissingVariables(accessToken, phoneNumberId)) <= r.msg
  {
    var missing := MissingVariables(accessToken, phoneNumberId);
    if missing != [] then
      var named := NOT_CONFIGURED + Join(", ", missing);
      PrefixOfAppend(named, SETTINGS_HINT);
      Err(named + SETTINGS_HINT)
    else
      Ok(Credentials(accessToken, phoneNumberId))
  }

  const WELCOME_TEXT := "Thank you for contacting us! We've received your message and will get back to you shortly. \U{1F64F}"

  /** What `sendWelcomeMessage` did: the text sent to WhatsApp (when a request was made), the
      text stored as the outbound message (only after an ok response and a successful insert),
      and the activity-log action written on failure. */
  datatype WelcomeOutcome = WelcomeOutcome(result: Result<string>, sent: Option<TextPayload>,
                                           stored: Option<string>, logged: Option<string>)

  /** `sendWelcomeMessage`: the welcome text goes to the phone number as given; any failure is
      logged as "Welcome Message Failed" and rethrown. */
  method SendWelcomeMessage(accessToken: string, phoneNumber: string, phoneNumberId: string, sendOk: bool, storeOk: bool)
    returns (o: WelcomeOutcome)
    ensures o.result.Ok? <==> accessToken != "" && phoneNumberId != "" && sendOk && storeOk
    ensures o.sent.Some? <==> accessToken != "" && phoneNumberId != ""
    ensures o.sent.Some? ==> o.sent.value == TextPayload(phoneNumber, WELCOME_TEXT, None)
    ensures o.stored.Some? <==> o.result.Ok?
    ensures o.stored.Some? ==> o.stored.value == WELCOME_TEXT
    ensures o.logged.Some? <==> o.result.Err?
    ensures o.logged.Some? ==> o.logged.value == "Welcome Message Failed"
  {
    o := WelcomeOutcome(Ok(phoneNumber), None, None, None);
    var creds := GetInternalCredentials(accessToken, phoneNumberId);
    if creds.Err? {
      return o.(result := Err(creds.msg), logged := Some("Welcome Message Failed"));
    }
    o := o.(sent := Some(TextPayload(phoneNumber, WELCOME_TEXT, None)));
    if !sendOk {
      return o.(result := Err("WhatsApp API error"), logged := Some("Welcome Message Failed"));
    }
    if !storeOk {
      return o.(result := Err("storeMessage failed"), logged := Some("Welcome Message Failed"));
    }
    o := o.(stored := Some(WELCOME_TEXT));
  }

  /** `sendMessage`'s return value: it never throws. */
  datatype SendReport = SendReport(success: bool, error: string)

  /** `sendMessage`: the payload goes out with the cleaned phone number; a non-ok response is
      logged as "Message Send Failed", any exception as "Message Send Error", and both come
      back as `success: false`. */
  method SendMessage(accessToken: string, phoneNumberId: string, phoneNumber: string, message: string,
                     quotedExternalId: Option<string>, sendOk: bool, storeOk: bool)
    returns (report: SendReport, sent: Option<TextPayload>, stored: bool, logged: seq<string>)
    ensures report.success <==> accessToken != "" && phoneNumberId != "" && sendOk && storeOk
    ensures sent.Some? <==> accessToken != "" && phoneNumberId != ""
    ensures sent.Some? ==> sent.value == BuildTextPayload(phoneNumber, message, quotedExternalId)
    ensures stored <==> report.success
    ensures report.success ==> logged == []
    ensures !report.success ==> |logged| == 1 && report.error != ""
    ensures sent.Some? && !sendOk ==> logged == ["Message Send Failed"]
    ensures (sent.None? || (sendOk && !storeOk)) ==> logged == ["Message Send Error"]
  {
    sent := None;
    stored := false;
    logged := [];
    var creds := GetInternalCredentials(accessToken, phoneNumberId);
    if creds.Err? {
      logged := logged + ["Message Send Error"];
      return SendReport(false, creds.msg), sent, stored, logged;
    }
    var payload := TextPayload(CleanPhone(phoneNumber), message, None);
    if quotedExternalId.Some? && quotedExternalId.value != "" {
      payload := payload.(context := quotedExternalId);
    }
    sent := Some(payload);
    if !sendOk {
      logged := logged + ["Message Send Failed"];
      return SendReport(false, "WhatsApp API error"), sent, stored, logged;
    }
    if !storeOk {
      logged := logged + ["Message Send Error"];
      return SendReport(false, "storeMessage failed"), sent, stored, logged;
    }
    stored := true;
    report := SendReport(true, "");
  }

  const UPLOAD_FAILED_ACTION := "Media Upload Failed"
  const SEND_FAILED_ACTION := "Media Send Failed"

  /** The internal `sendMedia` payload: a caption whenever a non-empty message is given, and
      for documents always the file name. */
  function InternalMediaPayload(to: string, t: MediaType, mediaId: string, message: Option<string>, fileName: string): (p: MediaPayload)
    ensures p.to == to && p.mediaType == t && p.mediaId == mediaId
    ensures p.caption.Some? <==> message.Some? && message.value != ""
    ensures p.caption.Some? ==> p.caption == message
    ensures p.filename.Some? <==> t == Document
    ensures p.filename.Some? ==> p.filename.value == fileName
  {
    MediaPayload(to, t, mediaId,
      if message.Some? && message.value != "" then message else None,
      if t == Document then Some(fileName) else None)
  }

  /** The internal `sendMedia`: read the file, upload it, send, record. A non-ok upload or
      send writes its own log entry before the exception, which the handler logs again as
      "Media Send Error" and rethrows. The media cache is never read or written. */
  method SendMediaUncached(env: MediaEnv, args: MediaArgs) returns (r: Result<MediaPayload>, trace: seq<Call>)
    ensures r.Ok? <==> CredentialsSet(env) && UploadSucceeds(env, args) && env.sendOk && env.storeOk
    ensures r.Ok? ==> r.value == InternalMediaPayload(args.phoneNumber, MediaTypeOf(args.mimeType), env.upload.id, args.message, args.fileName)
    ensures Uploads(trace) <= 1 && Deliveries(trace) <= 1
    ensures Deliveries(trace) == 1 <==> CredentialsSet(env) && UploadSucceeds(env, args) && env.sendOk
    ensures r.Err? ==> trace != [] && trace[|trace| - 1] == LogError(MEDIA_ERROR_ACTION, "Error sending media " + args.fileName)
    ensures CredentialsSet(env) && args.storageId in env.files && env.upload.UploadRejected? ==>
      LogError(UPLOAD_FAILED_ACTION, "Failed to upload " + args.fileName + " to WhatsApp") in trace
    ensures CredentialsSet(env) && UploadSucceeds(env, args) && !env.sendOk ==>
      LogError(SEND_FAILED_ACTION, "Failed to send " + args.fileName + " via WhatsApp") in trace
  {
    var logged := LogError(MEDIA_ERROR_ACTION, "Error sending media " + args.fileName);
    var mediaId, uploadTrace := UploadFile(env, args);
    if mediaId.Err? {
      CountsSnoc(uploadTrace, logged);
      return Err(mediaId.msg), uploadTrace + [logged];
    }
    var sent, sendTrace := SendUploaded(env, args, mediaId.value);
    CountsAppend(uploadTrace, sendTrace);
    trace := uploadTrace + sendTrace;
    if sent.Err? {
      CountsSnoc(trace, logged);
      return sent, trace + [logged];
    }
    r := sent;
  }

  /** The first half of the internal `sendMedia`: credentials, the stored file and the upload,
      with the upload failure's own log entry; the handler's entry is left to the caller. */
  method UploadFile(env: MediaEnv, args: MediaArgs) returns (mediaId: Result<string>, trace: seq<Call>)
    ensures mediaId.Ok? <==> CredentialsSet(env) && UploadSucceeds(env, args)
    ensures mediaId.Ok? ==> mediaId.value == env.upload.id
    ensures Uploads(trace) <= 1 && Deliveries(trace) == 0
    ensures CredentialsSet(env) && args.storageId in env.files && env.upload.UploadRejected? ==>
      LogError(UPLOAD_FAILED_ACTION, "Failed to upload " + args.fileName + " to WhatsApp") in trace
  {
    var creds := GetInternalCredentials(env.accessToken, env.phoneNumberId);
    if creds.Err? {
      return Err(creds.msg), [];
    }
    CountsSnoc([], ReadFile(args.storageId in env.files));
    trace := [] + [ReadFile(args.storageId in env.files)];
    if args.storageId !in env.files {
      return Err("File not found in storage"), trace;
    }
    CountsSnoc(trace, Upload(env.upload));
    trace := trace + [Upload(env.upload)];
    if env.upload.UploadRejected? {
      var uploadLog := LogError(UPLOAD_FAILED_ACTION, "Failed to upload " + args.fileName + " to WhatsApp");
      CountsSnoc(trace, uploadLog);
      return Err("WhatsApp media upload error"), trace + [uploadLog];
    }
    if env.upload.id == "" {
      return Err("WhatsApp did not return a media ID"), trace;
    }
    mediaId := Ok(env.upload.id);
  }

  /** The second half: the message with the uploaded id, then the stored copy, with the send
      failure's own log entry. */
  method SendUploaded(env: MediaEnv, args: MediaArgs, mediaId: string) returns (r: Result<MediaPayload>, trace: seq<Call>)
    ensures r.Ok? <==> env.sendOk && env.storeOk
    ensures r.Ok? ==> r.value == InternalMediaPayload(args.phoneNumber, MediaTypeOf(args.mimeType), mediaId, args.message, args.fileName)
    ensures Uploads(trace) == 0 && Deliveries(trace) == (if env.sendOk then 1 else 0)
    ensures !env.sendOk ==> LogError(SEND_FAILED_ACTION, "Failed to send " + args.fileName + " via WhatsApp") in trace
  {
    var mediaType := MediaTypeOf(args.mimeType);
    var payload := MediaPayload(args.phoneNumber, mediaType, mediaId, None, None);
    if args.message.Some? && args.message.value != "" {
      payload := payload.(caption := args.message);
    }
    if mediaType == Document {
      payload := payload.(filename := Some(args.fileName));
    }
    assert payload == InternalMediaPayload(args.phoneNumber, mediaType, mediaId, args.message, args.fileName);
    var post := PostMessage(payload, env.sendOk);
    CountsSnoc([], post);
    assert [] + [post] == [post];
    trace := [post];
    if !env.sendOk {
      var sendLog := LogError(SEND_FAILED_ACTION, "Failed to send " + args.fileName + " via WhatsApp");
      CountsSnoc(trace, sendLog);
      return Err("WhatsApp API error"), trace + [sendLog];
    }
    var store := StoreMessage(StoredContent(args.message), mediaType, env.storeOk);
    CountsSnoc(trace, store);
    trace := trace + [store];
    if !env.storeOk {
      return Err("storeMessage failed"), trace;
    }
    r := Ok(payload);
  }
}
