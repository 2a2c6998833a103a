/** The WhatsApp chat pane: choosing an attachment, the send button (a file goes out as media
    with the typed text as caption, otherwise the text goes out as a message, quoting the message
    replied to), and the initials in the contact's avatar.

    The upload (upload URL, POST, storage id) is the parameter `upload`; what the send actions
    answer is the parameter `sent`. */
module ChatWindow {
  import opened Common

  type LeadId = nat

  const MAX_FILE_SIZE := 16 * 1024 * 1024
  const FILE_TOO_LARGE := "File size must be less than 16MB"
  const NO_CONTACT := "Please select a contact"
  const EMPTY_MESSAGE := "Please enter a message"
  const MEDIA_SENT := "Media sent successfully"
  const MESSAGE_SENT := "Message sent"

  datatype File = File(name: string, size: nat, mimeType: string)

  /** The message being answered: its id and its WhatsApp id. */
  datatype Quoted = Quoted(id: nat, externalId: string)

  datatype ChatLead = ChatLead(id: LeadId, mobile: string)

  /** The pane's state: the text typed, the file chosen and the message replied to. */
  datatype Compose = Compose(whatsappMessage: string, selectedFile: Option<File>, replyingTo: Option<Quoted>)

  /** `handleFileSelect`: a file over 16 MiB is refused and the earlier choice stays; the
      message shown, if any, is the second component. */
  function HandleFileSelect(c: Compose, file: Option<File>): (r: (Compose, Option<Result<string>>))
    ensures file.None? ==> r == (c, None)
    ensures file.Some? && file.value.size <= MAX_FILE_SIZE ==>
      r == (c.(selectedFile := file), Some(Ok("Selected: " + file.value.name)))
    ensures file.Some? && file.value.size > MAX_FILE_SIZE ==> r == (c, Some(Err(FILE_TOO_LARGE)))
    ensures r.0.selectedFile != c.selectedFile ==> r.0.selectedFile.value.size <= MAX_FILE_SIZE
  {
    match file
    case None => (c, None)
    case Some(f) =>
      if f.size > MAX_FILE_SIZE then (c, Some(Err(FILE_TOO_LARGE)))
      else (c.(selectedFile := file), Some(Ok("Selected: " + f.name)))
  }

  /** Whatever files are offered, a chosen file is never over the limit once the first choice
      was within it. */
  lemma {:induction false} ChosenFileWithinLimit(c: Compose, files: seq<Option<File>>)
    requires c.selectedFile.None? || c.selectedFile.value.size <= MAX_FILE_SIZE
    ensures var e := AfterFileSelects(c, files);
      e.selectedFile.None? || e.selectedFile.value.size <= MAX_FILE_SIZE
    decreases |files|
  {
    if files != [] {
      ChosenFileWithinLimit(HandleFileSelect(c, files[0]).0, files[1..]);
    }
  }

  /** The state after the user picks each of `files` in turn. */
  function AfterFileSelects(c: Compose, files: seq<Option<File>>): Compose
    decreases |files|
  {
    if files == [] then c else AfterFileSelects(HandleFileSelect(c, files[0]).0, files[1..])
  }

  /** The action called. */
  datatype Call =
    | SendMedia(phoneNumber: string, caption: Option<string>, leadId: LeadId, storageId: string,
                fileName: string, mimeType: string)
    | SendMessage(phoneNumber: string, message: string, leadId: LeadId, quoted: Option<Quoted>)

  /** The state after a send, the action called if any, and the message shown. */
  datatype SendOutcome = SendOutcome(compose: Compose, call: Option<Call>, result: Result<string>)

  /** `handleSendWhatsApp`. */
  function HandleSendWhatsApp(c: Compose, selectedLead: Option<ChatLead>, upload: Result<string>, sent: Result<()>)
    : (r: SendOutcome)
    ensures selectedLead.None? ==> r == SendOutcome(c, None, Err(NO_CONTACT))
    ensures r.call.Some? && r.call.value.SendMedia? <==> selectedLead.Some? && c.selectedFile.Some? && upload.Ok?
    ensures r.call.Some? && r.call.value.SendMessage? <==>
      selectedLead.Some? && c.selectedFile.None? && Trim(c.whatsappMessage) != ""
    ensures r.call.Some? && r.call.value.SendMedia? ==>
      r.call.value.caption == (if Trim(c.whatsappMessage) != "" then Some(Trim(c.whatsappMessage)) else None)
      && r.call.value.fileName == c.selectedFile.value.name && r.call.value.mimeType == c.selectedFile.value.mimeType
      && r.call.value.storageId == upload.value && r.call.value.phoneNumber == selectedLead.value.mobile
    ensures r.call.Some? && r.call.value.SendMessage? ==>
      r.call.value == SendMessage(selectedLead.value.mobile, c.whatsappMessage, selectedLead.value.id, c.replyingTo)
    ensures selectedLead.Some? && c.selectedFile.None? && Trim(c.whatsappMessage) == "" ==>
      r == SendOutcome(c, None, Err(EMPTY_MESSAGE))
    ensures r.result.Ok? <==> r.call.Some? && sent.Ok?
    ensures r.result.Err? ==> r.compose == c
    ensures r.result.Ok? ==>
      (r.compose.whatsappMessage == "" && r.compose.selectedFile.None?
       && r.compose.replyingTo == (if c.selectedFile.Some? then c.replyingTo else None))
  {
    if selectedLead.None? then SendOutcome(c, None, Err(NO_CONTACT))
    else if c.selectedFile.Some? then
      var file := c.selectedFile.value;
      match upload
      case Err(m) => SendOutcome(c, None, Err(m))
      case Ok(storageId) =>
        var caption := if Trim(c.whatsappMessage) != "" then Some(Trim(c.whatsappMessage)) else None;
        var call := SendMedia(selectedLead.value.mobile, caption, selectedLead.value.id, storageId, file.name, file.mimeType);
        if sent.Ok? then SendOutcome(c.(whatsappMessage := "", selectedFile := None), Some(call), Ok(MEDIA_SENT))
        else SendOutcome(c, Some(call), Err(sent.msg))
    else if Trim(c.whatsappMessage) == "" then SendOutcome(c, None, Err(EMPTY_MESSAGE))
    else
      var call := SendMessage(selectedLead.value.mobile, c.whatsappMessage, selectedLead.value.id, c.replyingTo);
      if sent.Ok? then SendOutcome(c.(whatsappMessage := "", replyingTo := None), Some(call), Ok(MESSAGE_SENT))
      else SendOutcome(c, Some(call), Err(sent.msg))
  }

  /** A file attached with blank text goes out without a caption: the text does not block
      the media. */
  lemma BlankTextSendsMediaWithoutCaption(c: Compose, lead: ChatLead, storageId: string, sent: Result<()>)
    requires c.selectedFile.Some? && Trim(c.whatsappMessage) == ""
    ensures var r := HandleSendWhatsApp(c, Some(lead), Ok(storageId), sent);
      r.call.Some? && r.call.value.SendMedia? && r.call.value.caption.None?
  {
  }

  /** `name.split(" ")`: the pieces between single spaces, empty ones included. */
  function SplitSpaces(s: string): (words: seq<string>)
    ensures |words| >= 1
  {
    if s == "" then [""]
    else if s[0] == ' ' then [""] + SplitSpaces(s[1..])
    else
      var rest := SplitSpaces(s[1..]);
      [[s[0]] + rest[0]] + rest[1..]
  }

  /** `.map(n => n[0]).join("")`: the first character of each non-empty piece (the first of an
      empty piece is `undefined`, which `join` writes as nothing). */
  function Firsts(words: seq<string>): string {
    if words == [] then ""
    else (if words[0] == "" then "" else [words[0][0]]) + Firsts(words[1..])
  }

  /** The characters that start a word: not a space, and first or after a space. */
  function WordStarts(s: string, afterSpace: bool): (r: string)
    ensures |r| <= |s| && ' ' !in r
  {
    if s == "" then ""
    else (if s[0] != ' ' && afterSpace then [s[0]] else "") + WordStarts(s[1..], s[0] == ' ')
  }

  /** `getInitials`. */
  function GetInitials(name: string): (r: string)
    ensures |r| <= 2
  {
    var all := ToUpper(Firsts(SplitSpaces(name)));
    if |all| <= 2 then all else all[..2]
  }

  /** The split-map-join reads the word starts off the name. */
  lemma {:induction false} FirstsAreWordStarts(s: string)
    ensures Firsts(SplitSpaces(s)) == WordStarts(s, true)
    ensures Firsts(SplitSpaces(s)[1..]) == WordStarts(s, false)
  {
    if s != "" {
      FirstsAreWordStarts(s[1..]);
      var rest := SplitSpaces(s[1..]);
      if s[0] == ' ' {
        assert SplitSpaces(s) == [""] + rest;
        assert (SplitSpaces(s))[1..] == rest;
      } else {
        var words := SplitSpaces(s);
        assert words == [[s[0]] + rest[0]] + rest[1..];
        assert words[1..] == rest[1..];
        assert words[0][0] == s[0];
      }
    }
  }

  /** The avatar shows the first letters of the first two words, upper-cased. */
  lemma InitialsAreFirstTwoWordStarts(name: string)
    ensures var starts := ToUpper(WordStarts(name, true));
      GetInitials(name) == if |starts| <= 2 then starts else starts[..2]
  {
    FirstsAreWordStarts(name);
  }

  /** The initials hold no space. */
  lemma InitialsHaveNoSpace(name: string)
    ensures ' ' !in GetInitials(name)
  {
    FirstsAreWordStarts(name);
    var starts := WordStarts(name, true);
    var up := ToUpper(starts);
    forall k | 0 <= k < |up|
      ensures up[k] != ' '
    {
      assert starts[k] in starts;
    }
  }

  /** The pane's state as the component holds it. */
  class ChatPane {
    var whatsappMessage: string
    var selectedFile: Option<File>
    var replyingTo: Option<Quoted>

    constructor ()
      ensures whatsappMessage == "" && selectedFile == None && replyingTo == None
    {
      whatsappMessage := "";
      selectedFile := None;
      replyingTo := None;
    }

    function State(): Compose
      reads this
    {
      Compose(whatsappMessage, selectedFile, replyingTo)
    }

    /** `handleFileSelect`: the size check, then the update of the chosen file. */
    method SelectFile(file: Option<File>) returns (shown: Option<Result<string>>)
      modifies this
      ensures (State(), shown) == HandleFileSelect(old(State()), file)
    {
      if file.None? {
        return None;
      }
      if file.value.size > MAX_FILE_SIZE {
        return Some(Err(FILE_TOO_LARGE));
      }
      selectedFile := file;
      shown := Some(Ok("Selected: " + file.value.name));
    }

    /** `handleSendWhatsApp`: the checks, the call, then the clearing of the fields on success. */
    method SendWhatsApp(selectedLead: Option<ChatLead>, upload: Result<string>, sent: Result<()>)
      returns (call: Option<Call>, shown: Result<string>)
      modifies this
      ensures SendOutcome(State(), call, shown) == HandleSendWhatsApp(old(State()), selectedLead, upload, sent)
    {
      if selectedLead.None? {
        return None, Err(NO_CONTACT);
      }
      var lead := selectedLead.value;
      if selectedFile.Some? {
        var file := selectedFile.value;
        if upload.Err? {
          return None, Err(upload.msg);
        }
        var caption := if Trim(whatsappMessage) != "" then Some(Trim(whatsappMessage)) else None;
        call := Some(SendMedia(lead.mobile, caption, lead.id, upload.value, file.name, file.mimeType));
        if sent.Err? {
          return call, Err(sent.msg);
        }
        whatsappMessage := "";
        selectedFile := None;
        return call, Ok(MEDIA_SENT);
      }
      if Trim(whatsappMessage) == "" {
        return None, Err(EMPTY_MESSAGE);
      }
      call := Some(SendMessage(lead.mobile, whatsappMessage, lead.id, replyingTo));
      if sent.Err? {
        return call, Err(sent.msg);
      }
      whatsappMessage := "";
      replyingTo := None;
      shown := Ok(MESSAGE_SENT);
    }
  }
}
