/**
 * The admin's chat panel. Besides the conversation list (with a search box)
 * and the selected conversation, it keeps a list of locally created
 * "optimistic" messages: each send appends one with status `Sending`, and
 * when the request settles only the entries carrying that send's temporary id
 * are rewritten to `Sent` or `Failed`. The conversation shows the server's
 * messages, minus those an optimistic entry stands for (same kind and same
 * content), followed by every optimistic entry.
 *
 * Each send is two steps here, as in the panel: the synchronous start (guard,
 * append, request) and the completion when the awaited requests settle, with
 * their outcomes given as parameters. Other steps may run in between.
 */
module AdminChat {
  import opened Common
  import opened Store
  import opened JsString

  datatype SendStatus = Sending | Sent | Failed

  /** A locally created message; `isOptimistic` is always true for entries the
      panel creates. */
  datatype OptimisticMessage = OptimisticMessage(
    id: string,
    senderId: string,
    kind: MessageKind,
    content: Option<string>,
    fileUrl: Option<string>,
    fileName: Option<string>,
    fileType: Option<string>,
    createdAt: int,
    status: SendStatus,
    isOptimistic: bool)

  /** A file picked or recorded for sending. */
  datatype File = File(name: string, size: nat, mimeType: string)

  /** The chat POST of a text message. */
  datatype TextPost = TextPost(chatId: string, content: string)

  /** The chat POST of an uploaded file. */
  datatype FilePost = FilePost(chatId: string, fileUrl: string, fileName: string, fileType: string)

  /** What the upload-grant route returned: where to upload and the public URL. */
  datatype Grant = Grant(uploadUrl: string, publicUrl: string)

  /** The requests a file send issues after the grant request. */
  datatype FileRequests = FileRequests(uploadTo: Option<string>, post: Option<FilePost>)

  const MaxSizeBytes: nat := 5 * 1024 * 1024

  const AllowedMimeTypes: seq<string> := [
    "application/pdf", "image/png", "image/jpeg", "image/jpg", "image/gif",
    "audio/mpeg", "audio/wav", "audio/ogg", "audio/webm"]

  /** A file may be sent when it is at most 5 MB and of an allowed type. */
  predicate Accepts(size: nat, mimeType: string) {
    size <= MaxSizeBytes && mimeType in AllowedMimeTypes
  }

  /** A recording is always of type `audio/webm`, which is allowed, so only
      its size decides. */
  lemma RecordingAccepted(size: nat)
    ensures Accepts(size, "audio/webm") <==> size <= 5242880
  {
    assert AllowedMimeTypes[8] == "audio/webm";
  }

  /** `temp-${Date.now()}`. */
  function TempId(now: nat): string {
    "temp-" + NatToString(now)
  }

  function TextEntry(id: string, senderId: string, content: string, now: int): OptimisticMessage {
    OptimisticMessage(id, senderId, TEXT, Some(content), None, None, None, now, Sending, true)
  }

  function FileEntry(id: string, senderId: string, file: File, objectUrl: string, now: int): OptimisticMessage {
    OptimisticMessage(id, senderId, FILE, Some(file.name), Some(objectUrl), Some(file.name), Some(file.mimeType), now, Sending, true)
  }

  /** `prev.map(msg => msg.id === id ? { ...msg, status } : msg)`. */
  function MarkStatus(msgs: seq<OptimisticMessage>, id: string, status: SendStatus): (r: seq<OptimisticMessage>)
    ensures |r| == |msgs|
    ensures forall k :: 0 <= k < |r| && msgs[k].id != id ==> r[k] == msgs[k]
    ensures forall k :: 0 <= k < |r| && msgs[k].id == id ==> r[k].status == status && r[k].(status := msgs[k].status) == msgs[k]
  {
    seq(|msgs|, k requires 0 <= k < |msgs| => if msgs[k].id == id then msgs[k].(status := status) else msgs[k])
  }

  predicate FreshId(msgs: seq<OptimisticMessage>, id: string) {
    forall k :: 0 <= k < |msgs| ==> msgs[k].id != id
  }

  /** When a send's temporary id is unique, settling it rewrites only its own
      entry, wherever later sends have put it in the list. */
  lemma MarkOwnEntry(before: seq<OptimisticMessage>, m: OptimisticMessage, after: seq<OptimisticMessage>, status: SendStatus)
    requires FreshId(before, m.id) && FreshId(after, m.id)
    ensures MarkStatus(before + [m] + after, m.id, status) == before + [m.(status := status)] + after
  {
    var msgs := before + [m] + after;
    var r := MarkStatus(msgs, m.id, status);
    forall k | 0 <= k < |r| ensures r[k] == (before + [m.(status := status)] + after)[k] {
      if k < |before| {
        assert msgs[k] == before[k];
      } else if k > |before| {
        assert msgs[k] == after[k - |before| - 1];
      }
    }
  }

  /** Settling a send whose entry is gone (the selection changed) changes
      nothing. */
  lemma MarkVanished(msgs: seq<OptimisticMessage>, id: string, status: SendStatus)
    requires FreshId(msgs, id)
    ensures MarkStatus(msgs, id, status) == msgs
  {
  }

  /** A server message is hidden when some optimistic entry has its kind and
      its content, whoever sent it and whenever. */
  predicate Shadowed(m: Message, optimistic: seq<OptimisticMessage>) {
    exists k :: 0 <= k < |optimistic| && optimistic[k].kind == m.kind && optimistic[k].content == m.content
  }

  /** The server messages that are shown, in server order. */
  function VisibleServer(server: seq<Message>, optimistic: seq<OptimisticMessage>): (r: seq<Message>)
    ensures forall k :: 0 <= k < |r| ==> r[k] in server && !Shadowed(r[k], optimistic)
    ensures forall k :: 0 <= k < |server| && !Shadowed(server[k], optimistic) ==> server[k] in r
  {
    Filter(server, (m: Message) => !Shadowed(m, optimistic))
  }

  /** One bubble of the conversation. */
  datatype Bubble = FromServer(message: Message) | Pending(entry: OptimisticMessage)

  /** The conversation: the visible server messages, then every optimistic entry. */
  function Rendered(server: seq<Message>, optimistic: seq<OptimisticMessage>): (r: seq<Bubble>)
    ensures |r| == |VisibleServer(server, optimistic)| + |optimistic|
    ensures forall k :: 0 <= k < |VisibleServer(server, optimistic)| ==> r[k] == FromServer(VisibleServer(server, optimistic)[k])
    ensures forall k :: 0 <= k < |optimistic| ==> r[|VisibleServer(server, optimistic)| + k] == Pending(optimistic[k])
  {
    var visible := VisibleServer(server, optimistic);
    seq(|visible|, k requires 0 <= k < |visible| => FromServer(visible[k]))
      + seq(|optimistic|, k requires 0 <= k < |optimistic| => Pending(optimistic[k]))
  }

  /** A server message is on screen iff no optimistic entry has its kind and
      content; every optimistic entry is on screen. */
  lemma RenderedIff(server: seq<Message>, optimistic: seq<OptimisticMessage>, m: Message)
    requires m in server
    ensures FromServer(m) in Rendered(server, optimistic) <==> !Shadowed(m, optimistic)
    ensures forall o :: o in optimistic ==> Pending(o) in Rendered(server, optimistic)
  {
    var r := Rendered(server, optimistic);
    var visible := VisibleServer(server, optimistic);
    assert forall j :: |visible| <= j < |r| ==> r[j].Pending? by {
      forall j | |visible| <= j < |r| ensures r[j].Pending? {
        assert r[|visible| + (j - |visible|)] == Pending(optimistic[j - |visible|]);
      }
    }
    if FromServer(m) in r {
      var k :| 0 <= k < |r| && r[k] == FromServer(m);
      assert k < |visible|;
      assert m == visible[k];
    }
    if !Shadowed(m, optimistic) {
      var i :| 0 <= i < |server| && server[i] == m;
      assert m in visible;
      var k :| 0 <= k < |visible| && visible[k] == m;
      assert r[k] == FromServer(m);
    }
    forall o | o in optimistic ensures Pending(o) in r {
      var k :| 0 <= k < |optimistic| && optimistic[k] == o;
      assert r[|visible| + k] == Pending(o);
    }
  }

  /** The visible server messages keep the server's order. */
  lemma VisibleKeepsOrder(server: seq<Message>, optimistic: seq<OptimisticMessage>)
    ensures Subsequence(VisibleServer(server, optimistic), server)
  {
    FilterIsSubsequence(server, (m: Message) => !Shadowed(m, optimistic));
  }

  /** A conversation entry as the panel reads it from the chat list route:
      `name` is what it shows and searches as the user's name. */
  datatype ChatEntry = ChatEntry(id: string, userName: Option<string>, userEmail: string, lastMessage: Option<Message>)

  /** `chat.user.name?.toLowerCase() || ""`. */
  function NameOrEmpty(c: ChatEntry): string {
    if c.userName.Some? then ToLower(c.userName.value) else ""
  }

  predicate MatchesQuery(c: ChatEntry, query: string) {
    Includes(NameOrEmpty(c), ToLower(query)) || Includes(ToLower(c.userEmail), ToLower(query))
  }

  /** `filteredChatList`: the conversations whose user name or email contains
      the query, ignoring case, in list order. */
  function FilterChats(chats: seq<ChatEntry>, query: string): (r: seq<ChatEntry>)
    ensures forall k :: 0 <= k < |r| ==> r[k] in chats && MatchesQuery(r[k], query)
    ensures forall k :: 0 <= k < |chats| && MatchesQuery(chats[k], query) ==> chats[k] in r
  {
    Filter(chats, (c: ChatEntry) => MatchesQuery(c, query))
  }

  /** An empty query keeps every conversation, in order. */
  lemma EmptyQueryKeepsAll(chats: seq<ChatEntry>)
    ensures FilterChats(chats, "") == chats
  {
    forall c | c in chats ensures MatchesQuery(c, "") {
      IncludesEmpty(ToLower(c.userEmail));
    }
    FilterAll(chats, (c: ChatEntry) => MatchesQuery(c, ""));
  }

  /** The search result keeps the list's order. */
  lemma FilterChatsKeepsOrder(chats: seq<ChatEntry>, query: string)
    ensures Subsequence(FilterChats(chats, query), chats)
  {
    FilterIsSubsequence(chats, (c: ChatEntry) => MatchesQuery(c, query));
  }

  /** The chat list route sends the user's first and last name but no `name`,
      so for its entries the search matches the email alone. */
  lemma NamelessMatchesEmailOnly(c: ChatEntry, query: string)
    requires c.userName.None?
    ensures MatchesQuery(c, query) <==> Includes(ToLower(c.userEmail), ToLower(query))
  {
    if query == "" {
      IncludesEmpty(ToLower(c.userEmail));
    }
  }

  /** `content?.slice(0, 35) + (length > 35 ? "..." : "")`, counted in UTF-16
      code units: text of more than 35 units keeps a prefix of 34 or 35 units
      (34 when the 35th is the first half of a surrogate pair) and gets "...";
      a missing content prints as "undefined". */
  function PreviewText(content: Option<string>): (r: string)
    ensures content.None? ==> r == "undefined"
    ensures content.Some? && Utf16Length(content.value) <= 35 ==> r == content.value
    ensures content.Some? && Utf16Length(content.value) > 35 ==>
      && |r| >= 3 && r[|r| - 3..] == "..."
      && IsPrefix(r[..|r| - 3], content.value)
      && 34 <= Utf16Length(r[..|r| - 3]) <= 35
  {
    match content
    case None => "undefined"
    case Some(c) =>
      if Utf16Length(c) > 35 then
        var kept := Utf16Prefix(c, 35);
        assert (kept + "...")[..|kept|] == kept;
        kept + "..."
      else c
  }

  /** Characters above U+FFFF count twice: 35 of them are 70 code units, so
      their preview is cut. */
  lemma AstralTextIsCut(c: string)
    requires |c| == 35 && forall i :: 0 <= i < |c| ==> c[i] as int > 0xFFFF
    ensures PreviewText(Some(c)) != c
  {
    AllAstralLength(c);
  }

  lemma {:induction false} AllAstralLength(c: string)
    requires forall i :: 0 <= i < |c| ==> c[i] as int > 0xFFFF
    ensures Utf16Length(c) == 2 * |c|
  {
    if |c| > 0 {
      AllAstralLength(c[1..]);
    }
  }

  /** What the list shows under a conversation. */
  datatype Preview = NoMessagesYet | FileAttachment | TextPreview(text: string)

  function PreviewOf(c: ChatEntry): (r: Preview)
    ensures r.NoMessagesYet? <==> c.lastMessage.None?
    ensures r.FileAttachment? <==> c.lastMessage.Some? && c.lastMessage.value.kind.FILE?
    ensures r.TextPreview? ==> r.text == PreviewText(c.lastMessage.value.content)
  {
    match c.lastMessage
    case None => NoMessagesYet
    case Some(m) => if m.kind.TEXT? then TextPreview(PreviewText(m.content)) else FileAttachment
  }

  /** The panel's state. */
  class ChatPanel {
    const adminId: string
    var selectedChatId: Option<string>
    var textInput: string
    var fileInput: Option<File>
    var sidebarOpen: bool
    var optimistic: seq<OptimisticMessage>

    constructor(adminId: string)
      ensures this.adminId == adminId
      ensures selectedChatId.None? && textInput == "" && fileInput.None? && !sidebarOpen && optimistic == []
    {
      this.adminId := adminId;
      selectedChatId := None;
      textInput := "";
      fileInput := None;
      sidebarOpen := false;
      optimistic := [];
    }

    /** `!!selectedChatId`. */
    predicate Selected()
      reads this
    {
      Truthy(selectedChatId)
    }

    /** Every entry the panel creates is optimistic. */
    predicate Valid()
      reads this
    {
      forall k :: 0 <= k < |optimistic| ==> optimistic[k].isOptimistic
    }

    /** `handleChatSelect`: the chat is selected, the sidebar closes and the
        optimistic list is emptied. */
    method HandleChatSelect(chatId: string)
      modifies this`selectedChatId, this`sidebarOpen, this`optimistic
      ensures selectedChatId == Some(chatId) && !sidebarOpen && optimistic == [] && Valid()
    {
      selectedChatId := Some(chatId);
      sidebarOpen := false;
      optimistic := [];
    }

    /** `handleBackToChats`: no chat is selected and the sidebar opens; the
        optimistic list is kept. */
    method HandleBackToChats()
      modifies this`selectedChatId, this`sidebarOpen
      ensures selectedChatId.None? && sidebarOpen
    {
      selectedChatId := None;
      sidebarOpen := true;
    }

    /** The start of `sendText`: nothing without a selected chat, or with blank
        input and no override; otherwise one `Sending` entry is appended, the
        input is cleared unless an override was given, and the POST goes out. */
    method BeginSendText(overrideText: Option<string>, now: nat) returns (post: Option<TextPost>)
      requires Valid()
      modifies this`textInput, this`optimistic
      ensures Valid()
      ensures (Trim(old(textInput)) == "" && !Truthy(overrideText)) || !Selected() ==>
        post.None? && textInput == old(textInput) && optimistic == old(optimistic)
      ensures !((Trim(old(textInput)) == "" && !Truthy(overrideText)) || !Selected()) ==>
        var content := if Truthy(overrideText) then overrideText.value else Trim(old(textInput));
        && post == Some(TextPost(selectedChatId.value, content))
        && optimistic == old(optimistic) + [TextEntry(TempId(now), adminId, content, now)]
        && textInput == (if Truthy(overrideText) then old(textInput) else "")
    {
      if (Trim(textInput) == "" && !Truthy(overrideText)) || !Selected() {
        return None;
      }
      var content := if Truthy(overrideText) then overrideText.value else Trim(textInput);
      if !Truthy(overrideText) {
        textInput := "";
      }
      optimistic := optimistic + [TextEntry(TempId(now), adminId, content, now)];
      post := Some(TextPost(selectedChatId.value, content));
    }

    /** The end of `sendText`: a request that completed, whatever its HTTP
        status, marks the entry `Sent`; one that threw marks it `Failed`. */
    method CompleteSendText(tempId: string, threw: bool)
      requires Valid()
      modifies this`optimistic
      ensures Valid()
      ensures optimistic == MarkStatus(old(optimistic), tempId, if threw then Failed else Sent)
    {
      optimistic := MarkStatus(optimistic, tempId, if threw then Failed else Sent);
    }

    /** `handleTemplateSend`: with a chat selected, the template is sent as
        the override text. */
    method HandleTemplateSend(template: string, now: nat) returns (post: Option<TextPost>)
      requires Valid()
      modifies this`textInput, this`optimistic
      ensures Valid()
      ensures !Selected() ==> post.None? && textInput == old(textInput) && optimistic == old(optimistic)
      ensures Selected() && template != "" ==>
        post == Some(TextPost(selectedChatId.value, template))
        && optimistic == old(optimistic) + [TextEntry(TempId(now), adminId, template, now)]
        && textInput == old(textInput)
    {
      if !Selected() {
        return None;
      }
      post := BeginSendText(Some(template), now);
    }

    /** The start of `sendFile`: nothing without a file or a selected chat;
        otherwise the file leaves the input and one `Sending` entry naming it
        is appended. */
    method BeginSendFile(objectUrl: string, now: nat) returns (file: Option<File>)
      requires Valid()
      modifies this`fileInput, this`optimistic
      ensures Valid()
      ensures old(fileInput).None? || !Selected() ==>
        file.None? && fileInput == old(fileInput) && optimistic == old(optimistic)
      ensures old(fileInput).Some? && Selected() ==>
        && file == old(fileInput) && fileInput.None?
        && optimistic == old(optimistic) + [FileEntry(TempId(now), adminId, file.value, objectUrl, now)]
    {
      if fileInput.None? || !Selected() {
        return None;
      }
      file := fileInput;
      fileInput := None;
      optimistic := optimistic + [FileEntry(TempId(now), adminId, file.value, objectUrl, now)];
    }

    /** The end of `sendFile`. A refused grant or a failed upload marks the
        entry `Failed` and no chat POST is issued; otherwise the POST names the
        public URL and the entry becomes `Sent` unless the POST threw. */
    method CompleteSendFile(tempId: string, chatId: string, file: File, grant: Option<Grant>, uploadOk: bool, postThrew: bool)
      returns (requests: FileRequests)
      requires Valid()
      modifies this`optimistic
      ensures Valid()
      ensures requests.post.Some? <==> grant.Some? && uploadOk
      ensures requests.uploadTo.Some? <==> grant.Some?
      ensures grant.Some? ==> requests.uploadTo == Some(grant.value.uploadUrl)
      ensures requests.post.Some? ==> requests.post == Some(FilePost(chatId, grant.value.publicUrl, file.name, file.mimeType))
      ensures optimistic == MarkStatus(old(optimistic), tempId,
                                       if grant.Some? && uploadOk && !postThrew then Sent else Failed)
    {
      if grant.None? {
        optimistic := MarkStatus(optimistic, tempId, Failed);
        return FileRequests(None, None);
      }
      if !uploadOk {
        optimistic := MarkStatus(optimistic, tempId, Failed);
        return FileRequests(Some(grant.value.uploadUrl), None);
      }
      requests := FileRequests(Some(grant.value.uploadUrl), Some(FilePost(chatId, grant.value.publicUrl, file.name, file.mimeType)));
      optimistic := MarkStatus(optimistic, tempId, if postThrew then Failed else Sent);
    }

    /** `handleFileSelect`: a picked file replaces the input only when it is
        accepted; otherwise the alert says why and the input is kept. */
    method HandleFileSelect(picked: Option<File>) returns (alert: Option<string>)
      modifies this`fileInput
      ensures picked.None? ==> alert.None? && fileInput == old(fileInput)
      ensures picked.Some? ==>
        && (alert.None? <==> Accepts(picked.value.size, picked.value.mimeType))
        && (alert.None? ==> fileInput == picked)
        && (alert.Some? ==> fileInput == old(fileInput))
        && (picked.value.size > MaxSizeBytes ==> alert == Some("File too large. Maximum size is 5 MB."))
        && (picked.value.size <= MaxSizeBytes && picked.value.mimeType !in AllowedMimeTypes ==>
              alert == Some("File type not allowed."))
    {
      if picked.None? {
        return None;
      }
      var file := picked.value;
      if file.size > MaxSizeBytes {
        return Some("File too large. Maximum size is 5 MB.");
      }
      if file.mimeType !in AllowedMimeTypes {
        return Some("File type not allowed.");
      }
      fileInput := picked;
      return None;
    }

    /** The recorder's stop handler: the recording, a `audio/webm` file named
        after the clock, becomes the input when it is small enough. */
    method OnRecordingStop(size: nat, now: nat) returns (alert: Option<string>)
      modifies this`fileInput
      ensures alert.None? <==> size <= MaxSizeBytes
      ensures alert.None? ==> fileInput == Some(File("recording-" + NatToString(now) + ".webm", size, "audio/webm"))
      ensures alert.Some? ==> fileInput == old(fileInput)
    {
      var file := File("recording-" + NatToString(now) + ".webm", size, "audio/webm");
      RecordingAccepted(size);
      if Accepts(file.size, file.mimeType) {
        fileInput := Some(file);
        alert := None;
      } else {
        alert := Some("Recorded audio is not allowed or exceeds size limit.");
      }
    }

    /** The send button is disabled when the input is blank and no file is set. */
    predicate SendDisabled()
      reads this
    {
      Trim(textInput) == "" && fileInput.None?
    }

    /** The send button: a set file is sent, otherwise the typed text. */
    method ClickSend(objectUrl: string, now: nat) returns (text: Option<TextPost>, file: Option<File>)
      requires Valid()
      modifies this`textInput, this`fileInput, this`optimistic
      ensures Valid()
      ensures old(fileInput).Some? ==> text.None? && textInput == old(textInput)
                                       && (old(Selected()) <==> file.Some?)
      ensures old(fileInput).None? ==> file.None? && fileInput.None?
                                       && (text.Some? <==> old(Selected()) && Trim(old(textInput)) != "")
      ensures |old(optimistic)| <= |optimistic| <= |old(optimistic)| + 1 && optimistic[..|old(optimistic)|] == old(optimistic)
    {
      if fileInput.Some? {
        text := None;
        file := BeginSendFile(objectUrl, now);
      } else {
        file := None;
        text := BeginSendText(None, now);
      }
    }
  }
}
