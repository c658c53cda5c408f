/** The chat service (`modules/chat/chatService.ts`): room management with ownership
    checks, limit+1 pagination, and the streamed completion relay, which persists the
    user's message, forwards history plus that message to the language model, relays
    the streamed text as server-sent events and persists the assistant's answer. */
module ChatFlows {
  import opened Common
  import opened Tables
  import opened ChatRepo

  const CHAT_NAME_LENGTH := 30
  const CHAT_NAME_ELLIPSIS := "..."
  const HISTORY_WINDOW := 10

  const ROOM_NOT_FOUND := "Chat room not found"
  const NO_ACCESS := "You don't have access to this chat room"
  const NO_DELETE_PERMISSION := "You don't have permission to delete this chat room"
  const ROOM_DELETED := "Chat room deleted successfully"
  const ALL_ROOMS_DELETED := "All chat rooms deleted successfully"
  const ROOM_CREATED := "Chat room created successfully"
  const ROOMS_RETRIEVED := "Chat rooms retrieved successfully"
  const MESSAGES_RETRIEVED := "Messages retrieved successfully"
  const STREAM_ERROR := "An error occurred during streaming"

  /** The name a room gets from its first message: the first 30 characters, followed by
      "..." when the message is longer. */
  function DefaultChatName(message: string): (r: string)
    ensures |r| <= CHAT_NAME_LENGTH + |CHAT_NAME_ELLIPSIS|
    ensures |message| <= CHAT_NAME_LENGTH ==> r == message
    ensures |message| > CHAT_NAME_LENGTH ==>
              |r| == CHAT_NAME_LENGTH + 3 && r[..CHAT_NAME_LENGTH] == message[..CHAT_NAME_LENGTH] &&
              r[CHAT_NAME_LENGTH..] == CHAT_NAME_ELLIPSIS
  {
    if |message| > CHAT_NAME_LENGTH then message[..CHAT_NAME_LENGTH] + CHAT_NAME_ELLIPSIS else message
  }

  /** Naming a room after its own default name changes nothing. */
  lemma DefaultChatNameIdempotent(message: string)
    ensures DefaultChatName(DefaultChatName(message)) == DefaultChatName(message)
  {
    var r := DefaultChatName(message);
    if |message| > CHAT_NAME_LENGTH {
      assert r[..CHAT_NAME_LENGTH] == message[..CHAT_NAME_LENGTH];
      assert DefaultChatName(r) == r[..CHAT_NAME_LENGTH] + CHAT_NAME_ELLIPSIS;
    }
  }

  /** A page of results: the rows, whether more follow, and where the next page starts. */
  datatype Paged<T> = Paged(items: seq<T>, hasNextPage: bool, nextOffset: Option<nat>)

  /** The service half of pagination: it has asked for `limit + 1` rows starting at
      `offset` and received `fetched`. */
  function Paginate<T>(fetched: seq<T>, offset: nat, limit: nat): (p: Paged<T>)
    ensures p.hasNextPage <==> |fetched| > limit
    ensures |p.items| == if |fetched| > limit then limit else |fetched|
    ensures p.items <= fetched
    ensures p.nextOffset.Some? <==> p.hasNextPage
    ensures p.nextOffset.Some? ==> p.nextOffset.value == offset + limit
  {
    var hasNextPage := |fetched| > limit;
    Paged(if hasNextPage then fetched[..limit] else fetched, hasNextPage, if hasNextPage then Some(offset + limit) else None)
  }

  /** Fetching `limit + 1` rows from `offset` and paginating gives exactly the rows at
      positions `offset .. offset + limit` of the whole ordered result, says there is a
      next page exactly when rows remain after them, and points it at the first of
      those rows. */
  lemma PaginateWindow<T>(all: seq<T>, offset: nat, limit: nat)
    ensures Paginate(Page(all, offset, limit + 1), offset, limit).items == Page(all, offset, limit)
    ensures Paginate(Page(all, offset, limit + 1), offset, limit).hasNextPage <==> |all| > offset + limit
    ensures Paginate(Page(all, offset, limit + 1), offset, limit).hasNextPage ==>
              Page(all, offset + limit, 1) == [all[offset + limit]]
  {
    var fetched := Page(all, offset, limit + 1);
    var p := Paginate(fetched, offset, limit);
    assert |p.items| == |Page(all, offset, limit)|;
    forall i | 0 <= i < |p.items| ensures p.items[i] == Page(all, offset, limit)[i] {
      assert p.items[i] == fetched[i];
    }
  }

  // ---- The streamed relay ----

  /** An attachment the client names for a message: an uploaded file's id, object
      key, name and MIME type. */
  datatype AttachmentRef = AttachmentRef(id: string, key: string, fileName: string, mimeType: string)

  /** What the language model's stream yields at each step: a chunk whose delta may
      carry text, or a failure (the stream throws); `error` is the message of an
      `Error`, None for any other thrown value. */
  datatype StreamStep = Delta(content: Option<string>) | Throw(error: Option<string>)

  /** The server-sent events the relay writes. */
  datatype SseEvent = ChatCreated(chatId: string, chatName: string) | Content(content: string) | Done | Error(message: string)

  /** The text a chunk contributes: its delta content, or "" when absent. */
  function ChunkText(step: StreamStep): string {
    if step.Delta? then step.content.GetOr("") else ""
  }

  /** The response has been ended by the time chunk `k` arrives. */
  predicate EndedBy(disconnectAt: Option<nat>, k: nat) {
    disconnectAt.Some? && disconnectAt.value <= k
  }

  /** The message of a caught error. */
  function ErrorMessage(error: Option<string>): string {
    error.GetOr(STREAM_ERROR)
  }

  /** How a relay ends: the stream ran out, a chunk found the response already
      ended, or the stream failed, with `message`, while the response was open. */
  datatype RelayEnd = Finished | ResponseEnded | Failed(message: string)

  /** What a relay forwards: the non-empty chunk texts, in order, and how it ends. */
  datatype RelayOutcome = RelayOutcome(contents: seq<string>, end: RelayEnd)

  /** The relay of `stream` from chunk `k` on. Only non-empty texts are forwarded. */
  function RelayFrom(stream: seq<StreamStep>, disconnectAt: Option<nat>, k: nat := 0): (o: RelayOutcome)
    requires k <= |stream|
    ensures forall i :: 0 <= i < |o.contents| ==> o.contents[i] != ""
    decreases |stream| - k
  {
    if k == |stream| then RelayOutcome([], Finished)
    else if EndedBy(disconnectAt, k) then RelayOutcome([], ResponseEnded)
    else if stream[k].Throw? then RelayOutcome([], Failed(ErrorMessage(stream[k].error)))
    else
      var rest := RelayFrom(stream, disconnectAt, k + 1);
      if ChunkText(stream[k]) != "" then RelayOutcome([ChunkText(stream[k])] + rest.contents, rest.end) else rest
  }

  /** The concatenation of `parts`. */
  function Concat(parts: seq<string>): string {
    if |parts| == 0 then "" else parts[0] + Concat(parts[1..])
  }

  /** All text the chunks of `stream` from `k` on carry, empty deltas included. */
  function AllText(stream: seq<StreamStep>, k: nat := 0): string
    requires k <= |stream|
    decreases |stream| - k
  {
    if k == |stream| then "" else ChunkText(stream[k]) + AllText(stream, k + 1)
  }

  /** Skipping the empty chunks loses no text: a relay that runs to the end of the
      stream forwards, in total, the whole streamed answer. */
  lemma {:induction false} RelayedWholeAnswer(stream: seq<StreamStep>, disconnectAt: Option<nat>, k: nat := 0)
    requires k <= |stream|
    ensures RelayFrom(stream, disconnectAt, k).end.Finished? ==>
              Concat(RelayFrom(stream, disconnectAt, k).contents) == AllText(stream, k)
    decreases |stream| - k
  {
    if k < |stream| && !EndedBy(disconnectAt, k) && stream[k].Delta? {
      RelayedWholeAnswer(stream, disconnectAt, k + 1);
      var rest := RelayFrom(stream, disconnectAt, k + 1).contents;
      if ChunkText(stream[k]) != "" {
        assert ([ChunkText(stream[k])] + rest)[1..] == rest;
      }
    }
  }

  /** A relay whose response is ended by the arrival of chunk `j` forwards exactly
      what the relay of the first `j` chunks alone forwards: nothing that arrives
      later reaches the client. */
  lemma {:induction false} EndedRelayIsCut(stream: seq<StreamStep>, j: nat, k: nat := 0)
    requires k <= j <= |stream|
    ensures RelayFrom(stream, Some(j), k).contents == RelayFrom(stream[..j], None, k).contents
    decreases j - k
  {
    if k < j {
      assert stream[..j][k] == stream[k];
      EndedRelayIsCut(stream, j, k + 1);
    }
  }

  /** One `content` event per text, in order. */
  function ContentEvents(contents: seq<string>): seq<SseEvent> {
    if |contents| == 0 then [] else ContentEvents(contents[..|contents| - 1]) + [Content(contents[|contents| - 1])]
  }

  /** One entry of the conversation sent to the model. */
  datatype PromptContent = Text(text: string) | Parts(text: string, attachments: seq<AttachmentRef>)
  datatype PromptMessage = PromptMessage(role: Role, content: PromptContent)

  /** The last `min(10, n)` of `s`, order kept. */
  function LastTen<T>(s: seq<T>): (r: seq<T>)
    ensures |r| == if |s| < HISTORY_WINDOW then |s| else HISTORY_WINDOW
    ensures r == s[|s| - |r|..]
  {
    if |s| < HISTORY_WINDOW then s else s[|s| - HISTORY_WINDOW..]
  }

  /** The history sent with a message: the last ten of the fetched messages, in the
      order fetched, reduced to role and text. */
  function History(previous: seq<ChatMessage>): (h: seq<PromptMessage>)
    ensures |h| == |LastTen(previous)|
    ensures forall i :: 0 <= i < |h| ==>
              var m := previous[|previous| - |h| + i];
              h[i] == PromptMessage(m.role, Text(m.content))
  {
    var w := LastTen(previous);
    seq(|w|, i requires 0 <= i < |w| => PromptMessage(w[i].role, Text(w[i].content)))
  }

  /** The current message as sent to the model: plain text, or text plus parts when an
      attachment list is given (even an empty one). */
  function Formatted(message: string, attachments: Option<seq<AttachmentRef>>): PromptMessage {
    if attachments.Some? then PromptMessage(UserRole, Parts(message, attachments.value))
    else PromptMessage(UserRole, Text(message))
  }

  /** The conversation sent for `message` in room `cid` when the messages table holds
      `messages`: the history of the twenty newest of the room's messages, then the
      message itself. */
  function Prompt(messages: seq<ChatMessage>, cid: string, message: string, attachments: Option<seq<AttachmentRef>>): seq<PromptMessage> {
    History(Page(MessagesByChat(messages, cid), 0, 20)) + [Formatted(message, attachments)]
  }

  /** As written, the history is cut from the wrong end of the fetch: the room's
      messages come newest first, so the last ten of the twenty fetched are the
      oldest of them. In a room with more than ten messages whose newest message is
      strictly newer than the rest, that newest message is not in the window, and
      the window runs from newer to older. */
  lemma PromptHistoryOmitsNewest(messages: seq<ChatMessage>, cid: string)
    requires var ms := MessagesByChat(messages, cid);
             HISTORY_WINDOW < |ms| && forall i :: 0 < i < |ms| ==> ms[i].createdAt < ms[0].createdAt
    ensures var ms := MessagesByChat(messages, cid);
            var w := LastTen(Page(ms, 0, 20));
            |w| == HISTORY_WINDOW && ms[0] !in w &&
            forall i, j :: 0 <= i < j < |w| ==> w[i].createdAt >= w[j].createdAt
  {
    var ms := MessagesByChat(messages, cid);
    var page := Page(ms, 0, 20);
    PageOfSorted(ms, 0, 20, MessageCreatedAt);
    assert page[0] == ms[0];
    LastTenOfNewestFirst(page);
  }

  /** Over a newest-first sequence longer than the window, the last ten keep the
      newest-first order and leave out a strictly newest first element. */
  lemma LastTenOfNewestFirst(s: seq<ChatMessage>)
    requires SortedDesc(s, MessageCreatedAt) && HISTORY_WINDOW < |s|
    requires forall i :: 0 < i < |s| ==> s[i].createdAt < s[0].createdAt
    ensures var w := LastTen(s);
            |w| == HISTORY_WINDOW && s[0] !in w &&
            forall i, j :: 0 <= i < j < |w| ==> w[i].createdAt >= w[j].createdAt
  {
    var w := LastTen(s);
    var d := |s| - |w|;
    forall k | 0 <= k < |w| ensures w[k] != s[0] {
      assert w[k] == s[d + k] && 0 < d + k;
    }
    forall i, j | 0 <= i < j < |w| ensures w[i].createdAt >= w[j].createdAt {
      assert w[i] == s[d + i] && w[j] == s[d + j];
      assert MessageCreatedAt(s[d + i]) >= MessageCreatedAt(s[d + j]);
    }
  }

  /** The evidently intended window: the ten newest of messages fetched newest first,
      put back in chronological order. */
  function NewestTen(previous: seq<ChatMessage>): (w: seq<ChatMessage>)
    ensures |w| == |LastTen(previous)|
    ensures forall i :: 0 <= i < |w| ==> w[i] == previous[|w| - 1 - i]
  {
    var n := if |previous| < HISTORY_WINDOW then |previous| else HISTORY_WINDOW;
    seq(n, i requires 0 <= i < n => previous[n - 1 - i])
  }

  /** Over a newest-first fetch, the intended window is oldest first. */
  lemma NewestTenIsChronological(previous: seq<ChatMessage>)
    requires SortedDesc(previous, MessageCreatedAt)
    ensures var w := NewestTen(previous);
            forall i, j :: 0 <= i < j < |w| ==> w[i].createdAt <= w[j].createdAt
  {
    var w := NewestTen(previous);
    var n := |w|;
    forall i, j | 0 <= i < j < n ensures w[i].createdAt <= w[j].createdAt {
      assert MessageCreatedAt(previous[n - 1 - j]) >= MessageCreatedAt(previous[n - 1 - i]);
    }
  }

  /** Over a newest-first fetch, every message the intended window leaves out is no
      newer than any it keeps, and the window ends with the newest message. */
  lemma NewestTenKeepsNewest(previous: seq<ChatMessage>)
    requires SortedDesc(previous, MessageCreatedAt)
    ensures var w := NewestTen(previous);
            forall i, k :: 0 <= i < |w| <= k < |previous| ==> previous[k].createdAt <= w[i].createdAt
    ensures 0 < |previous| ==> NewestTen(previous)[|NewestTen(previous)| - 1] == previous[0]
  {
    var w := NewestTen(previous);
    var n := |w|;
    forall i, k | 0 <= i < n <= k < |previous| ensures previous[k].createdAt <= w[i].createdAt {
      assert MessageCreatedAt(previous[n - 1 - i]) >= MessageCreatedAt(previous[k]);
    }
  }

  /** The intended window holds exactly the first ten messages fetched. */
  lemma NewestTenKeepsFirstFetched(previous: seq<ChatMessage>)
    ensures var w := NewestTen(previous);
            multiset(w) == multiset(previous[..|w|])
  {
    var w := NewestTen(previous);
    ReversedSameMultiset(previous[..|w|], w);
  }

  /** A sequence read backwards holds the same elements. */
  lemma {:induction false} ReversedSameMultiset<T>(s: seq<T>, r: seq<T>)
    requires |r| == |s| && forall i :: 0 <= i < |s| ==> r[i] == s[|s| - 1 - i]
    ensures multiset(r) == multiset(s)
  {
    if |s| > 0 {
      var s', r' := s[1..], r[..|r| - 1];
      ReversedSameMultiset(s', r');
      assert s == [s[0]] + s';
      assert r == r' + [r[|r| - 1]];
    }
  }

  /** The intended history: the newest ten messages, oldest first, reduced to role
      and text. */
  function HistoryIntended(previous: seq<ChatMessage>): (h: seq<PromptMessage>)
    ensures |h| == |NewestTen(previous)|
    ensures forall i :: 0 <= i < |h| ==>
              h[i] == PromptMessage(NewestTen(previous)[i].role, Text(NewestTen(previous)[i].content))
  {
    var w := NewestTen(previous);
    seq(|w|, i requires 0 <= i < |w| => PromptMessage(w[i].role, Text(w[i].content)))
  }

  /** With the intended history, the conversation sent for a room with messages ends,
      just before the message itself, with the room's newest message. */
  lemma PromptIntendedEndsWithNewest(messages: seq<ChatMessage>, cid: string)
    requires 0 < |MessagesByChat(messages, cid)|
    ensures var ms := MessagesByChat(messages, cid);
            var h := HistoryIntended(Page(ms, 0, 20));
            0 < |h| && h[|h| - 1] == PromptMessage(ms[0].role, Text(ms[0].content))
  {
    var ms := MessagesByChat(messages, cid);
    PageOfSorted(ms, 0, 20, MessageCreatedAt);
    NewestTenKeepsNewest(Page(ms, 0, 20));
  }

  /** The links a message's attachments get: one per attachment, in list order, none
      for an absent or empty list. */
  function Links(messageId: string, attachments: Option<seq<AttachmentRef>>): (r: seq<MessageAttachment>)
    ensures attachments.None? ==> r == []
    ensures attachments.Some? ==> |r| == |attachments.value|
    ensures attachments.Some? ==> forall i :: 0 <= i < |r| ==>
              r[i].messageId == messageId && r[i].fileUploadId == attachments.value[i].id
  {
    if attachments.None? then []
    else seq(|attachments.value|, i requires 0 <= i < |attachments.value| =>
           MessageAttachment(messageId, attachments.value[i].id))
  }

  /** The relay loop: for each chunk, stop if the response has ended, otherwise
      forward its text, if any, as a `content` event and add it to the answer. A
      failure of the stream is handed back as the message it carries; it writes
      nothing when the response has ended. */
  method Relay(res: HttpResponse, stream: seq<StreamStep>, disconnectAt: Option<nat>)
    returns (assistantResponse: string, failure: Option<string>)
    requires !res.writableEnded
    modifies res`events, res`writableEnded
    ensures assistantResponse == Concat(RelayFrom(stream, disconnectAt).contents)
    ensures res.events == old(res.events) + ContentEvents(RelayFrom(stream, disconnectAt).contents)
    ensures failure.Some? <==> RelayFrom(stream, disconnectAt).end.Failed?
    ensures failure.Some? ==> failure.value == RelayFrom(stream, disconnectAt).end.message
    ensures res.writableEnded <==> RelayFrom(stream, disconnectAt).end.ResponseEnded?
  {
    assistantResponse := "";
    failure := None;
    var k := 0;
    ghost var o := RelayFrom(stream, disconnectAt);
    ghost var sent: seq<string> := [];
    // each arriving chunk is relayed until one throws or finds the response ended
    while k < |stream| && stream[k].Delta? && !EndedBy(disconnectAt, k)
      invariant k <= |stream|
      invariant sent + RelayFrom(stream, disconnectAt, k).contents == o.contents
      invariant RelayFrom(stream, disconnectAt, k).end == o.end
      invariant assistantResponse == Concat(sent)
      invariant res.events == old(res.events) + ContentEvents(sent)
      invariant !res.writableEnded
      decreases |stream| - k
    {
      var content := stream[k].content.GetOr("");
      RelayAdvance(stream, disconnectAt, k, sent);
      if content != "" {
        ConcatSnoc(sent, content);
        ContentEventsSnoc(sent, content);
        assistantResponse := assistantResponse + content;
        res.events := res.events + [Content(content)];
        sent := sent + [content];
      }
      k := k + 1;
    }
    assert sent + [] == sent;
    if k < |stream| {
      if EndedBy(disconnectAt, k) {
        // the response was ended before this chunk arrived
        res.writableEnded := true;
      } else {
        failure := Some(ErrorMessage(stream[k].error));
      }
    }
  }

  /** One relayed chunk moves its text, if any, from what is still to come to what
      has been sent. */
  lemma RelayAdvance(stream: seq<StreamStep>, disconnectAt: Option<nat>, k: nat, sent: seq<string>)
    requires k < |stream| && stream[k].Delta? && !EndedBy(disconnectAt, k)
    ensures var text := ChunkText(stream[k]);
            (if text != "" then sent + [text] else sent) + RelayFrom(stream, disconnectAt, k + 1).contents ==
              sent + RelayFrom(stream, disconnectAt, k).contents
    ensures RelayFrom(stream, disconnectAt, k + 1).end == RelayFrom(stream, disconnectAt, k).end
  {
    var rest := RelayFrom(stream, disconnectAt, k + 1).contents;
    assert sent + ([ChunkText(stream[k])] + rest) == (sent + [ChunkText(stream[k])]) + rest;
  }

  lemma {:induction false} ConcatSnoc(parts: seq<string>, part: string)
    ensures Concat(parts + [part]) == Concat(parts) + part
  {
    if |parts| > 0 {
      assert (parts + [part])[1..] == parts[1..] + [part];
      ConcatSnoc(parts[1..], part);
    }
  }

  lemma ContentEventsSnoc(contents: seq<string>, c: string)
    ensures ContentEvents(contents + [c]) == ContentEvents(contents) + [Content(c)]
  {
    assert (contents + [c])[..|contents|] == contents;
  }

  /** The event that closes a relay: `done` when the stream ran to its end, the error
      when it failed while the response was open, nothing when the response had
      already ended. */
  function StreamTail(o: RelayOutcome): seq<SseEvent> {
    match o.end
    case Finished => [Done]
    case ResponseEnded => []
    case Failed(message) => [Error(message)]
  }

  /** The ids the relay's inserts receive. */
  datatype RelayIds = RelayIds(chatId: string, userMessageId: string, assistantMessageId: string)

  /** The HTTP response the relay writes to. */
  class HttpResponse {
    var events: seq<SseEvent>
    var writableEnded: bool
    var closeListeners: nat

    constructor ()
      ensures events == [] && !writableEnded && closeListeners == 0
    {
      events := [];
      writableEnded := false;
      closeListeners := 0;
    }
  }

  class ChatService {
    const repo: ChatRepository

    constructor (repo: ChatRepository)
      ensures this.repo == repo
    {
      this.repo := repo;
    }

    /** Whether a request naming `chatId` may use the room: it must exist and belong to
        `userId`. */
    function RoomCheck(chatId: string, userId: string, notOwner: string): (r: Option<ServiceResponse<()>>)
      reads repo.db`chats
      ensures r.None? <==> repo.GetChatRoomById(chatId).Some? && repo.GetChatRoomById(chatId).value.userId == userId
      ensures repo.GetChatRoomById(chatId).None? ==> r == Some(Fail(ROOM_NOT_FOUND, NOT_FOUND))
      ensures repo.GetChatRoomById(chatId).Some? && repo.GetChatRoomById(chatId).value.userId != userId ==>
                r == Some(Fail(notOwner, FORBIDDEN))
    {
      match repo.GetChatRoomById(chatId)
      case None => Some(Fail(ROOM_NOT_FOUND, NOT_FOUND))
      case Some(room) => if room.userId != userId then Some(Fail(notOwner, FORBIDDEN)) else None
    }

    /** The first part of `sendMessageAndStream`: with no chat id, creates a room named
        after the message and announces it with a `chatCreated` event; with one, checks
        that the room exists and belongs to `userId`, failing with the message the
        relay will report. */
    method ResolveRoom(chatId: Option<string>, message: string, userId: string, res: HttpResponse, newChatId: string, now: int)
      returns (cid: string, failure: Option<string>)
      modifies repo.db`chats, res`events
      ensures !Truthy(chatId) ==>
                failure.None? && cid == newChatId &&
                repo.db.chats == old(repo.db.chats) + [Chat(newChatId, DefaultChatName(message), userId, now, now)] &&
                res.events == old(res.events) + [ChatCreated(newChatId, DefaultChatName(message))]
      ensures Truthy(chatId) ==>
                cid == chatId.value && repo.db.chats == old(repo.db.chats) && res.events == old(res.events) &&
                failure == old(RoomFailure(chatId.value, userId))
    {
      failure := None;
      if !Truthy(chatId) {
        var chatRoom := repo.CreateChatRoom(newChatId, DefaultChatName(message), userId, now);
        cid := chatRoom.id;
        res.events := res.events + [ChatCreated(chatRoom.id, chatRoom.name)];
      } else {
        cid := chatId.value;
        var chatRoom := repo.GetChatRoomById(cid);
        if chatRoom.None? {
          failure := Some(ROOM_NOT_FOUND);
        } else if chatRoom.value.userId != userId {
          failure := Some(NO_ACCESS);
        }
      }
    }

    /** Why a message may not be sent to room `chatId`: missing, or not `userId`'s. */
    function RoomFailure(chatId: string, userId: string): (r: Option<string>)
      reads repo.db`chats
      ensures r.None? <==> repo.GetChatRoomById(chatId).Some? && repo.GetChatRoomById(chatId).value.userId == userId
      ensures repo.GetChatRoomById(chatId).None? ==> r == Some(ROOM_NOT_FOUND)
      ensures repo.GetChatRoomById(chatId).Some? && repo.GetChatRoomById(chatId).value.userId != userId ==> r == Some(NO_ACCESS)
    {
      match RoomCheck(chatId, userId, NO_ACCESS)
      case None => None
      case Some(failure) => Some(failure.message)
    }

    /** Stores the user's message and, when the attachment list is non-empty, one
        link per attachment. */
    method StoreUserMessage(cid: string, userId: string, message: string, attachments: Option<seq<AttachmentRef>>,
                            messageId: string, now: int)
      returns (userMessage: ChatMessage)
      modifies repo.db`chatMessages, repo.db`messageAttachments
      ensures userMessage == ChatMessage(messageId, message, UserRole, cid, userId, now)
      ensures repo.db.chatMessages == old(repo.db.chatMessages) + [userMessage]
      ensures repo.db.messageAttachments == old(repo.db.messageAttachments) +
                (if attachments.Some? && |attachments.value| > 0 then Links(messageId, attachments) else [])
    {
      userMessage := repo.CreateChatMessage(messageId, cid, userId, message, UserRole, now);
      if attachments.Some? && |attachments.value| > 0 {
        var atts := attachments.value;
        for i := 0 to |atts|
          invariant repo.db.messageAttachments == old(repo.db.messageAttachments) + Links(userMessage.id, Some(atts[..i]))
          invariant repo.db.chatMessages == old(repo.db.chatMessages) + [userMessage]
        {
          repo.CreateMessageAttachment(userMessage.id, atts[i].id);
          assert Links(userMessage.id, Some(atts[..i + 1])) == Links(userMessage.id, Some(atts[..i])) + [MessageAttachment(userMessage.id, atts[i].id)];
        }
        assert atts[..|atts|] == atts;
      }
    }

    /** The conversation sent to the model: the history of the room, read after the
        user's message was stored, followed by that message. Changes nothing. */
    method LoadPrompt(cid: string, message: string, attachments: Option<seq<AttachmentRef>>)
      returns (prompt: seq<PromptMessage>)
      ensures prompt == Prompt(repo.db.chatMessages, cid, message, attachments)
      ensures |prompt| <= HISTORY_WINDOW + 1 && prompt[|prompt| - 1] == Formatted(message, attachments)
    {
      var previousMessages := repo.GetChatMessagesByChatId(cid);
      var previous := seq(|previousMessages|, i requires 0 <= i < |previousMessages| => previousMessages[i].message);
      assert previous == Page(MessagesByChat(repo.db.chatMessages, cid), 0, 20);
      prompt := History(previous) + [Formatted(message, attachments)];
    }

    /** `sendMessageAndStream`. `stream` is what the model yields (a failure to open it
        is a `Throw` at step 0); `disconnectAt` is the chunk by whose arrival the
        response has been ended; `now` and `doneAt` are the insert times of the user's
        and the assistant's message. Returns the conversation sent to the model. */
    method SendMessageAndStream(chatId: Option<string>, message: string, attachments: Option<seq<AttachmentRef>>,
                                userId: string, res: HttpResponse, stream: seq<StreamStep>, disconnectAt: Option<nat>,
                                ids: RelayIds, now: int, doneAt: int)
      returns (prompt: seq<PromptMessage>)
      requires !res.writableEnded
      modifies res, repo.db`chats, repo.db`chatMessages, repo.db`messageAttachments
      ensures res.writableEnded
      ensures res.closeListeners == old(res.closeListeners)
      // A named room that is missing or someone else's: one error event, nothing stored.
      ensures Truthy(chatId) && old(RoomFailure(chatId.value, userId)).Some? ==>
                res.events == old(res.events) + [Error(old(RoomFailure(chatId.value, userId)).value)] && prompt == [] &&
                repo.db.chats == old(repo.db.chats) && repo.db.chatMessages == old(repo.db.chatMessages) &&
                repo.db.messageAttachments == old(repo.db.messageAttachments)
      // Otherwise: the room (created if none was named), the user's message and its
      // links are stored; the relayed contents follow any `chatCreated` event; the
      // whole answer is stored and `done` written only when the stream ran to its end.
      ensures !Truthy(chatId) || old(RoomFailure(chatId.value, userId)).None? ==>
                var cid := if Truthy(chatId) then chatId.value else ids.chatId;
                var userMessage := ChatMessage(ids.userMessageId, message, UserRole, cid, userId, now);
                var o := RelayFrom(stream, disconnectAt);
                repo.db.chats == old(repo.db.chats) +
                  (if Truthy(chatId) then [] else [Chat(ids.chatId, DefaultChatName(message), userId, now, now)]) &&
                res.events == old(res.events) +
                  (if Truthy(chatId) then [] else [ChatCreated(ids.chatId, DefaultChatName(message))]) +
                  ContentEvents(o.contents) + StreamTail(o) &&
                repo.db.chatMessages == old(repo.db.chatMessages) + [userMessage] +
                  (if o.end.Finished?
                   then [ChatMessage(ids.assistantMessageId, AllText(stream), AssistantRole, cid, userId, doneAt)]
                   else []) &&
                repo.db.messageAttachments == old(repo.db.messageAttachments) +
                  (if attachments.Some? && |attachments.value| > 0 then Links(ids.userMessageId, attachments) else []) &&
                prompt == Prompt(old(repo.db.chatMessages) + [userMessage], cid, message, attachments)
    {
      res.closeListeners := res.closeListeners + 1;
      prompt := [];
      var cid, failure := ResolveRoom(chatId, message, userId, res, ids.chatId, now);
      if failure.None? {
        ghost var created := if Truthy(chatId) then [] else [ChatCreated(ids.chatId, DefaultChatName(message))];
        assert res.events == old(res.events) + created;
        prompt := StreamIntoRoom(cid, message, attachments, userId, res, stream, disconnectAt, ids, now, doneAt);
      } else {
        EndWithError(res, failure);
      }
      res.closeListeners := res.closeListeners - 1;
    }

    /** The error path of `sendMessageAndStream`: a failure is reported as an `error`
        event, and the response ended, unless the response has already ended. */
    method EndWithError(res: HttpResponse, failure: Option<string>)
      modifies res`events, res`writableEnded
      ensures failure.Some? && !old(res.writableEnded) ==>
                res.events == old(res.events) + [Error(failure.value)] && res.writableEnded
      ensures failure.None? || old(res.writableEnded) ==>
                res.events == old(res.events) && res.writableEnded == old(res.writableEnded)
    {
      if failure.Some? && !res.writableEnded {
        res.events := res.events + [Error(failure.value)];
        res.writableEnded := true;
      }
    }

    /** The part of `sendMessageAndStream` that runs once the room is known: stores the
        user's message and its links, builds the prompt, relays the stream, and, when
        the stream ran to its end, stores the answer, writes `done` and ends the
        response; a failure of the stream takes the error path. */
    method StreamIntoRoom(cid: string, message: string, attachments: Option<seq<AttachmentRef>>, userId: string,
                          res: HttpResponse, stream: seq<StreamStep>, disconnectAt: Option<nat>,
                          ids: RelayIds, now: int, doneAt: int)
      returns (prompt: seq<PromptMessage>)
      requires !res.writableEnded
      modifies res`events, res`writableEnded, repo.db`chatMessages, repo.db`messageAttachments
      ensures var userMessage := ChatMessage(ids.userMessageId, message, UserRole, cid, userId, now);
              repo.db.chatMessages == old(repo.db.chatMessages) + [userMessage] +
                (if RelayFrom(stream, disconnectAt).end.Finished?
                 then [ChatMessage(ids.assistantMessageId, AllText(stream), AssistantRole, cid, userId, doneAt)]
                 else []) &&
              prompt == Prompt(old(repo.db.chatMessages) + [userMessage], cid, message, attachments)
      ensures repo.db.messageAttachments == old(repo.db.messageAttachments) +
                (if attachments.Some? && |attachments.value| > 0 then Links(ids.userMessageId, attachments) else [])
      ensures var o := RelayFrom(stream, disconnectAt);
              res.events == old(res.events) + ContentEvents(o.contents) + StreamTail(o)
      ensures res.writableEnded
    {
      var userMessage := StoreUserMessage(cid, userId, message, attachments, ids.userMessageId, now);
      prompt := LoadPrompt(cid, message, attachments);
      var assistantResponse, failure := Relay(res, stream, disconnectAt);
      ghost var o := RelayFrom(stream, disconnectAt);
      ghost var relayed := res.events;
      if failure.None? && !res.writableEnded {
        RelayedWholeAnswer(stream, disconnectAt);
        var _ := repo.CreateChatMessage(ids.assistantMessageId, cid, userId, assistantResponse, AssistantRole, doneAt);
        res.events := res.events + [Done];
        res.writableEnded := true;
      } else {
        EndWithError(res, failure);
        assert o.end.ResponseEnded? ==> relayed + StreamTail(o) == relayed;
      }
    }

    /** `getUserChatRooms`: the user's rooms, most recently updated first, one page. */
    function GetUserChatRooms(userId: string, offset: nat, limit: nat): (r: ServiceResponse<Paged<Chat>>)
      reads repo.db
      ensures r.success && r.statusCode == OK && r.message == ROOMS_RETRIEVED && r.responseObject.Some?
      ensures r.responseObject.value.items == Page(RoomsOfUser(repo.db.chats, userId), offset, limit)
      ensures r.responseObject.value.hasNextPage <==> |RoomsOfUser(repo.db.chats, userId)| > offset + limit
      ensures r.responseObject.value.nextOffset ==
                if |RoomsOfUser(repo.db.chats, userId)| > offset + limit then Some(offset + limit) else None
      ensures forall i :: 0 <= i < |r.responseObject.value.items| ==> r.responseObject.value.items[i].userId == userId
    {
      PaginateWindow(RoomsOfUser(repo.db.chats, userId), offset, limit);
      var page := Paginate(repo.GetChatRoomsByUserId(userId, offset, limit + 1), offset, limit);
      Succeed(ROOMS_RETRIEVED, Some(page), OK)
    }

    /** `getChatMessages`: 404 for a missing room, 403 for someone else's, otherwise one
        page of its messages, newest first. */
    function GetChatMessages(userId: string, chatId: string, offset: nat, limit: nat): (r: ServiceResponse<Paged<MessageView>>)
      reads repo.db
      ensures repo.GetChatRoomById(chatId).None? ==> r == Fail(ROOM_NOT_FOUND, NOT_FOUND)
      ensures repo.GetChatRoomById(chatId).Some? && repo.GetChatRoomById(chatId).value.userId != userId ==>
                r == Fail(NO_ACCESS, FORBIDDEN)
      ensures r.success <==> repo.GetChatRoomById(chatId).Some? && repo.GetChatRoomById(chatId).value.userId == userId
      ensures r.success ==>
                r.message == MESSAGES_RETRIEVED && r.statusCode == OK && r.responseObject.Some? &&
                var page := r.responseObject.value;
                var all := MessagesByChat(repo.db.chatMessages, chatId);
                |page.items| == |Page(all, offset, limit)| &&
                (forall i :: 0 <= i < |page.items| ==>
                   page.items[i].message == Page(all, offset, limit)[i] &&
                   page.items[i].attachments == repo.Attachments(page.items[i].message)) &&
                (page.hasNextPage <==> |all| > offset + limit) &&
                page.nextOffset == if |all| > offset + limit then Some(offset + limit) else None
    {
      match RoomCheck(chatId, userId, NO_ACCESS)
      case Some(failure) => Fail(failure.message, failure.statusCode)
      case None =>
        var all := MessagesByChat(repo.db.chatMessages, chatId);
        PaginateWindow(all, offset, limit);
        var page := Paginate(repo.GetChatMessagesByChatId(chatId, offset, limit + 1), offset, limit);
        Succeed(MESSAGES_RETRIEVED, Some(page), OK)
    }

    /** `deleteChatRoom`: only the owner's request deletes, and it deletes that room. */
    method DeleteChatRoom(userId: string, chatId: string) returns (r: ServiceResponse<string>)
      modifies repo.db`chats, repo.db`chatMessages, repo.db`messageAttachments
      ensures old(repo.GetChatRoomById(chatId)).None? ==> r == Fail(ROOM_NOT_FOUND, NOT_FOUND)
      ensures old(repo.GetChatRoomById(chatId)).Some? && old(repo.GetChatRoomById(chatId)).value.userId != userId ==>
                r == Fail(NO_DELETE_PERMISSION, FORBIDDEN)
      ensures !r.success ==> repo.db.chats == old(repo.db.chats) && repo.db.chatMessages == old(repo.db.chatMessages) &&
                             repo.db.messageAttachments == old(repo.db.messageAttachments)
      ensures r.success <==> old(repo.GetChatRoomById(chatId)).Some? && old(repo.GetChatRoomById(chatId)).value.userId == userId
      ensures r.success ==>
                r == Succeed(ROOM_DELETED, Some(ROOM_DELETED), OK) &&
                repo.db.chats == RemoveWhere(old(repo.db.chats), (c: Chat) => c.id == chatId) &&
                repo.GetChatRoomById(chatId).None?
      ensures r.success ==>
                repo.db.chatMessages == RemoveWhere(old(repo.db.chatMessages), (m: ChatMessage) => m.chatId == chatId) &&
                repo.db.messageAttachments == RemoveWhere(old(repo.db.messageAttachments), (a: MessageAttachment) =>
                  LinksMessageOf(old(repo.db.chatMessages), (m: ChatMessage) => m.chatId == chatId, a))
    {
      var failure := RoomCheck(chatId, userId, NO_DELETE_PERMISSION);
      if failure.Some? {
        return Fail(failure.value.message, failure.value.statusCode);
      }
      repo.DeleteChatRoomById(chatId);
      r := Succeed(ROOM_DELETED, Some(ROOM_DELETED), OK);
    }

    /** `createChatRoom`: one new room owned by the user, answered with 201. */
    method CreateChatRoom(userId: string, name: string, id: string, now: int) returns (r: ServiceResponse<Chat>)
      modifies repo.db`chats
      ensures r == Succeed(ROOM_CREATED, Some(Chat(id, name, userId, now, now)), CREATED)
      ensures repo.db.chats == old(repo.db.chats) + [r.responseObject.value]
    {
      var chat := repo.CreateChatRoom(id, name, userId, now);
      r := Succeed(ROOM_CREATED, Some(chat), CREATED);
    }

    /** `deleteAllChatRooms`: the user has no rooms left; other users' rooms, their
        messages and their links stay. */
    method DeleteAllChatRooms(userId: string) returns (r: ServiceResponse<()>)
      modifies repo.db`chats, repo.db`chatMessages, repo.db`messageAttachments
      ensures r == Succeed(ALL_ROOMS_DELETED, None, OK)
      ensures RoomsOfUser(repo.db.chats, userId) == []
      ensures repo.db.chats == RemoveWhere(old(repo.db.chats), (c: Chat) => c.userId == userId)
      ensures repo.db.chatMessages == RemoveWhere(old(repo.db.chatMessages), (m: ChatMessage) =>
                RoomOfUser(old(repo.db.chats), userId, m.chatId))
      ensures repo.db.messageAttachments == RemoveWhere(old(repo.db.messageAttachments), (a: MessageAttachment) =>
                LinksMessageOf(old(repo.db.chatMessages), (m: ChatMessage) => RoomOfUser(old(repo.db.chats), userId, m.chatId), a))
    {
      repo.DeleteAllChatRoomsByUserId(userId);
      r := Succeed(ALL_ROOMS_DELETED, None, OK);
    }
  }
}
