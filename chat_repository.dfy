/** The chat store (`modules/chat/chatRepository.ts`): chat rooms, their messages, and
    the links from messages to uploaded files. Queries filter, order newest first,
    skip `offset` rows and keep at most `limit`. Deleting a room also deletes its
    messages and their links, as the schema's cascading foreign keys do. */
module ChatRepo {
  import opened Common
  import opened Tables

  /** Newest first: keys never increase along the sequence. */
  ghost predicate SortedDesc<T>(s: seq<T>, key: T -> int) {
    forall i, j :: 0 <= i < j < |s| ==> key(s[i]) >= key(s[j])
  }

  /** Places `x` into a newest-first sequence, before the first row it is not older
      than. */
  function Insert<T(==)>(x: T, s: seq<T>, key: T -> int): (r: seq<T>)
    ensures multiset(r) == multiset(s) + multiset{x}
    ensures |r| == |s| + 1
    ensures forall k :: 0 <= k < |r| ==> r[k] == x || r[k] in s
  {
    if |s| == 0 then [x]
    else if key(x) >= key(s[0]) then [x] + s
    else
      assert s == [s[0]] + s[1..];
      [s[0]] + Insert(x, s[1..], key)
  }

  lemma {:induction false} InsertKeepsSorted<T>(x: T, s: seq<T>, key: T -> int)
    requires SortedDesc(s, key)
    ensures SortedDesc(Insert(x, s, key), key)
  {
    if |s| > 0 && key(x) < key(s[0]) {
      var rest := Insert(x, s[1..], key);
      InsertKeepsSorted(x, s[1..], key);
      forall k | 0 <= k < |rest| ensures key(s[0]) >= key(rest[k]) {
        if rest[k] != x {
          var j :| 0 <= j < |s[1..]| && s[1..][j] == rest[k];
          assert s[j + 1] == rest[k];
        }
      }
      var r := [s[0]] + rest;
      forall i, j | 0 <= i < j < |r| ensures key(r[i]) >= key(r[j]) {
        if i == 0 {
          assert r[j] == rest[j - 1];
        } else {
          assert r[i] == rest[i - 1] && r[j] == rest[j - 1];
        }
      }
    }
  }

  /** `orderBy: desc(key)`: the same rows, newest first. SQL leaves the order of rows
      with equal keys unspecified; the model fixes one: the earlier table row first. */
  function SortDesc<T(==)>(s: seq<T>, key: T -> int): (r: seq<T>)
    ensures multiset(r) == multiset(s)
    ensures |r| == |s|
    ensures SortedDesc(r, key)
  {
    if |s| == 0 then []
    else
      assert s == [s[0]] + s[1..];
      InsertKeepsSorted(s[0], SortDesc(s[1..], key), key);
      Insert(s[0], SortDesc(s[1..], key), key)
  }

  /** `where p`: the rows satisfying `p`, in table order (see `FilterConcat`). */
  function Filter<T>(rows: seq<T>, p: T -> bool): (r: seq<T>)
    ensures |r| <= |rows|
    ensures forall i :: 0 <= i < |r| ==> r[i] in rows && p(r[i])
  {
    if |rows| == 0 then []
    else
      var rest := Filter(rows[1..], p);
      assert forall i :: 1 <= i < |rows| ==> rows[i] == rows[1..][i - 1];
      if p(rows[0]) then [rows[0]] + rest else rest
  }

  /** Filtering a table split in two filters each part, in place: the rows kept keep
      their table order. */
  lemma {:induction false} FilterConcat<T>(a: seq<T>, b: seq<T>, p: T -> bool)
    ensures Filter(a + b, p) == Filter(a, p) + Filter(b, p)
  {
    if |a| > 0 {
      assert (a + b)[1..] == a[1..] + b;
      FilterConcat(a[1..], b, p);
    } else {
      assert a + b == b;
    }
  }

  /** A single row is kept exactly when it satisfies `p`. */
  lemma FilterOne<T>(x: T, p: T -> bool)
    ensures Filter([x], p) == if p(x) then [x] else []
  {
  }

  /** No row satisfying `p` is left out. */
  lemma {:induction false} FilterComplete<T>(rows: seq<T>, p: T -> bool, i: nat)
    requires i < |rows| && p(rows[i])
    ensures rows[i] in Filter(rows, p)
  {
    if i > 0 {
      FilterComplete(rows[1..], p, i - 1);
    }
  }

  /** `offset` / `limit`: skips `offset` rows and keeps at most `limit` of the rest. */
  function Page<T>(rows: seq<T>, offset: nat, limit: nat): (r: seq<T>)
    ensures |r| == if offset >= |rows| then 0 else if |rows| - offset < limit then |rows| - offset else limit
    ensures forall i :: 0 <= i < |r| ==> r[i] == rows[offset + i]
  {
    if offset >= |rows| then []
    else if |rows| - offset < limit then rows[offset..]
    else rows[offset..offset + limit]
  }

  lemma PageOfSorted<T>(rows: seq<T>, offset: nat, limit: nat, key: T -> int)
    requires SortedDesc(rows, key)
    ensures SortedDesc(Page(rows, offset, limit), key)
  {
    var r := Page(rows, offset, limit);
    forall i, j | 0 <= i < j < |r| ensures key(r[i]) >= key(r[j]) {
      assert r[i] == rows[offset + i] && r[j] == rows[offset + j];
    }
  }

  /** A message with its attachments replaced by the file records they point to
      (None where the file row is missing). */
  datatype MessageView = MessageView(message: ChatMessage, attachments: seq<Option<FileUpload>>)

  /** The link points at a message of `messages` selected by `p`. */
  predicate LinksMessageOf(messages: seq<ChatMessage>, p: ChatMessage -> bool, a: MessageAttachment) {
    exists i :: 0 <= i < |messages| && p(messages[i]) && messages[i].id == a.messageId
  }

  /** `chatId` names a room of `rooms` owned by `userId`. */
  predicate RoomOfUser(rooms: seq<Chat>, userId: string, chatId: string) {
    exists j :: 0 <= j < |rooms| && rooms[j].userId == userId && rooms[j].id == chatId
  }

  function ChatUpdatedAt(c: Chat): int { c.updatedAt }
  function MessageCreatedAt(m: ChatMessage): int { m.createdAt }

  /** The rows of `rows` that belong to chat `chatId`, newest first. */
  function MessagesByChat(rows: seq<ChatMessage>, chatId: string): (r: seq<ChatMessage>)
    ensures SortedDesc(r, MessageCreatedAt)
    ensures forall i :: 0 <= i < |r| ==> r[i] in rows && r[i].chatId == chatId
  {
    var f := Filter(rows, (m: ChatMessage) => m.chatId == chatId);
    var r := SortDesc(f, MessageCreatedAt);
    forall i | 0 <= i < |r| ensures r[i] in f {
      assert r[i] in multiset(r);
    }
    r
  }

  /** No message of the chat is left out. */
  lemma MessagesByChatComplete(rows: seq<ChatMessage>, chatId: string, i: nat)
    requires i < |rows| && rows[i].chatId == chatId
    ensures rows[i] in MessagesByChat(rows, chatId)
  {
    var f := Filter(rows, (m: ChatMessage) => m.chatId == chatId);
    FilterComplete(rows, (m: ChatMessage) => m.chatId == chatId, i);
    assert rows[i] in multiset(f);
  }

  /** The rooms of `rows` owned by `userId`, most recently updated first. */
  function RoomsOfUser(rows: seq<Chat>, userId: string): (r: seq<Chat>)
    ensures SortedDesc(r, ChatUpdatedAt)
    ensures forall i :: 0 <= i < |r| ==> r[i] in rows && r[i].userId == userId
  {
    var f := Filter(rows, (c: Chat) => c.userId == userId);
    var r := SortDesc(f, ChatUpdatedAt);
    forall i | 0 <= i < |r| ensures r[i] in f {
      assert r[i] in multiset(r);
    }
    r
  }

  /** No room of the user is left out. */
  lemma RoomsOfUserComplete(rows: seq<Chat>, userId: string, i: nat)
    requires i < |rows| && rows[i].userId == userId
    ensures rows[i] in RoomsOfUser(rows, userId)
  {
    var f := Filter(rows, (c: Chat) => c.userId == userId);
    FilterComplete(rows, (c: Chat) => c.userId == userId, i);
    assert rows[i] in multiset(f);
  }

  class ChatRepository {
    const db: Database

    constructor (db: Database)
      ensures this.db == db
    {
      this.db := db;
    }

    /** `createChatRoom({name, userId})` at time `now` with generated id `id`: inserts
        one room and returns it. */
    method CreateChatRoom(id: string, name: string, userId: string, now: int) returns (chat: Chat)
      modifies db`chats
      ensures chat == Chat(id, name, userId, now, now)
      ensures db.chats == old(db.chats) + [chat]
    {
      chat := Chat(id, name, userId, now, now);
      db.chats := db.chats + [chat];
    }

    /** `getChatRoomById`: the first room with that id. */
    function GetChatRoomById(id: string): (r: Option<Chat>)
      reads db`chats
      ensures r.Some? ==> r.value in db.chats && r.value.id == id
      ensures r.None? <==> forall i :: 0 <= i < |db.chats| ==> db.chats[i].id != id
    {
      FirstWhere(db.chats, (c: Chat) => c.id == id)
    }

    /** `getChatRoomsByUserId(userId, offset, limit)` (defaults 0 and 30): that user's
        rooms, most recently updated first, from `offset`, at most `limit`. */
    function GetChatRoomsByUserId(userId: string, offset: nat := 0, limit: nat := 30): (r: seq<Chat>)
      reads db
      ensures forall i :: 0 <= i < |r| ==> r[i] in db.chats && r[i].userId == userId
      ensures SortedDesc(r, ChatUpdatedAt)
      ensures |r| <= limit
      ensures r == Page(RoomsOfUser(db.chats, userId), offset, limit)
    {
      var sorted := RoomsOfUser(db.chats, userId);
      PageOfSorted(sorted, offset, limit, ChatUpdatedAt);
      Page(sorted, offset, limit)
    }

    /** `createChatMessage(data)` at time `now` with generated id `id`. */
    method CreateChatMessage(id: string, chatId: string, userId: string, content: string, role: Role, now: int)
      returns (m: ChatMessage)
      modifies db`chatMessages
      ensures m == ChatMessage(id, content, role, chatId, userId, now)
      ensures db.chatMessages == old(db.chatMessages) + [m]
    {
      m := ChatMessage(id, content, role, chatId, userId, now);
      db.chatMessages := db.chatMessages + [m];
    }

    /** The file records a message's attachment links point to, one per link, in link
        order. */
    function Attachments(m: ChatMessage): (r: seq<Option<FileUpload>>)
      reads db
      ensures |r| == |Filter(db.messageAttachments, (a: MessageAttachment) => a.messageId == m.id)|
      ensures var links := Filter(db.messageAttachments, (a: MessageAttachment) => a.messageId == m.id);
              forall i :: 0 <= i < |r| ==>
                r[i] == FirstWhere(db.fileUploads, (f: FileUpload) => f.id == links[i].fileUploadId) &&
                links[i].messageId == m.id &&
                (r[i].Some? ==> r[i].value in db.fileUploads && r[i].value.id == links[i].fileUploadId)
    {
      var links := Filter(db.messageAttachments, (a: MessageAttachment) => a.messageId == m.id);
      seq(|links|, i requires 0 <= i < |links| reads db =>
        FirstWhere(db.fileUploads, (f: FileUpload) => f.id == links[i].fileUploadId))
    }

    /** `getChatMessagesByChatId(chatId, offset, limit)` (defaults 0 and 20): that
        chat's messages, newest first, from `offset`, at most `limit`, each with its
        attachments flattened to file records, count and order kept. */
    function GetChatMessagesByChatId(chatId: string, offset: nat := 0, limit: nat := 20): (r: seq<MessageView>)
      reads db
      ensures |r| == |Page(MessagesByChat(db.chatMessages, chatId), offset, limit)|
      ensures forall i :: 0 <= i < |r| ==>
                r[i].message == Page(MessagesByChat(db.chatMessages, chatId), offset, limit)[i] &&
                r[i].message.chatId == chatId && r[i].message in db.chatMessages &&
                r[i].attachments == Attachments(r[i].message)
    {
      var page := Page(MessagesByChat(db.chatMessages, chatId), offset, limit);
      seq(|page|, i requires 0 <= i < |page| reads db => MessageView(page[i], Attachments(page[i])))
    }

    /** `deleteChatRoomById`: removes that room, its messages and their attachment
        links; other rooms, messages and links stay. */
    method DeleteChatRoomById(chatId: string)
      modifies db`chats, db`chatMessages, db`messageAttachments
      ensures db.chats == RemoveWhere(old(db.chats), (c: Chat) => c.id == chatId)
      ensures db.chatMessages == RemoveWhere(old(db.chatMessages), (m: ChatMessage) => m.chatId == chatId)
      ensures db.messageAttachments == RemoveWhere(old(db.messageAttachments), (a: MessageAttachment) =>
                LinksMessageOf(old(db.chatMessages), (m: ChatMessage) => m.chatId == chatId, a))
    {
      var messages := db.chatMessages;
      db.messageAttachments := RemoveWhere(db.messageAttachments, (a: MessageAttachment) =>
        LinksMessageOf(messages, (m: ChatMessage) => m.chatId == chatId, a));
      db.chatMessages := RemoveWhere(db.chatMessages, (m: ChatMessage) => m.chatId == chatId);
      db.chats := RemoveWhere(db.chats, (c: Chat) => c.id == chatId);
    }

    /** `deleteAllChatRoomsByUserId`: removes exactly that user's rooms, with their
        messages and links. */
    method DeleteAllChatRoomsByUserId(userId: string)
      modifies db`chats, db`chatMessages, db`messageAttachments
      ensures db.chats == RemoveWhere(old(db.chats), (c: Chat) => c.userId == userId)
      ensures forall i :: 0 <= i < |db.chats| ==> db.chats[i].userId != userId
      ensures db.messageAttachments == RemoveWhere(old(db.messageAttachments), (a: MessageAttachment) =>
                LinksMessageOf(old(db.chatMessages), (m: ChatMessage) => RoomOfUser(old(db.chats), userId, m.chatId), a))
      ensures db.chatMessages == RemoveWhere(old(db.chatMessages), (m: ChatMessage) =>
                RoomOfUser(old(db.chats), userId, m.chatId))
    {
      var rooms := db.chats;
      var messages := db.chatMessages;
      var gone := (m: ChatMessage) => RoomOfUser(rooms, userId, m.chatId);
      db.messageAttachments := RemoveWhere(db.messageAttachments, (a: MessageAttachment) =>
        LinksMessageOf(messages, gone, a));
      db.chatMessages := RemoveWhere(db.chatMessages, gone);
      db.chats := RemoveWhere(db.chats, (c: Chat) => c.userId == userId);
    }

    /** `createMessageAttachment({messageId, fileUploadId})`: inserts one link. */
    method CreateMessageAttachment(messageId: string, fileUploadId: string)
      modifies db`messageAttachments
      ensures db.messageAttachments == old(db.messageAttachments) + [MessageAttachment(messageId, fileUploadId)]
    {
      db.messageAttachments := db.messageAttachments + [MessageAttachment(messageId, fileUploadId)];
    }
  }
}
