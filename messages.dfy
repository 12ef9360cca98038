/** /api/messages (app/api/messages/route.ts) and /api/messages/read
    (app/api/messages/read/route.ts): send a message, creating the pair's
    room when needed; read a room's messages; mark a room's messages read. */
module Messages {
  import opened Wrappers
  import opened DateUtil
  import opened Collections
  import opened Sorting
  import opened Store

  /** The room a send goes to when no `chatRoomId` is given: the pair's
      existing room, or a new one with the sender in user1, the receiver in
      user2 and the content as its last message. */
  function RoomForSend(rooms: seq<ChatRoom>, sender: Id, receiver: Id, content: string, freshId: Id, now: Instant)
    : (r: Upserted)
    ensures rooms <= r.rooms && |r.rooms| <= |rooms| + 1
    ensures FindRoomForPair(rooms, sender, receiver).Some? ==>
      r.rooms == rooms && r.roomId == FindRoomForPair(rooms, sender, receiver).value.id
    ensures FindRoomForPair(rooms, sender, receiver).None? ==>
      r.rooms == rooms + [ChatRoom(freshId, sender, receiver, Some(content), Some(now), now)] && r.roomId == freshId
  {
    match FindRoomForPair(rooms, sender, receiver)
    case Some(room) => Upserted(rooms, room.id)
    case None => Upserted(rooms + [ChatRoom(freshId, sender, receiver, Some(content), Some(now), now)], freshId)
  }

  /** A second send between the same two users, in either direction, finds
      the room the first one created or found. */
  lemma RepeatedSendsShareRoom(rooms: seq<ChatRoom>, a: Id, b: Id, c1: string, c2: string, id1: Id, id2: Id,
                               t1: Instant, t2: Instant)
    ensures var first := RoomForSend(rooms, a, b, c1, id1, t1);
      RoomForSend(first.rooms, b, a, c2, id2, t2) == first
  {
    var first := RoomForSend(rooms, a, b, c1, id1, t1);
    if FindRoomForPair(rooms, a, b).None? {
      FirstPairRoomAfterAppend(rooms, a, b, ChatRoom(id1, a, b, Some(c1), Some(t1), t1));
    }
    PairLookupSymmetric(first.rooms, a, b);
  }

  /** `ChatRoom.findByIdAndUpdate(id, { lastMessage, lastMessageDate })`. */
  function TouchRoom(rooms: seq<ChatRoom>, id: Id, content: string, now: Instant): (r: seq<ChatRoom>)
    ensures |r| == |rooms|
    ensures forall i :: 0 <= i < |rooms| ==>
      r[i] == if rooms[i].id == id then rooms[i].(lastMessage := Some(content), lastMessageDate := Some(now)) else rooms[i]
  {
    seq(|rooms|, i requires 0 <= i < |rooms| =>
      if rooms[i].id == id then rooms[i].(lastMessage := Some(content), lastMessageDate := Some(now)) else rooms[i])
  }

  /** Refreshing the last message keeps every room's membership, so pair
      lookups and pair uniqueness are unaffected. */
  lemma {:induction false} TouchKeepsPairLookup(rooms: seq<ChatRoom>, id: Id, content: string, now: Instant, a: Id, b: Id)
    ensures FindRoomForPair(TouchRoom(rooms, id, content, now), a, b).None? <==> FindRoomForPair(rooms, a, b).None?
    ensures PairUnique(rooms) ==> PairUnique(TouchRoom(rooms, id, content, now))
  {
    var r := TouchRoom(rooms, id, content, now);
    assert forall i :: 0 <= i < |rooms| ==> (Joins(r[i], a, b) <==> Joins(rooms[i], a, b));
    assert forall i :: 0 <= i < |rooms| ==> r[i].user1Id == rooms[i].user1Id && r[i].user2Id == rooms[i].user2Id;
  }

  lemma RoomForSendFresh(rooms: seq<ChatRoom>, sender: Id, receiver: Id, content: string, bound: Id, now: Instant)
    requires RoomIdsFresh(rooms, bound)
    ensures RoomIdsFresh(RoomForSend(rooms, sender, receiver, content, bound, now).rooms, bound + 1)
  {
  }

  lemma TouchKeepsIds(rooms: seq<ChatRoom>, id: Id, content: string, now: Instant, bound: Id)
    requires RoomIdsFresh(rooms, bound)
    ensures RoomIdsFresh(TouchRoom(rooms, id, content, now), bound)
  {
  }

  datatype SendRequest = SendRequest(content: string, receiverId: Id, chatRoomId: Option<Id>)

  /** The POST: 401 without `token.userId`; 500 when a given `chatRoomId`
      names no room (nothing is written); otherwise one unread message from
      the caller is appended and its room's last message set to the
      content. A given room is not checked for the caller's membership. */
  method PostMessage(db: Db, tokenUserId: Option<Id>, req: SendRequest, now: Instant) returns (r: Response<Message>)
    requires db.Valid()
    modifies db
    ensures db.Valid()
    ensures tokenUserId.None? ==> r == Err(Unauthorized)
    ensures tokenUserId.Some? && req.chatRoomId.Some? && FindRoom(old(db.rooms), req.chatRoomId.value).None? ==>
      r == Err(ServerError)
    ensures r.Ok? <==> tokenUserId.Some? && (req.chatRoomId.None? || FindRoom(old(db.rooms), req.chatRoomId.value).Some?)
    ensures r.Err? ==> db.messages == old(db.messages) && db.rooms == old(db.rooms)
    ensures r.Ok? ==>
      tokenUserId.Some?
      && r.body == Message(r.body.id, req.content, tokenUserId.value, req.receiverId, r.body.chatRoomId, false, now)
      && db.messages == old(db.messages) + [r.body]
      && match req.chatRoomId
        case Some(id) =>
          r.body.chatRoomId == id && FindRoom(old(db.rooms), id).Some?
          && db.rooms == TouchRoom(old(db.rooms), id, req.content, now)
        case None =>
          var up := RoomForSend(old(db.rooms), tokenUserId.value, req.receiverId, req.content, old(db.nextId), now);
          r.body.chatRoomId == up.roomId && db.rooms == TouchRoom(up.rooms, up.roomId, req.content, now)
    ensures db.bookings == old(db.bookings) && db.appointments == old(db.appointments)
    ensures db.users == old(db.users) && db.counselors == old(db.counselors) && db.profiles == old(db.profiles)
  {
    if tokenUserId.None? {
      return Err(Unauthorized);
    }
    var roomId: Id;
    if req.chatRoomId.Some? {
      if FindRoom(db.rooms, req.chatRoomId.value).None? {
        return Err(ServerError);
      }
      roomId := req.chatRoomId.value;
    } else {
      roomId := OpenRoom(db, tokenUserId.value, req.receiverId, req.content, now);
    }
    var m := Deliver(db, tokenUserId.value, req, roomId, now);
    r := Ok(m);
  }

  /** The pair's room, created under a fresh id when there is none. */
  method OpenRoom(db: Db, sender: Id, receiver: Id, content: string, now: Instant) returns (roomId: Id)
    requires db.Valid()
    modifies db`rooms, db`nextId
    ensures db.Valid()
    ensures var up := RoomForSend(old(db.rooms), sender, receiver, content, old(db.nextId), now);
      db.rooms == up.rooms && roomId == up.roomId
  {
    var freshId := db.NewId();
    var up := RoomForSend(db.rooms, sender, receiver, content, freshId, now);
    RoomForSendFresh(db.rooms, sender, receiver, content, freshId, now);
    db.rooms := up.rooms;
    roomId := up.roomId;
  }

  /** `Message.create` followed by the room's `lastMessage` update. */
  method Deliver(db: Db, sender: Id, req: SendRequest, roomId: Id, now: Instant) returns (m: Message)
    requires db.Valid()
    modifies db`rooms, db`messages, db`nextId
    ensures db.Valid()
    ensures m == Message(old(db.nextId), req.content, sender, req.receiverId, roomId, false, now)
    ensures db.messages == old(db.messages) + [m]
    ensures db.rooms == TouchRoom(old(db.rooms), roomId, req.content, now)
  {
    var messageId := db.NewId();
    m := Message(messageId, req.content, sender, req.receiverId, roomId, false, now);
    AppendFreshMessage(db.messages, m, messageId);
    db.messages := db.messages + [m];
    TouchKeepsIds(db.rooms, roomId, req.content, now, db.nextId);
    db.rooms := TouchRoom(db.rooms, roomId, req.content, now);
  }

  /** The GET's query: the room's messages, created after `after` when given. */
  predicate InWindow(roomId: Id, after: Option<Instant>, m: Message) {
    m.chatRoomId == roomId && (after.None? || m.createdAt > after.value)
  }

  function CreatedKey(m: Message): Key {
    Key(0, m.createdAt, "")
  }

  /** `Message.find(query).sort({ createdAt: 1 }).limit(50)`: the window's
      50 oldest messages (all of them when fewer), oldest first. */
  function RoomMessages(messages: seq<Message>, roomId: Id, after: Option<Instant>): (r: seq<Message>)
    ensures |r| <= 50 && SortedBy(r, CreatedKey)
    ensures forall i :: 0 <= i < |r| ==> r[i] in messages && InWindow(roomId, after, r[i])
    ensures |r| == if Count(messages, m => InWindow(roomId, after, m)) < 50
                   then Count(messages, m => InWindow(roomId, after, m)) else 50
    ensures forall k :: 0 <= k < |messages| && InWindow(roomId, after, messages[k]) && messages[k] !in r ==>
      forall j :: 0 <= j < |r| ==> r[j].createdAt <= messages[k].createdAt
  {
    var inWindow := m => InWindow(roomId, after, m);
    var r := Take(SortBy(Filter(messages, inWindow), CreatedKey), 50);
    SortedFilterPrefix(messages, inWindow, CreatedKey, 50);
    forall k, j | 0 <= k < |messages| && inWindow(messages[k]) && messages[k] !in r && 0 <= j < |r|
      ensures r[j].createdAt <= messages[k].createdAt
    {
      assert KeyLe(CreatedKey(r[j]), CreatedKey(messages[k]));
    }
    r
  }

  /** The GET: 401 without `token.userId`, 400 without `chatRoomId`, 403
      when the room is missing or the caller is in neither slot; otherwise
      the room's messages. */
  function GetMessages(rooms: seq<ChatRoom>, messages: seq<Message>, tokenUserId: Option<Id>,
                       chatRoomId: Option<Id>, after: Option<Instant>): (r: Response<seq<Message>>)
    ensures tokenUserId.None? ==> r == Err(Unauthorized)
    ensures tokenUserId.Some? && chatRoomId.None? ==> r == Err(BadRequest)
    ensures tokenUserId.Some? && chatRoomId.Some? ==>
      (r == Err(Forbidden) <==>
        FindRoom(rooms, chatRoomId.value).None?
        || (FindRoom(rooms, chatRoomId.value).value.user1Id != tokenUserId.value
            && FindRoom(rooms, chatRoomId.value).value.user2Id != tokenUserId.value))
    ensures r.Ok? ==> tokenUserId.Some? && chatRoomId.Some? && r.body == RoomMessages(messages, chatRoomId.value, after)
  {
    if tokenUserId.None? then Err(Unauthorized)
    else if chatRoomId.None? then Err(BadRequest)
    else match FindRoom(rooms, chatRoomId.value)
      case None => Err(Forbidden)
      case Some(room) =>
        if room.user1Id != tokenUserId.value && room.user2Id != tokenUserId.value then Err(Forbidden)
        else Ok(RoomMessages(messages, chatRoomId.value, after))
  }

  /** The messages `updateMany` targets: in the room, to the caller, unread. */
  predicate UnreadFor(roomId: Id, caller: Id, m: Message) {
    m.chatRoomId == roomId && m.receiverId == caller && !m.read
  }

  /** `countDocuments({ chatRoomId, receiverId: caller, read: false })`. */
  function UnreadCount(messages: seq<Message>, roomId: Id, caller: Id): (n: nat)
    ensures n == 0 <==> forall i :: 0 <= i < |messages| ==> !UnreadFor(roomId, caller, messages[i])
  {
    Count(messages, m => UnreadFor(roomId, caller, m))
  }

  /** `updateMany(..., { $set: { read: true } })`. */
  function MarkRead(messages: seq<Message>, roomId: Id, caller: Id): (r: seq<Message>)
    ensures |r| == |messages|
    ensures forall i :: 0 <= i < |messages| ==>
      r[i] == if UnreadFor(roomId, caller, messages[i]) then messages[i].(read := true) else messages[i]
  {
    seq(|messages|, i requires 0 <= i < |messages| =>
      if UnreadFor(roomId, caller, messages[i]) then messages[i].(read := true) else messages[i])
  }

  /** Marking twice is marking once; afterwards the caller has nothing
      unread in the room; messages in other rooms or to someone else keep
      their flag. */
  lemma MarkReadProperties(messages: seq<Message>, roomId: Id, caller: Id)
    ensures MarkRead(MarkRead(messages, roomId, caller), roomId, caller) == MarkRead(messages, roomId, caller)
    ensures UnreadCount(MarkRead(messages, roomId, caller), roomId, caller) == 0
    ensures forall i :: 0 <= i < |messages| && (messages[i].chatRoomId != roomId || messages[i].receiverId != caller) ==>
      MarkRead(messages, roomId, caller)[i] == messages[i]
  {
    var once := MarkRead(messages, roomId, caller);
    assert forall i :: 0 <= i < |once| ==> !UnreadFor(roomId, caller, once[i]);
  }

  /** Marking read in one room leaves every other room's unread count. */
  lemma {:induction false} MarkReadOtherRoomsCount(messages: seq<Message>, roomId: Id, other: Id, caller: Id, who: Id)
    requires other != roomId
    ensures UnreadCount(MarkRead(messages, roomId, caller), other, who) == UnreadCount(messages, other, who)
  {
    var r := MarkRead(messages, roomId, caller);
    assert forall i :: 0 <= i < |messages| ==> (UnreadFor(other, who, r[i]) <==> UnreadFor(other, who, messages[i]));
    CountSamePredicate(messages, r, m => UnreadFor(other, who, m));
  }

  /** The read POST: 401 without `token.id`; otherwise the flip. */
  method MarkReadRoute(db: Db, tokenId: Option<Id>, chatRoomId: Id) returns (r: Response<()>)
    requires db.Valid()
    modifies db`messages
    ensures db.Valid()
    ensures tokenId.None? ==> r == Err(Unauthorized) && db.messages == old(db.messages)
    ensures tokenId.Some? ==> r == Ok(()) && db.messages == MarkRead(old(db.messages), chatRoomId, tokenId.value)
  {
    if tokenId.None? {
      return Err(Unauthorized);
    }
    var ms := MarkRead(db.messages, chatRoomId, tokenId.value);
    assert forall i :: 0 <= i < |ms| ==> ms[i].id == db.messages[i].id;
    db.messages := ms;
    r := Ok(());
  }
}
