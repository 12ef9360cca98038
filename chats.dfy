/** GET /api/chats (app/api/chats/route.ts): the caller's rooms, most
    recent first, each with the other participant, the last message, its
    relative time and the caller's unread count. */
module Chats {
  import opened Wrappers
  import opened DateUtil
  import opened Collections
  import opened Sorting
  import opened Store
  import opened Messages
  import opened RelativeTime

  predicate HasMember(caller: Id, room: ChatRoom) {
    room.user1Id == caller || room.user2Id == caller
  }

  /** `.sort({ lastMessageDate: -1 })`: newest first; a room that never had
      a message (one the booking flow created) sorts last. */
  function RecencyKey(room: ChatRoom): Key {
    match room.lastMessageDate
    case Some(d) => Key(0, -d, "")
    case None => Key(1, 0, "")
  }

  /** The caller's rooms in listing order. */
  function RoomsOf(rooms: seq<ChatRoom>, caller: Id): (r: seq<ChatRoom>)
    ensures |r| == Count(rooms, room => HasMember(caller, room))
    ensures SortedBy(r, RecencyKey)
    ensures forall i :: 0 <= i < |r| ==> r[i] in rooms && HasMember(caller, r[i])
    ensures forall i :: 0 <= i < |rooms| && HasMember(caller, rooms[i]) ==> rooms[i] in r
  {
    var mine := Filter(rooms, room => HasMember(caller, room));
    FilterCount(rooms, room => HasMember(caller, room));
    var sorted := SortBy(mine, RecencyKey);
    forall x | x in mine ensures x in sorted {
      assert x in multiset(mine);
    }
    forall i | 0 <= i < |sorted| ensures sorted[i] in rooms && HasMember(caller, sorted[i]) {
      SortedMembers(mine, RecencyKey, sorted[i]);
    }
    sorted
  }

  /** Rooms with a last message come before rooms without one, and among
      those the newer comes first. */
  lemma RecentFirst(rooms: seq<ChatRoom>, caller: Id, i: nat, j: nat)
    requires i < j < |RoomsOf(rooms, caller)|
    ensures var r := RoomsOf(rooms, caller);
      (r[i].lastMessageDate.None? ==> r[j].lastMessageDate.None?)
      && (r[i].lastMessageDate.Some? && r[j].lastMessageDate.Some? ==> r[i].lastMessageDate.value >= r[j].lastMessageDate.value)
  {
  }

  /** `room.user1Id === token.id ? room.user2Id : room.user1Id`. */
  function OtherParticipant(room: ChatRoom, caller: Id): (other: Id)
    ensures HasMember(caller, room) ==> Joins(room, caller, other)
    ensures room.user1Id == caller ==> other == room.user2Id
  {
    if room.user1Id == caller then room.user2Id else room.user1Id
  }

  datatype ChatEntry = ChatEntry(
    roomId: Id,
    otherId: Id,
    name: string,
    image: Option<string>,
    role: string,
    lastMessage: Option<string>,
    lastMessageDate: Option<TimeLabel>,
    unreadCount: nat)

  /** One formatted room: `otherUser?.name || "Unknown User"`, `otherUser?.role
      || "CLIENT"`, the relative time of the last message, or nothing. */
  function Entry(room: ChatRoom, users: seq<User>, messages: seq<Message>, caller: Id, now: Instant): (e: ChatEntry)
    ensures e.roomId == room.id && e.lastMessage == room.lastMessage
    ensures HasMember(caller, room) ==> Joins(room, caller, e.otherId)
    ensures e.unreadCount == UnreadCount(messages, room.id, caller)
    ensures FindUser(users, e.otherId).None? ==> e.name == "Unknown User" && e.role == "CLIENT" && e.image.None?
    ensures FindUser(users, e.otherId).Some? && FindUser(users, e.otherId).value.name != "" ==>
      e.name == FindUser(users, e.otherId).value.name
    ensures e.lastMessageDate.Some? <==> room.lastMessageDate.Some?
    ensures room.lastMessageDate.Some? ==> e.lastMessageDate == Some(FormatMessageTime(room.lastMessageDate.value, now))
  {
    var other := OtherParticipant(room, caller);
    var user := FindUser(users, other);
    ChatEntry(
      room.id,
      other,
      if user.Some? && user.value.name != "" then user.value.name else "Unknown User",
      if user.Some? then Some(user.value.image) else None,
      if user.Some? && user.value.role != "" then user.value.role else "CLIENT",
      room.lastMessage,
      if room.lastMessageDate.Some? then Some(FormatMessageTime(room.lastMessageDate.value, now)) else None,
      UnreadCount(messages, room.id, caller))
  }

  /** The GET: 401 without `token.id`; otherwise one entry per room of the
      caller, in listing order. */
  function ListChats(rooms: seq<ChatRoom>, messages: seq<Message>, users: seq<User>, tokenId: Option<Id>, now: Instant)
    : (r: Response<seq<ChatEntry>>)
    ensures r.Err? <==> tokenId.None?
    ensures r.Err? ==> r.status == Unauthorized
    ensures r.Ok? ==>
      |r.body| == Count(rooms, room => HasMember(tokenId.value, room))
      && forall i :: 0 <= i < |r.body| ==>
        r.body[i] == Entry(RoomsOf(rooms, tokenId.value)[i], users, messages, tokenId.value, now)
  {
    if tokenId.None? then Err(Unauthorized)
    else
      var listed := RoomsOf(rooms, tokenId.value);
      Ok(seq(|listed|, i requires 0 <= i < |listed| => Entry(listed[i], users, messages, tokenId.value, now)))
  }

  /** Every listed entry names a room of the caller and its other member. */
  lemma EntriesNameCallerRooms(rooms: seq<ChatRoom>, messages: seq<Message>, users: seq<User>, caller: Id, now: Instant, i: nat)
    requires i < |ListChats(rooms, messages, users, Some(caller), now).body|
    ensures var e := ListChats(rooms, messages, users, Some(caller), now).body[i];
      exists k :: 0 <= k < |rooms| && rooms[k].id == e.roomId && Joins(rooms[k], caller, e.otherId)
  {
    var room := RoomsOf(rooms, caller)[i];
    var k :| 0 <= k < |rooms| && rooms[k] == room;
  }

  /** Marking a listed room read brings its unread count to 0. */
  lemma UnreadAfterMarkRead(rooms: seq<ChatRoom>, messages: seq<Message>, users: seq<User>, caller: Id, now: Instant, i: nat)
    requires i < |ListChats(rooms, messages, users, Some(caller), now).body|
    ensures var e := ListChats(rooms, messages, users, Some(caller), now).body[i];
      ListChats(rooms, MarkRead(messages, e.roomId, caller), users, Some(caller), now).body[i].unreadCount == 0
  {
    var e := ListChats(rooms, messages, users, Some(caller), now).body[i];
    MarkReadProperties(messages, e.roomId, caller);
  }
}
