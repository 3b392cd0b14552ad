/**
 * The queries app/api/endpoints/chat.py issues against its tables, as functions
 * on in-memory tables, and the fan-out of one broadcast over the connection table.
 */
module ChatQueries {
  import opened Results
  import opened ChatModels

  /** No row of the table occurs twice. */
  predicate NoDuplicates<T(==)>(s: seq<T>) {
    forall i, j :: 0 <= i < j < |s| ==> s[i] != s[j]
  }

  /** Ids strictly increase along the table: the order in which the database assigned them. */
  predicate IdsIncreasing(log: seq<ChatMessage>) {
    forall i, j :: 0 <= i < j < |log| ==> log[i].id < log[j].id
  }

  /** Room ids strictly increase along the rooms table. */
  predicate RoomIdsIncreasing(rooms: seq<ChatRoom>) {
    forall i, j :: 0 <= i < j < |rooms| ==> rooms[i].id < rooms[j].id
  }

  /** `select(User).where(User.username == name)` followed by `.first()`. */
  function FindUser(users: seq<User>, name: string): (r: Option<User>)
    ensures r.None? <==> forall u :: u in users ==> u.username != name
    ensures r.Some? ==> r.value in users && r.value.username == name
    ensures r.Some? ==> exists i :: 0 <= i < |users| && users[i] == r.value && NoneNamedBefore(users, name, i)
  {
    if |users| == 0 then None
    else if users[0].username == name then
      assert NoneNamedBefore(users, name, 0);
      Some(users[0])
    else
      var r := FindUser(users[1..], name);
      if r.Some? then
        var i :| 0 <= i < |users[1..]| && users[1..][i] == r.value && NoneNamedBefore(users[1..], name, i);
        assert users[i + 1] == r.value && NoneNamedBefore(users, name, i + 1);
        r
      else r
  }

  /** No user before position `i` carries `name`: the first match is at `i`. */
  predicate NoneNamedBefore(users: seq<User>, name: string, i: int)
    requires 0 <= i <= |users|
  {
    forall j :: 0 <= j < i ==> users[j].username != name
  }

  /** `select(ChatRoom).filter(ChatRoom.id == id)` followed by `.first()`. */
  function FindRoom(rooms: seq<ChatRoom>, id: ChatId): (r: Option<ChatRoom>)
    ensures r.None? <==> forall room :: room in rooms ==> room.id != id
    ensures r.Some? ==> r.value in rooms && r.value.id == id
  {
    if |rooms| == 0 then None
    else if rooms[0].id == id then Some(rooms[0])
    else FindRoom(rooms[1..], id)
  }

  /** Some `chat_participants` row pairs `chat` with `user`. */
  predicate IsParticipant(parts: seq<ChatParticipant>, chat: ChatId, user: UserId) {
    ChatParticipant(chat, user) in parts
  }

  /**
   * `select(ChatParticipant.user_id).where(chat_id == chat, user_id != sender)`:
   * the user ids a broadcast is addressed to, in table order.
   */
  function Recipients(parts: seq<ChatParticipant>, chat: ChatId, sender: UserId): (r: seq<UserId>)
    ensures forall u :: u in r <==> u != sender && IsParticipant(parts, chat, u)
    ensures NoDuplicates(parts) ==> NoDuplicates(r)
  {
    if |parts| == 0 then []
    else
      var rest := Recipients(parts[1..], chat, sender);
      if parts[0].chatId == chat && parts[0].userId != sender then
        assert NoDuplicates(parts) ==> parts[0].userId !in rest;
        assert NoDuplicates(parts) ==> NoDuplicates(parts[1..]) by {
          if NoDuplicates(parts) {
            forall i, j | 0 <= i < j < |parts[1..]| ensures parts[1..][i] != parts[1..][j] {
              assert parts[1..][i] == parts[i + 1] && parts[1..][j] == parts[j + 1];
            }
          }
        }
        [parts[0].userId] + rest
      else
        assert NoDuplicates(parts) ==> NoDuplicates(parts[1..]) by {
          if NoDuplicates(parts) {
            forall i, j | 0 <= i < j < |parts[1..]| ensures parts[1..][i] != parts[1..][j] {
              assert parts[1..][i] == parts[i + 1] && parts[1..][j] == parts[j + 1];
            }
          }
        }
        rest
  }

  /** The sockets the fan-out loop writes to: the registered socket of each online user, in order. */
  function Targets(us: seq<UserId>, active: map<UserId, ConnId>): seq<ConnId> {
    if |us| == 0 then []
    else
      var last := us[|us| - 1];
      Targets(us[..|us| - 1], active) + (if last in active then [active[last]] else [])
  }

  /** The frames written to socket `c` so far. */
  function Frames(outbox: map<ConnId, seq<Frame>>, c: ConnId): seq<Frame> {
    if c in outbox then outbox[c] else []
  }

  /** One `send_text` on socket `c`. */
  function Send(outbox: map<ConnId, seq<Frame>>, c: ConnId, f: Frame): map<ConnId, seq<Frame>> {
    outbox[c := Frames(outbox, c) + [f]]
  }

  /** The fan-out loop: `f` sent on each socket of `cs`, in order. */
  function FanOut(outbox: map<ConnId, seq<Frame>>, cs: seq<ConnId>, f: Frame): map<ConnId, seq<Frame>> {
    if |cs| == 0 then outbox
    else Send(FanOut(outbox, cs[..|cs| - 1], f), cs[|cs| - 1], f)
  }

  /** The number of occurrences of `c` in `cs`. */
  function Count(cs: seq<ConnId>, c: ConnId): nat {
    if |cs| == 0 then 0
    else Count(cs[..|cs| - 1], c) + (if cs[|cs| - 1] == c then 1 else 0)
  }

  /** `n` copies of `f`. */
  function Repeat(f: Frame, n: nat): seq<Frame> {
    if n == 0 then [] else Repeat(f, n - 1) + [f]
  }

  /** Each socket receives `f` once per occurrence in `cs`, after what it had; no other socket changes. */
  lemma {:induction false} FanOutFrames(outbox: map<ConnId, seq<Frame>>, cs: seq<ConnId>, f: Frame, c: ConnId)
    ensures Frames(FanOut(outbox, cs, f), c) == Frames(outbox, c) + Repeat(f, Count(cs, c))
  {
    if |cs| > 0 {
      var init, last := cs[..|cs| - 1], cs[|cs| - 1];
      FanOutFrames(outbox, init, f, c);
      var before := Frames(FanOut(outbox, init, f), c);
      assert before == Frames(outbox, c) + Repeat(f, Count(init, c));
      if last == c {
        assert Frames(FanOut(outbox, cs, f), c) == before + [f];
        assert Repeat(f, Count(cs, c)) == Repeat(f, Count(init, c)) + [f];
      } else {
        assert Frames(FanOut(outbox, cs, f), c) == before;
        assert Count(cs, c) == Count(init, c);
      }
    }
  }

  /** Fan-out opens no socket: the outbox keys only grow by the sockets written to. */
  lemma {:induction false} FanOutKeys(outbox: map<ConnId, seq<Frame>>, cs: seq<ConnId>, f: Frame)
    ensures FanOut(outbox, cs, f).Keys == outbox.Keys + set c | c in cs
  {
    if |cs| > 0 {
      FanOutKeys(outbox, cs[..|cs| - 1], f);
      assert cs == cs[..|cs| - 1] + [cs[|cs| - 1]];
    }
  }

  /**
   * The connection table and the socket bindings agree: a user's registered
   * socket is one that was authenticated as that user.
   */
  predicate RegistryConsistent(active: map<UserId, ConnId>, bound: map<ConnId, UserId>) {
    forall u :: u in active ==> active[u] in bound && bound[active[u]] == u
  }

  /** Socket `c` is the registered socket of its own user. */
  predicate IsRegistered(active: map<UserId, ConnId>, bound: map<ConnId, UserId>, c: ConnId) {
    c in bound && bound[c] in active && active[bound[c]] == c
  }

  /** Every target socket is authenticated. */
  lemma {:induction false} TargetsBound(us: seq<UserId>, active: map<UserId, ConnId>, bound: map<ConnId, UserId>)
    requires RegistryConsistent(active, bound)
    ensures forall c :: c in Targets(us, active) ==> c in bound
  {
    if |us| > 0 {
      TargetsBound(us[..|us| - 1], active, bound);
    }
  }

  /** With distinct users, a socket is targeted once if its user is among them and online, else never. */
  lemma {:induction false} CountTargets(us: seq<UserId>, active: map<UserId, ConnId>, bound: map<ConnId, UserId>, c: ConnId)
    requires RegistryConsistent(active, bound) && NoDuplicates(us)
    ensures Count(Targets(us, active), c) == if IsRegistered(active, bound, c) && bound[c] in us then 1 else 0
  {
    if |us| > 0 {
      var init, last := us[..|us| - 1], us[|us| - 1];
      assert us == init + [last];
      assert NoDuplicates(init);
      assert last !in init;
      CountTargets(init, active, bound, c);
      var t := Targets(init, active);
      assert Targets(us, active) == t + (if last in active then [active[last]] else []);
      if last in active {
        assert (t + [active[last]])[..|t|] == t;
        assert Count(Targets(us, active), c) == Count(t, c) + (if active[last] == c then 1 else 0);
        if active[last] == c {
          assert bound[c] == last;
        }
      } else {
        assert Targets(us, active) == t;
        assert IsRegistered(active, bound, c) ==> bound[c] != last;
      }
      assert forall x :: x in us <==> x in init || x == last;
    }
  }

  /** Socket `c` is a fan-out target for a message `sender` posts to `chat`. */
  predicate Receives(active: map<UserId, ConnId>, bound: map<ConnId, UserId>,
                     parts: seq<ChatParticipant>, chat: ChatId, sender: UserId, c: ConnId)
  {
    IsRegistered(active, bound, c) && bound[c] != sender && IsParticipant(parts, chat, bound[c])
  }

  /**
   * Fan-out reaches exactly the registered sockets of the chat's other
   * participants, each once, with the same frame; every other socket,
   * the sender's included, is left as it was.
   */
  lemma FanOutToOnlineMembers(outbox: map<ConnId, seq<Frame>>, active: map<UserId, ConnId>, bound: map<ConnId, UserId>,
                              parts: seq<ChatParticipant>, chat: ChatId, sender: UserId, f: Frame, c: ConnId)
    requires RegistryConsistent(active, bound) && NoDuplicates(parts)
    ensures Frames(FanOut(outbox, Targets(Recipients(parts, chat, sender), active), f), c)
         == Frames(outbox, c) + (if Receives(active, bound, parts, chat, sender, c) then [f] else [])
  {
    var us := Recipients(parts, chat, sender);
    FanOutFrames(outbox, Targets(us, active), f, c);
    CountTargets(us, active, bound, c);
    assert Repeat(f, 1) == [f];
  }

  /** `select(ChatMessage).filter(ChatMessage.chat_id == chat)`, in log order. */
  function MessagesOf(log: seq<ChatMessage>, chat: ChatId): (r: seq<ChatMessage>)
    ensures forall m :: m in r <==> m in log && m.chatId == chat
  {
    if |log| == 0 then []
    else
      var rest := MessagesOf(log[1..], chat);
      if log[0].chatId == chat then [log[0]] + rest else rest
  }

  /** A chat's listing keeps the log's order: its ids increase when the log's do. */
  lemma {:induction false} MessagesOfIncreasing(log: seq<ChatMessage>, chat: ChatId)
    requires IdsIncreasing(log)
    ensures IdsIncreasing(MessagesOf(log, chat))
  {
    if |log| > 0 {
      IdsIncreasingTail(log);
      MessagesOfIncreasing(log[1..], chat);
      if log[0].chatId == chat {
        IdsIncreasingCons(log[0], log[1..], MessagesOf(log[1..], chat));
      }
    }
  }

  /** Dropping the first row keeps the ids increasing. */
  lemma IdsIncreasingTail(log: seq<ChatMessage>)
    requires |log| > 0 && IdsIncreasing(log)
    ensures IdsIncreasing(log[1..])
  {
  }

  /** A row placed before increasing rows drawn from later in the log keeps them increasing. */
  lemma IdsIncreasingCons(first: ChatMessage, later: seq<ChatMessage>, rest: seq<ChatMessage>)
    requires IdsIncreasing([first] + later) && IdsIncreasing(rest)
    requires forall m :: m in rest ==> m in later
    ensures IdsIncreasing([first] + rest)
  {
    var log := [first] + later;
    forall m | m in rest ensures first.id < m.id {
      var k :| 0 <= k < |later| && later[k] == m;
      assert log[0] == first && log[k + 1] == m;
      assert log[0].id < log[k + 1].id;
    }
    var r := [first] + rest;
    forall i, j | 0 <= i < j < |r| ensures r[i].id < r[j].id {
      if i == 0 {
        assert r[j] in rest;
      } else {
        assert r[i] == rest[i - 1] && r[j] == rest[j - 1];
      }
    }
  }

  /** A message appended to the log comes last in its own chat's listing and leaves other chats' listings alone. */
  lemma {:induction false} MessagesOfAppend(log: seq<ChatMessage>, m: ChatMessage, chat: ChatId)
    ensures MessagesOf(log + [m], chat) == MessagesOf(log, chat) + if m.chatId == chat then [m] else []
  {
    if |log| > 0 {
      assert (log + [m])[1..] == log[1..] + [m];
      MessagesOfAppend(log[1..], m, chat);
    }
  }

  /** `select(ChatRoom).join(ChatParticipant).filter(user_id == user)`: the rooms `user` belongs to. */
  function ChatsOf(rooms: seq<ChatRoom>, parts: seq<ChatParticipant>, user: UserId): (r: seq<ChatRoom>)
    ensures forall room :: room in r <==> room in rooms && IsParticipant(parts, room.id, user)
    ensures |r| <= |rooms|
  {
    if |rooms| == 0 then []
    else
      var rest := ChatsOf(rooms[1..], parts, user);
      if IsParticipant(parts, rooms[0].id, user) then [rooms[0]] + rest else rest
  }

  /**
   * The joined rooms keep table order: their ids increase along the result
   * when they do along the table, so no room is listed twice.
   */
  lemma {:induction false} ChatsOfIncreasing(rooms: seq<ChatRoom>, parts: seq<ChatParticipant>, user: UserId)
    requires RoomIdsIncreasing(rooms)
    ensures RoomIdsIncreasing(ChatsOf(rooms, parts, user))
    ensures NoDuplicates(ChatsOf(rooms, parts, user))
  {
    var r := ChatsOf(rooms, parts, user);
    if |rooms| > 0 {
      var rest := ChatsOf(rooms[1..], parts, user);
      RoomIdsIncreasingTail(rooms);
      ChatsOfIncreasing(rooms[1..], parts, user);
      if IsParticipant(parts, rooms[0].id, user) {
        RoomIdsIncreasingCons(rooms[0], rest);
      }
    }
    forall i, j | 0 <= i < j < |r| ensures r[i] != r[j] {
      assert r[i].id < r[j].id;
    }
  }

  /** Past the first room, ids still increase, and all exceed the first room's. */
  lemma RoomIdsIncreasingTail(rooms: seq<ChatRoom>)
    requires |rooms| > 0 && RoomIdsIncreasing(rooms)
    ensures RoomIdsIncreasing(rooms[1..])
    ensures forall room :: room in rooms[1..] ==> rooms[0].id < room.id
  {
    forall room | room in rooms[1..] ensures rooms[0].id < room.id {
      var k :| 0 <= k < |rooms[1..]| && rooms[1..][k] == room;
      assert rooms[k + 1] == room;
    }
  }

  /** A room placed before increasing rooms with larger ids keeps them increasing. */
  lemma RoomIdsIncreasingCons(first: ChatRoom, rest: seq<ChatRoom>)
    requires RoomIdsIncreasing(rest) && forall room :: room in rest ==> first.id < room.id
    ensures RoomIdsIncreasing([first] + rest)
  {
    var r := [first] + rest;
    forall i, j | 0 <= i < j < |r| ensures r[i].id < r[j].id {
      assert r[j] == rest[j - 1] && r[j] in rest;
      if i > 0 {
        assert r[i] == rest[i - 1];
      }
    }
  }
}
