/**
 * app/api/endpoints/chat.py: the WebSocket endpoint with its process-wide
 * connection table, and the REST room operations, over in-memory tables.
 * Each connection's receive loop is a sequence of calls on one server; calls
 * for different connections may interleave, each call running to completion.
 */
module ChatEndpoints {
  import opened Results
  import opened JsonValues
  import opened ChatModels
  import opened ChatQueries

  /**
   * An inbound text frame as the loop reads it: `BadFrame` when `json.loads`
   * raises or yields something without `.get`; otherwise what
   * `message_data.get("chat_id")` and `message_data.get("message")` return.
   */
  datatype Inbound = BadFrame | Inbound(chatId: Option<Json>, message: Option<Json>)

  /** What one inbound frame leads to. */
  datatype FrameOutcome =
    | NotParticipant                   // error text sent back; the loop goes on
    | Broadcast(message: ChatMessage)  // row inserted and fanned out; the loop goes on
    | Failed                           // an exception other than WebSocketDisconnect ended the loop

  /** How the handshake ends. */
  datatype ConnectOutcome = Refused(code: int) | Accepted(user: User)

  /** What `receive_text` yields next: a text (stamped `now` if it is stored), or a disconnect. */
  datatype Event = Receive(data: string, now: Timestamp) | ClientDisconnect

  /** Where one connection's handling stops. */
  datatype SessionEnd = Rejected | Disconnected | Crashed | Waiting

  /** A stretch of one connection's receive loop: how it ends, the rows it stores, and the outbox after it. */
  datatype Trace = Trace(end: SessionEnd, posted: seq<ChatMessage>, outbox: map<ConnId, seq<Frame>>)

  /** The body of the receive loop decides, before writing anything: */
  datatype Step =
    | Raise                               // an exception escapes the loop
    | Deny                                // no participant row: send the error text
    | Store(chatId: ChatId, text: string) // insert the row, then fan out

  /**
   * The loop body's decision for a frame from `user`. A `chat_id` that is
   * absent or null becomes `IS NULL` and matches no row. One that is not an
   * integer, or an integer outside the 32-bit range of the `chat_id` column,
   * is refused by the database driver, as is a `message` that is absent,
   * null (the column is NOT NULL) or not a string.
   */
  function Decide(inbound: Inbound, parts: seq<ChatParticipant>, user: UserId): (s: Step)
    ensures s.Store? ==> IsParticipant(parts, s.chatId, user)
    ensures s.Store? ==> inbound.Inbound? && inbound.chatId == Some(JInt(s.chatId)) && inbound.message == Some(JStr(s.text))
    ensures s.Store? <==> && inbound.Inbound?
                          && inbound.chatId.Some? && inbound.chatId.value.JInt? && FitsInt4(inbound.chatId.value.i)
                          && IsParticipant(parts, inbound.chatId.value.i, user)
                          && inbound.message.Some? && inbound.message.value.JStr?
    ensures s.Deny? <==> inbound.Inbound? && match inbound.chatId
                                             case None => true
                                             case Some(c) => c.JInt? && FitsInt4(c.i) && !IsParticipant(parts, c.i, user)
  {
    match inbound
    case BadFrame => Raise
    case Inbound(None, _) => Deny
    case Inbound(Some(c), message) =>
      if !c.JInt? || !FitsInt4(c.i) then Raise
      else if !IsParticipant(parts, c.i, user) then Deny
      else if message.Some? && message.value.JStr? then Store(c.i, message.value.s)
      else Raise
  }

  /** One event of the receive loop, with its frame already decided. */
  datatype Action = Leave | Handle(step: Step, now: Timestamp)

  /** No action stores a row in a chat `user` does not belong to. */
  predicate Permitted(acts: seq<Action>, parts: seq<ChatParticipant>, user: UserId)
  {
    forall k :: 0 <= k < |acts| && acts[k].Handle? && acts[k].step.Store? ==>
      IsParticipant(parts, acts[k].step.chatId, user)
  }

  /**
   * One turn of the receive loop of `user` on socket `conn`, as a value: a
   * disconnect or a raising frame ends the loop; a denied frame answers the
   * sender; a stored frame becomes row `nextId`, stamped `now`, and is fanned
   * out over the connection table `active`.
   */
  function Turn(act: Action, parts: seq<ChatParticipant>, user: UserId, conn: ConnId,
                active: map<UserId, ConnId>, nextId: MessageId, outbox: map<ConnId, seq<Frame>>): (t: Trace)
    ensures !t.end.Rejected? && (t.end.Disconnected? <==> act.Leave?)
    ensures t.end.Crashed? <==> act.Handle? && act.step.Raise?
    ensures |t.posted| <= 1 && (t.posted != [] <==> act.Handle? && act.step.Store?)
    ensures forall m :: m in t.posted ==>
              && m.id == nextId && m.senderId == user && m.createdAt == act.now
              && m.chatId == act.step.chatId && m.message == act.step.text
  {
    match act
    case Leave => Trace(Disconnected, [], outbox)
    case Handle(Raise, _) => Trace(Crashed, [], outbox)
    case Handle(Deny, _) => Trace(Waiting, [], Send(outbox, conn, TextFrame(NotParticipantText)))
    case Handle(Store(chatId, text), now) =>
      var m := ChatMessage(nextId, chatId, user, text, now);
      Trace(Waiting, [m], FanOut(outbox, Targets(Recipients(parts, chatId, user), active), PayloadFrame(ToPayload(m))))
  }

  /** `so` followed by the turn `t`. */
  function Then(so: Trace, t: Trace): Trace
  {
    Trace(t.end, so.posted + t.posted, t.outbox)
  }

  /**
   * The receive loop over `acts`, as a value, from the state `so` reached so
   * far (the rows before it were numbered from `firstId`): the turns in
   * receipt order, up to and including the first that ends the loop.
   */
  function Run(acts: seq<Action>, parts: seq<ChatParticipant>, user: UserId, conn: ConnId,
               active: map<UserId, ConnId>, firstId: MessageId, so: Trace): Trace
    decreases |acts|
  {
    if |acts| == 0 || !so.end.Waiting? then so
    else
      var t := Turn(acts[0], parts, user, conn, active, firstId + |so.posted|, so.outbox);
      Run(acts[1..], parts, user, conn, active, firstId, Then(so, t))
  }

  /** A receive loop keeps the rows stored before it and stores at most one row per event. */
  lemma {:induction false} RunGrows(acts: seq<Action>, parts: seq<ChatParticipant>, user: UserId, conn: ConnId,
                                    active: map<UserId, ConnId>, firstId: MessageId, so: Trace)
    ensures var posted := Run(acts, parts, user, conn, active, firstId, so).posted;
            |so.posted| <= |posted| <= |so.posted| + |acts| && posted[..|so.posted|] == so.posted
  {
    if |acts| > 0 && so.end.Waiting? {
      var next := Then(so, Turn(acts[0], parts, user, conn, active, firstId + |so.posted|, so.outbox));
      assert Run(acts, parts, user, conn, active, firstId, so) == Run(acts[1..], parts, user, conn, active, firstId, next);
      RunGrows(acts[1..], parts, user, conn, active, firstId, next);
      var posted := Run(acts[1..], parts, user, conn, active, firstId, next).posted;
      assert posted[..|so.posted|] == next.posted[..|so.posted|] == so.posted;
    } else {
      assert Run(acts, parts, user, conn, active, firstId, so) == so;
    }
  }

  /**
   * The rows a receive loop stores get consecutive ids from `firstId`, in
   * receipt order, each sent by the socket's user to a chat they belong to.
   */
  lemma {:induction false} RunPosted(acts: seq<Action>, parts: seq<ChatParticipant>, user: UserId, conn: ConnId,
                                     active: map<UserId, ConnId>, firstId: MessageId, so: Trace)
    requires Permitted(acts, parts, user)
    ensures var posted := Run(acts, parts, user, conn, active, firstId, so).posted;
            forall k :: |so.posted| <= k < |posted| ==>
              posted[k].id == firstId + k && posted[k].senderId == user && IsParticipant(parts, posted[k].chatId, user)
  {
    if |acts| > 0 && so.end.Waiting? {
      var t := Turn(acts[0], parts, user, conn, active, firstId + |so.posted|, so.outbox);
      var next := Then(so, t);
      assert Permitted(acts[1..], parts, user) by {
        forall k | 0 <= k < |acts| - 1 ensures acts[1..][k] == acts[k + 1] { }
      }
      assert Run(acts, parts, user, conn, active, firstId, so) == Run(acts[1..], parts, user, conn, active, firstId, next);
      RunPosted(acts[1..], parts, user, conn, active, firstId, next);
      RunGrows(acts[1..], parts, user, conn, active, firstId, next);
      var posted := Run(acts[1..], parts, user, conn, active, firstId, next).posted;
      forall k | |so.posted| <= k < |posted|
        ensures posted[k].id == firstId + k && posted[k].senderId == user && IsParticipant(parts, posted[k].chatId, user)
      {
        if k < |next.posted| {
          var m := t.posted[0];
          assert m in t.posted && acts[0].Handle? && acts[0].step.Store?;
          assert posted[k] == next.posted[k] == m;
        }
      }
    } else {
      assert Run(acts, parts, user, conn, active, firstId, so) == so;
    }
  }

  /** Once the loop has ended, later events are never read: they change nothing. */
  lemma {:induction false} RunStopsAtEnd(acts: seq<Action>, more: seq<Action>, parts: seq<ChatParticipant>, user: UserId,
                                         conn: ConnId, active: map<UserId, ConnId>, firstId: MessageId, so: Trace)
    requires !Run(acts, parts, user, conn, active, firstId, so).end.Waiting?
    ensures Run(acts + more, parts, user, conn, active, firstId, so) == Run(acts, parts, user, conn, active, firstId, so)
  {
    if |acts| > 0 && so.end.Waiting? {
      assert (acts + more)[0] == acts[0] && (acts + more)[1..] == acts[1..] + more;
      var t := Turn(acts[0], parts, user, conn, active, firstId + |so.posted|, so.outbox);
      RunStopsAtEnd(acts[1..], more, parts, user, conn, active, firstId, Then(so, t));
    }
  }

  /**
   * A denied frame answers the sender and the loop goes on; a disconnect ends
   * the loop as a disconnect. Neither depends on what the session stored
   * before, and neither stores anything.
   */
  lemma RunDenyOrLeave(now: Timestamp, rest: seq<Action>, parts: seq<ChatParticipant>, user: UserId, conn: ConnId,
                       active: map<UserId, ConnId>, firstId: MessageId, so: Trace)
    requires so.end.Waiting?
    ensures Run([Handle(Deny, now)] + rest, parts, user, conn, active, firstId, so)
            == Run(rest, parts, user, conn, active, firstId, Trace(Waiting, so.posted, Send(so.outbox, conn, TextFrame(NotParticipantText))))
    ensures Run([Leave] + rest, parts, user, conn, active, firstId, so) == Trace(Disconnected, so.posted, so.outbox)
  {
    assert ([Handle(Deny, now)] + rest)[1..] == rest;
    assert Then(so, Trace(Waiting, [], Send(so.outbox, conn, TextFrame(NotParticipantText))))
           == Trace(Waiting, so.posted, Send(so.outbox, conn, TextFrame(NotParticipantText)));
  }

  /**
   * `Turn` as the source runs it. The session expires every row it holds when
   * it commits, the `user` row included; a later read of `user.username` then
   * reloads the row lazily, outside the async context, and raises. Such a read
   * comes before the error reply (the print at app/api/endpoints/chat.py:220-221)
   * and before the registry cleanup (the print at line 256). So once the
   * session has `committed`, a denied frame and a disconnect both end the loop
   * as an escaping exception, with no reply and no cleanup.
   */
  function TurnAsWritten(act: Action, committed: bool, parts: seq<ChatParticipant>, user: UserId, conn: ConnId,
                         active: map<UserId, ConnId>, nextId: MessageId, outbox: map<ConnId, seq<Frame>>): Trace
  {
    if committed && (act.Leave? || act.step.Deny?) then Trace(Crashed, [], outbox)
    else Turn(act, parts, user, conn, active, nextId, outbox)
  }

  /** `Run` as the source runs it: the session has committed once it has stored a row. */
  function RunAsWritten(acts: seq<Action>, parts: seq<ChatParticipant>, user: UserId, conn: ConnId,
                        active: map<UserId, ConnId>, firstId: MessageId, so: Trace): Trace
    decreases |acts|
  {
    if |acts| == 0 || !so.end.Waiting? then so
    else
      var t := TurnAsWritten(acts[0], so.posted != [], parts, user, conn, active, firstId + |so.posted|, so.outbox);
      RunAsWritten(acts[1..], parts, user, conn, active, firstId, Then(so, t))
  }

  /**
   * A fresh session stores a row and then receives a denied frame or a
   * disconnect. As written, the second event crashes the loop: nothing is
   * sent after the broadcast, and the loop does not end as a disconnect, so
   * the registry entry stays. As intended, the sender gets the error text,
   * or the loop ends as a disconnect.
   */
  lemma LostReplyAsWritten(post: Action, next: Action, parts: seq<ChatParticipant>, user: UserId, conn: ConnId,
                           active: map<UserId, ConnId>, firstId: MessageId, outbox: map<ConnId, seq<Frame>>)
    requires post.Handle? && post.step.Store?
    requires next.Leave? || next.step.Deny?
    ensures var so := Trace(Waiting, [], outbox);
            var stored := Turn(post, parts, user, conn, active, firstId, outbox);
            && RunAsWritten([post, next], parts, user, conn, active, firstId, so) == Trace(Crashed, stored.posted, stored.outbox)
            && Run([post, next], parts, user, conn, active, firstId, so)
               == if next.Leave? then Trace(Disconnected, stored.posted, stored.outbox)
                  else Trace(Waiting, stored.posted, Send(stored.outbox, conn, TextFrame(NotParticipantText)))
  {
    var so := Trace(Waiting, [], outbox);
    var stored := Turn(post, parts, user, conn, active, firstId, outbox);
    var after := Then(so, stored);
    assert [post, next][1..] == [next] && [next][1..] == [];
    assert RunAsWritten([post, next], parts, user, conn, active, firstId, so)
           == RunAsWritten([next], parts, user, conn, active, firstId, after);
    assert Run([post, next], parts, user, conn, active, firstId, so)
           == Run([next], parts, user, conn, active, firstId, after);
    assert after.posted == stored.posted != [] && after.end.Waiting?;
    var id := firstId + |after.posted|;
    var lost := TurnAsWritten(next, true, parts, user, conn, active, id, after.outbox);
    assert lost == Trace(Crashed, [], stored.outbox);
    assert RunAsWritten([next], parts, user, conn, active, firstId, after)
           == RunAsWritten([], parts, user, conn, active, firstId, Then(after, lost));
    assert stored.posted + [] == stored.posted;
    var kept := Turn(next, parts, user, conn, active, id, after.outbox);
    assert Run([next], parts, user, conn, active, firstId, after)
           == Run([], parts, user, conn, active, firstId, Then(after, kept));
  }

  class ChatServer {
    /** The `users` table; the chat endpoints only read it. */
    const users: seq<User>
    /** `jwt.decode(token, SECRET_KEY, ...)`: the claims of a valid token, `None` where it raises `JWTError`. */
    const decodeToken: string -> Option<map<string, Json>>
    /** `json.loads`: the document a text holds, `None` where it raises. */
    const parseJson: string -> Option<Json>

    /** The `chat_rooms` table. */
    var rooms: seq<ChatRoom>
    /** The `chat_participants` table: the membership relation. */
    var participants: seq<ChatParticipant>
    /** The `chat_messages` table, in insertion order. */
    var log: seq<ChatMessage>
    /** The ids the database assigns to the next room and the next message. */
    var nextChatId: ChatId
    var nextMessageId: MessageId

    /** `active_connections`: one socket per user id. */
    var activeConnections: map<UserId, ConnId>
    /** The `user_id` each authenticated socket's handler holds. */
    var bound: map<ConnId, UserId>
    /** The sockets whose receive loop is still running. */
    var live: set<ConnId>
    /** Every accepted socket, with the frames written to it so far. */
    var outbox: map<ConnId, seq<Frame>>

    ghost predicate Valid()
      reads this
    {
      && RegistryConsistent(activeConnections, bound)
      && bound.Keys <= outbox.Keys
      && live <= bound.Keys
      && NoDuplicates(participants)
      && (forall p :: p in participants ==> p.chatId < nextChatId)
      && (forall room :: room in rooms ==> room.id < nextChatId)
      && RoomIdsIncreasing(rooms)
      && IdsIncreasing(log)
      && (forall m :: m in log ==> m.id < nextMessageId)
    }

    /** A server with the given users, no rooms, no messages and no sockets. */
    constructor (users: seq<User>, decodeToken: string -> Option<map<string, Json>>, parseJson: string -> Option<Json>)
      ensures Valid()
      ensures this.users == users && this.decodeToken == decodeToken && this.parseJson == parseJson
      ensures rooms == [] && participants == [] && log == [] && nextChatId == 1 && nextMessageId == 1
      ensures activeConnections == map[] && bound == map[] && live == {} && outbox == map[]
    {
      this.users := users;
      this.decodeToken := decodeToken;
      this.parseJson := parseJson;
      rooms, participants, log := [], [], [];
      nextChatId, nextMessageId := 1, 1;
      activeConnections, bound, live, outbox := map[], map[], {}, map[];
    }

    /** The `sub` claim of a token that decodes, when it is a string. */
    function Subject(token: string): (r: Option<string>)
      ensures r.Some? <==> && decodeToken(token).Some?
                           && Get(decodeToken(token).value, "sub").Some? && Get(decodeToken(token).value, "sub").value.JStr?
      ensures r.Some? ==> decodeToken(token).Some? && Get(decodeToken(token).value, "sub") == Some(JStr(r.value))
    {
      match decodeToken(token)
      case None => None
      case Some(claims) =>
        match Get(claims, "sub")
        case Some(JStr(name)) => Some(name)
        case _ => None
    }

    /**
     * `get_current_user_from_token`: the first user named by the token's `sub`;
     * `None` where it raises the 1008 disconnect.
     */
    function UserFromToken(token: string): (r: Option<User>)
      ensures r.None? <==> Subject(token).None? || forall u :: u in users ==> u.username != Subject(token).value
      ensures r.Some? ==> r.value in users && Subject(token) == Some(r.value.username)
    {
      match Subject(token)
      case None => None
      case Some(name) => FindUser(users, name)
    }

    /** The loop's reading of one text. */
    function ReadInbound(data: string): (r: Inbound)
      ensures r.BadFrame? <==> !(parseJson(data).Some? && parseJson(data).value.JObject?)
      ensures r.Inbound? ==>
                var fields := parseJson(data).value.fields;
                r.chatId == Get(fields, "chat_id") && r.message == Get(fields, "message")
    {
      match parseJson(data)
      case Some(JObject(fields)) => Inbound(Get(fields, "chat_id"), Get(fields, "message"))
      case _ => BadFrame
    }

    /**
     * Accept socket `conn`, authenticate its token and register it. A refused
     * handshake leaves the connection table alone; an accepted one replaces
     * whatever socket the user had.
     */
    method Connect(conn: ConnId, token: string) returns (outcome: ConnectOutcome)
      requires Valid() && conn !in outbox
      modifies this`activeConnections, this`bound, this`live, this`outbox
      ensures Valid()
      ensures outbox == old(outbox)[conn := []]
      ensures outcome == match UserFromToken(token)
                         case None => Refused(PolicyViolation)
                         case Some(u) => Accepted(u)
      ensures outcome.Refused? ==> activeConnections == old(activeConnections) && bound == old(bound) && live == old(live)
      ensures outcome.Accepted? ==>
                && activeConnections == old(activeConnections)[outcome.user.id := conn]
                && bound == old(bound)[conn := outcome.user.id]
                && live == old(live) + {conn}
    {
      outbox := outbox[conn := []];
      var user := UserFromToken(token);
      if user.None? {
        return Refused(PolicyViolation);
      }
      var userId := user.value.id;
      bound := bound[conn := userId];
      live := live + {conn};
      activeConnections := activeConnections[userId := conn];
      outcome := Accepted(user.value);
    }

    /**
     * One pass of the receive loop on socket `conn`: authorize, insert, build
     * the payload and send it to every online participant but the sender.
     */
    method HandleFrame(conn: ConnId, data: string, now: Timestamp) returns (outcome: FrameOutcome)
      requires Valid() && conn in live
      modifies this`log, this`nextMessageId, this`outbox, this`live
      ensures Valid()
      ensures var step := Decide(ReadInbound(data), participants, bound[conn]);
              && (step.Raise? ==> outcome == Failed)
              && (step.Deny? ==> outcome == NotParticipant)
              && (step.Store? ==> outcome == Broadcast(ChatMessage(old(nextMessageId), step.chatId, bound[conn], step.text, now)))
      ensures outcome.Failed? ==>
                live == old(live) - {conn} && log == old(log) && outbox == old(outbox) && nextMessageId == old(nextMessageId)
      ensures outcome.NotParticipant? ==>
                && live == old(live) && log == old(log) && nextMessageId == old(nextMessageId)
                && outbox == Send(old(outbox), conn, TextFrame(NotParticipantText))
      ensures outcome.Broadcast? ==>
                var m := outcome.message;
                && m.id == old(nextMessageId) && m.senderId == bound[conn] && m.createdAt == now
                && IsParticipant(participants, m.chatId, m.senderId)
                && live == old(live)
                && log == old(log) + [m]
                && nextMessageId == old(nextMessageId) + 1
                && MessagesOf(log, m.chatId) == MessagesOf(old(log), m.chatId) + [m]
                && outbox == FanOut(old(outbox), Targets(Recipients(participants, m.chatId, m.senderId), activeConnections), PayloadFrame(ToPayload(m)))
    {
      var userId := bound[conn];
      var step := Decide(ReadInbound(data), participants, userId);
      match step {
        case Raise =>
          live := live - {conn};
          return Failed;
        case Deny =>
          outbox := Send(outbox, conn, TextFrame(NotParticipantText));
          return NotParticipant;
        case Store(chatId, text) =>
          var m := ChatMessage(nextMessageId, chatId, userId, text, now);
          MessagesOfAppend(log, m, chatId);
          log := log + [m];
          nextMessageId := nextMessageId + 1;
          SendToOthers(chatId, userId, PayloadFrame(ToPayload(m)));
          outcome := Broadcast(m);
      }
    }

    /**
     * The broadcast loop: `payload` sent on the registered socket of each
     * participant of `chatId` other than `senderId`, skipping those offline.
     */
    method SendToOthers(chatId: ChatId, senderId: UserId, payload: Frame)
      requires Valid()
      modifies this`outbox
      ensures Valid()
      ensures outbox == FanOut(old(outbox), Targets(Recipients(participants, chatId, senderId), activeConnections), payload)
      ensures forall c :: Frames(outbox, c) == Frames(old(outbox), c)
                + if Receives(activeConnections, bound, participants, chatId, senderId, c) then [payload] else []
    {
      var chatUsers := Recipients(participants, chatId, senderId);
      SendToEach(chatUsers, payload);
      forall c ensures Frames(outbox, c) == Frames(old(outbox), c)
             + if Receives(activeConnections, bound, participants, chatId, senderId, c) then [payload] else [] {
        FanOutToOnlineMembers(old(outbox), activeConnections, bound, participants, chatId, senderId, payload, c);
      }
      TargetsBound(chatUsers, activeConnections, bound);
      FanOutKeys(old(outbox), Targets(chatUsers, activeConnections), payload);
    }

    /** The `for` loop of the broadcast: `payload` on the registered socket of each of `us` that is online, in order. */
    method SendToEach(us: seq<UserId>, payload: Frame)
      modifies this`outbox
      ensures outbox == FanOut(old(outbox), Targets(us, activeConnections), payload)
    {
      var i := 0;
      while i < |us|
        invariant 0 <= i <= |us|
        invariant outbox == FanOut(old(outbox), Targets(us[..i], activeConnections), payload)
      {
        var u := us[i];
        ghost var sent := Targets(us[..i], activeConnections);
        assert us[..i + 1][..i] == us[..i];
        if u in activeConnections {
          outbox := Send(outbox, activeConnections[u], payload);
          assert Targets(us[..i + 1], activeConnections) == sent + [activeConnections[u]];
          assert (sent + [activeConnections[u]])[..|sent|] == sent;
        } else {
          assert Targets(us[..i + 1], activeConnections) == sent;
        }
        i := i + 1;
      }
      assert us[..i] == us;
    }

    /** `except WebSocketDisconnect`: delete the entry of the socket's user id, whichever socket it holds. */
    method Disconnect(conn: ConnId)
      requires Valid() && conn in live
      modifies this`activeConnections, this`live
      ensures Valid()
      ensures activeConnections == old(activeConnections) - {bound[conn]}
      ensures live == old(live) - {conn}
    {
      var userId := bound[conn];
      if userId in activeConnections {
        activeConnections := activeConnections - {userId};
      }
      live := live - {conn};
    }

    /** What `event` does in the receive loop of `user`, once its frame is decided. */
    function Act(event: Event, parts: seq<ChatParticipant>, user: UserId): Action
    {
      match event
      case ClientDisconnect => Leave
      case Receive(data, now) => Handle(Decide(ReadInbound(data), parts, user), now)
    }

    /** The actions of a stream of events; none of them stores outside the user's chats. */
    function Acts(events: seq<Event>, parts: seq<ChatParticipant>, user: UserId): (acts: seq<Action>)
      ensures |acts| == |events| && Permitted(acts, parts, user)
    {
      if |events| == 0 then []
      else
        var rest := Acts(events[1..], parts, user);
        assert Permitted([Act(events[0], parts, user)] + rest, parts, user) by {
          forall k | 1 <= k < |rest| + 1 ensures ([Act(events[0], parts, user)] + rest)[k] == rest[k - 1] { }
        }
        [Act(events[0], parts, user)] + rest
    }

    /** The action at position `i` is that of the event at `i`. */
    lemma {:induction false} ActsAt(events: seq<Event>, parts: seq<ChatParticipant>, user: UserId, i: nat)
      requires i < |events|
      ensures Acts(events, parts, user)[i] == Act(events[i], parts, user)
    {
      if i > 0 {
        ActsAt(events[1..], parts, user, i - 1);
      }
    }

    /**
     * `websocket_endpoint` for socket `conn`: the handshake, then the receive
     * loop over `events` until a disconnect, an escaping exception, or the
     * end of the events (the loop then waits for the next frame).
     */
    method Serve(conn: ConnId, token: string, events: seq<Event>) returns (end: SessionEnd, posted: seq<ChatMessage>)
      requires Valid() && conn !in outbox
      modifies this`activeConnections, this`bound, this`live, this`outbox, this`log, this`nextMessageId
      ensures Valid()
      ensures end.Rejected? <==> UserFromToken(token).None?
      ensures log == old(log) + posted && |posted| <= |events| && nextMessageId == old(nextMessageId) + |posted|
      ensures bound == if end.Rejected? then old(bound) else old(bound)[conn := UserFromToken(token).value.id]
      ensures end.Rejected? ==>
                && posted == [] && activeConnections == old(activeConnections) && live == old(live)
                && outbox == old(outbox)[conn := []]
      ensures !end.Rejected? ==>
                var userId := UserFromToken(token).value.id;
                && Trace(end, posted, outbox)
                   == Run(Acts(events, participants, userId), participants, userId, conn, old(activeConnections)[userId := conn],
                          old(nextMessageId), Trace(Waiting, [], old(outbox)[conn := []]))
                && (forall k :: 0 <= k < |posted| ==>
                      && posted[k].id == old(nextMessageId) + k && posted[k].senderId == userId
                      && IsParticipant(participants, posted[k].chatId, userId))
                && (end.Disconnected? ==> activeConnections == old(activeConnections) - {userId} && live == old(live))
                && (end.Crashed? ==> activeConnections == old(activeConnections)[userId := conn] && live == old(live))
                && (end.Waiting? ==> activeConnections == old(activeConnections)[userId := conn] && live == old(live) + {conn})
    {
      var handshake := Connect(conn, token);
      if handshake.Refused? {
        return Rejected, [];
      }
      ghost var userId := handshake.user.id;
      ghost var active, running := activeConnections, live;
      assert bound[conn] == userId && active == old(activeConnections)[userId := conn];
      assert active - {userId} == old(activeConnections) - {userId};
      assert conn !in old(live) && running - {conn} == old(live);
      end, posted := ReceiveLoop(conn, events);
    }

    /**
     * The receive loop of an accepted socket, over `events`, until a
     * disconnect, an escaping exception, or the end of the events.
     */
    method ReceiveLoop(conn: ConnId, events: seq<Event>) returns (end: SessionEnd, posted: seq<ChatMessage>)
      requires Valid() && conn in live
      modifies this`activeConnections, this`live, this`outbox, this`log, this`nextMessageId
      ensures Valid() && !end.Rejected?
      ensures Trace(end, posted, outbox)
              == Run(Acts(events, participants, bound[conn]), participants, bound[conn], conn,
                     old(activeConnections), old(nextMessageId), Trace(Waiting, [], old(outbox)))
      ensures log == old(log) + posted && |posted| <= |events| && nextMessageId == old(nextMessageId) + |posted|
      ensures forall k :: 0 <= k < |posted| ==>
                && posted[k].id == old(nextMessageId) + k && posted[k].senderId == bound[conn]
                && IsParticipant(participants, posted[k].chatId, bound[conn])
      ensures activeConnections == if end.Disconnected? then old(activeConnections) - {bound[conn]} else old(activeConnections)
      ensures live == if end.Waiting? then old(live) else old(live) - {conn}
    {
      end, posted := Waiting, [];
      ghost var acts := Acts(events, participants, bound[conn]);
      var i := 0;
      while i < |events| && end.Waiting?
        invariant 0 <= i <= |events|
        invariant Valid() && !end.Rejected?
        invariant log == old(log) + posted && |posted| <= i && nextMessageId == old(nextMessageId) + |posted|
        invariant activeConnections == if end.Disconnected? then old(activeConnections) - {bound[conn]} else old(activeConnections)
        invariant live == if end.Waiting? then old(live) else old(live) - {conn}
        invariant Run(acts, participants, bound[conn], conn, old(activeConnections), old(nextMessageId), Trace(Waiting, [], old(outbox)))
                  == Run(acts[i..], participants, bound[conn], conn, old(activeConnections), old(nextMessageId), Trace(end, posted, outbox))
      {
        var next;
        end, next := TakeTurn(conn, events, acts, i, old(log), old(nextMessageId), posted);
        posted := posted + next;
        i := i + 1;
      }
      assert acts[i..] == [] || !end.Waiting?;
      RunPosted(acts, participants, bound[conn], conn, old(activeConnections), old(nextMessageId), Trace(Waiting, [], old(outbox)));
    }

    /**
     * One iteration of the receive loop at position `i` of `events`, with
     * `posted` stored so far since the log was `start`: the turn, and what it
     * leaves of the whole run.
     */
    method TakeTurn(conn: ConnId, events: seq<Event>, ghost acts: seq<Action>, i: nat,
                    ghost start: seq<ChatMessage>, ghost firstId: MessageId, posted: seq<ChatMessage>)
      returns (end: SessionEnd, next: seq<ChatMessage>)
      requires Valid() && conn in live && i < |events| == |acts|
      requires acts == Acts(events, participants, bound[conn])
      requires log == start + posted && nextMessageId == firstId + |posted|
      modifies this`activeConnections, this`live, this`outbox, this`log, this`nextMessageId
      ensures Valid() && !end.Rejected?
      ensures log == start + (posted + next) && |next| <= 1 && nextMessageId == firstId + |posted + next|
      ensures end.Disconnected? ==> activeConnections == old(activeConnections) - {bound[conn]} && live == old(live) - {conn}
      ensures !end.Disconnected? ==> activeConnections == old(activeConnections)
      ensures live == if end.Waiting? then old(live) else old(live) - {conn}
      ensures Run(acts[i..], participants, bound[conn], conn, old(activeConnections), firstId, Trace(Waiting, posted, old(outbox)))
              == Run(acts[i + 1..], participants, bound[conn], conn, old(activeConnections), firstId, Trace(end, posted + next, outbox))
    {
      assert acts[i..][0] == acts[i] && acts[i..][1..] == acts[i + 1..];
      ActsAt(events, participants, bound[conn], i);
      ghost var t := Turn(acts[i], participants, bound[conn], conn, activeConnections, nextMessageId, outbox);
      end, next := ServeEvent(conn, events[i]);
      assert end == t.end && next == t.posted && outbox == t.outbox;
      assert log == start + (posted + next) by {
        assert log == (start + posted) + next;
      }
    }

    /**
     * One turn of the receive loop: a disconnect ends it, a frame is handled,
     * and an exception escaping the frame's handling ends it too.
     */
    method ServeEvent(conn: ConnId, event: Event) returns (end: SessionEnd, posted: seq<ChatMessage>)
      requires Valid() && conn in live
      modifies this`activeConnections, this`live, this`outbox, this`log, this`nextMessageId
      ensures Valid()
      ensures Trace(end, posted, outbox)
              == Turn(Act(event, participants, bound[conn]), participants, bound[conn], conn, old(activeConnections), old(nextMessageId), old(outbox))
      ensures log == old(log) + posted && |posted| <= 1 && nextMessageId == old(nextMessageId) + |posted|
      ensures forall m :: m in posted ==> m.senderId == bound[conn] && IsParticipant(participants, m.chatId, bound[conn])
      ensures end.Disconnected? <==> event.ClientDisconnect?
      ensures event.Receive? ==> (end.Crashed? <==> Decide(ReadInbound(event.data), participants, bound[conn]).Raise?)
      ensures end.Disconnected? ==> activeConnections == old(activeConnections) - {bound[conn]} && live == old(live) - {conn}
      ensures end.Crashed? ==> activeConnections == old(activeConnections) && live == old(live) - {conn}
      ensures end.Waiting? ==> activeConnections == old(activeConnections) && live == old(live)
      ensures !end.Rejected?
    {
      posted := [];
      match event {
        case ClientDisconnect =>
          Disconnect(conn);
          end := Disconnected;
        case Receive(data, now) =>
          var outcome := HandleFrame(conn, data, now);
          if outcome.Failed? {
            end := Crashed;
          } else {
            end := Waiting;
            if outcome.Broadcast? {
              posted := [outcome.message];
            }
          }
      }
    }

    /**
     * `get_user_chats`: the rooms the named user belongs to. The
     * "No chats found" branch never fires: `.all()` returns a list.
     */
    function GetUserChats(username: string): (r: Result<seq<ChatResponse>, HttpError>)
      reads this
      ensures r.Failure? <==> forall u :: u in users ==> u.username != username
      ensures r.Failure? ==> r.error == UserNotFound
      ensures r.Success? ==>
                var joined := ChatsOf(rooms, participants, FindUser(users, username).value.id);
                |r.value| == |joined| && forall i :: 0 <= i < |joined| ==> r.value[i] == ToChatResponse(joined[i])
      ensures Valid() && r.Success? ==> forall i, j :: 0 <= i < j < |r.value| ==> r.value[i].id < r.value[j].id
    {
      match FindUser(users, username)
      case None => Failure(UserNotFound)
      case Some(user) =>
        var joined := ChatsOf(rooms, participants, user.id);
        var listed := seq(|joined|, i requires 0 <= i < |joined| => ToChatResponse(joined[i]));
        assert Valid() ==> forall i, j :: 0 <= i < j < |listed| ==> listed[i].id < listed[j].id by {
          if Valid() {
            ChatsOfIncreasing(rooms, participants, user.id);
          }
        }
        Success(listed)
    }

    /**
     * `get_chat_messages`: every message of the chat, in log order, for any
     * existing user; the participant test there never rejects, so membership
     * plays no part.
     */
    function GetChatMessages(chatId: ChatId, username: string): (r: Result<seq<MessageResponse>, HttpError>)
      reads this
      ensures r.Success? <==> (exists room :: room in rooms && room.id == chatId) && (exists u :: u in users && u.username == username)
      ensures (forall room :: room in rooms ==> room.id != chatId) ==> r == Failure(ChatNotFound)
      ensures (exists room :: room in rooms && room.id == chatId) && r.Failure? ==> r == Failure(UserNotFound)
      ensures r.Success? ==>
                var found := MessagesOf(log, chatId);
                |r.value| == |found| && forall i :: 0 <= i < |found| ==> r.value[i] == ToListedMessage(found[i])
    {
      if FindRoom(rooms, chatId).None? then Failure(ChatNotFound)
      else if FindUser(users, username).None? then Failure(UserNotFound)
      else
        var found := MessagesOf(log, chatId);
        Success(seq(|found|, i requires 0 <= i < |found| => ToListedMessage(found[i])))
    }

    /**
     * `create_chat`: insert and commit the room, then look up the user and add
     * them as its first participant. An unknown user fails after the commit,
     * so the room stays, with no participant.
     */
    method CreateChat(name: Option<string>, isGroup: bool, username: string, now: Timestamp)
      returns (r: Result<ChatResponse, HttpError>)
      requires Valid()
      modifies this`rooms, this`participants, this`nextChatId
      ensures Valid()
      ensures nextChatId == old(nextChatId) + 1
      ensures rooms == old(rooms) + [ChatRoom(old(nextChatId), name, isGroup, now)]
      ensures FindUser(users, username).None? ==> r == Failure(UserNotFound) && participants == old(participants)
      ensures FindUser(users, username).Some? ==>
                && r == Success(ChatResponse(old(nextChatId), name, isGroup, now))
                && participants == old(participants) + [ChatParticipant(old(nextChatId), FindUser(users, username).value.id)]
    {
      var room := ChatRoom(nextChatId, name, isGroup, now);
      rooms := rooms + [room];
      nextChatId := nextChatId + 1;
      var user := FindUser(users, username);
      if user.None? {
        return Failure(UserNotFound);
      }
      var row := ChatParticipant(room.id, user.value.id);
      assert row !in participants;
      participants := participants + [row];
      r := Success(ToChatResponse(room));
    }

    /**
     * `add_participant`: fails for an unknown user, an unknown chat or an
     * existing membership, in that order; otherwise adds exactly one row.
     */
    method AddParticipant(chatId: ChatId, username: string) returns (r: Result<ChatParticipant, HttpError>)
      requires Valid()
      modifies this`participants
      ensures Valid()
      ensures FindUser(users, username).None? ==> r == Failure(UserNotFound)
      ensures FindUser(users, username).Some? && FindRoom(rooms, chatId).None? ==> r == Failure(ChatNotFound)
      ensures (&& FindUser(users, username).Some? && FindRoom(rooms, chatId).Some?
               && IsParticipant(old(participants), chatId, FindUser(users, username).value.id))
              ==> r == Failure(AlreadyParticipant)
      ensures r.Failure? ==> participants == old(participants)
      ensures r.Success? <==>
                && FindUser(users, username).Some? && FindRoom(rooms, chatId).Some?
                && !IsParticipant(old(participants), chatId, FindUser(users, username).value.id)
      ensures r.Success? ==>
                && r.value == ChatParticipant(chatId, FindUser(users, username).value.id)
                && !IsParticipant(old(participants), chatId, r.value.userId)
                && participants == old(participants) + [r.value]
    {
      var user := FindUser(users, username);
      if user.None? {
        return Failure(UserNotFound);
      }
      if FindRoom(rooms, chatId).None? {
        return Failure(ChatNotFound);
      }
      var row := ChatParticipant(chatId, user.value.id);
      if IsParticipant(participants, chatId, user.value.id) {
        return Failure(AlreadyParticipant);
      }
      participants := participants + [row];
      r := Success(row);
    }
  }
}
