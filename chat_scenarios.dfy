/**
 * Runs of the WebSocket endpoint of app/api/endpoints/chat.py: a user who
 * opens two sockets, and a broadcast in a two-member chat.
 */
module ChatScenarios {
  import opened ChatModels
  import opened ChatQueries
  import opened ChatEndpoints

  /**
   * A second socket for the same user replaces the first in the table; when
   * the first socket then disconnects, the entry is deleted by user id, so
   * the user has no registered socket although the second is still open.
   */
  method StaleDisconnect(server: ChatServer, token: string, first: ConnId, second: ConnId)
    returns (secondOpen: bool, registered: bool)
    requires server.Valid() && server.UserFromToken(token).Some?
    requires first != second && first !in server.outbox && second !in server.outbox
    modifies server`activeConnections, server`bound, server`live, server`outbox
    ensures secondOpen && !registered
  {
    var userId := server.UserFromToken(token).value.id;
    var a := server.Connect(first, token);
    var b := server.Connect(second, token);
    assert server.activeConnections[userId] == second && server.bound[first] == userId;
    server.Disconnect(first);
    secondOpen := second in server.live;
    registered := userId in server.activeConnections;
  }

  /**
   * Chat 1 with members 1 and 2, both online on sockets 10 and 20: a frame
   * user 1 posts reaches socket 20 once and is not echoed to socket 10.
   */
  lemma TwoMemberBroadcast(parts: seq<ChatParticipant>, active: map<UserId, ConnId>, outbox: map<ConnId, seq<Frame>>, f: Frame)
    requires parts == [ChatParticipant(1, 1), ChatParticipant(1, 2)]
    requires active == map[1 := 10, 2 := 20] && outbox == map[10 := [], 20 := []]
    ensures FanOut(outbox, Targets(Recipients(parts, 1, 1), active), f) == map[10 := [], 20 := [f]]
  {
    RecipientsInChatOne(parts);
    assert Targets([2], active) == [20] by {
      assert [2][..0] == [];
    }
    FanOutToTwenty(outbox, f);
  }

  /** Only member 2 is a recipient of user 1's frame in chat 1. */
  lemma RecipientsInChatOne(parts: seq<ChatParticipant>)
    requires parts == [ChatParticipant(1, 1), ChatParticipant(1, 2)]
    ensures Recipients(parts, 1, 1) == [2]
  {
    var tail := parts[1..];
    assert tail == [ChatParticipant(1, 2)] && tail[1..] == [];
    assert Recipients(tail, 1, 1) == [2] + Recipients(tail[1..], 1, 1) == [2];
  }

  /** One frame fanned out to socket 20 lands there and nowhere else. */
  lemma FanOutToTwenty(outbox: map<ConnId, seq<Frame>>, f: Frame)
    requires outbox == map[10 := [], 20 := []]
    ensures FanOut(outbox, [20], f) == map[10 := [], 20 := [f]]
  {
    assert [20][..0] == [];
    assert Frames(outbox, 20) + [f] == [f];
    assert Send(outbox, 20, f) == outbox[20 := [f]];
  }
}
