/** Message ids, the requests the dispatcher knows, and the replies the services send. */
module Protocol {
  import opened MessageCodec

  const LOGIN_REQ: U16 := 1001
  const LOGIN_RESP: U16 := 1002
  const MATCH_REQ: U16 := 2001
  const MATCH_RESP: U16 := 2002
  const ROOM_CREATED_NOTIFY: U16 := 3001
  const CHAT_REQ: U16 := 4001
  const CHAT_NOTIFY: U16 := 4002
  const RANKING_REQ: U16 := 5001
  const RANKING_RESP: U16 := 5002
  const HEARTBEAT_REQ: U16 := 9001
  const HEARTBEAT_RESP: U16 := 9002
  const RECONNECT_REQ: U16 := 9101
  const RECONNECT_RESP: U16 := 9102

  datatype Request =
    | LoginReq(username: string)
    | MatchReq(playerId: int)
    | ChatReq(roomId: int, text: string)
    | HeartbeatReq(clientTimeMs: int)
    | ReconnectReq(playerId: int, token: string)
    | RankingReq(topN: int)
    | Unregistered

  datatype RankItem = RankItem(playerId: int, score: int)

  datatype Reply =
    | LoginSuccess(playerId: int, token: string)
    | LoginFailed
    | MatchSuccess
    | MatchFailed(reason: string)
    | RoomCreated(roomId: int, players: seq<int>)
    | ChatNotify(roomId: int, playerId: int, text: string)
    | HeartbeatResp(clientTimeMs: int, serverTimeMs: int)
    | ReconnectSuccess(playerId: int, roomId: int)
    | ReconnectFailed(playerId: int, reason: string)
    | RankingResp(items: seq<RankItem>)

  function ReplyId(reply: Reply): U16 {
    match reply
    case LoginSuccess(_, _) => LOGIN_RESP
    case LoginFailed => LOGIN_RESP
    case MatchSuccess => MATCH_RESP
    case MatchFailed(_) => MATCH_RESP
    case RoomCreated(_, _) => ROOM_CREATED_NOTIFY
    case ChatNotify(_, _, _) => CHAT_NOTIFY
    case HeartbeatResp(_, _) => HEARTBEAT_RESP
    case ReconnectSuccess(_, _) => RECONNECT_RESP
    case ReconnectFailed(_, _) => RECONNECT_RESP
    case RankingResp(_) => RANKING_RESP
  }

  /** Protobuf, as a parameter: how each request body parses and how a reply serializes. */
  datatype Proto = Proto(
    loginName: Bytes -> string,
    matchPlayer: Bytes -> int,
    chat: Bytes -> (int, string),
    heartbeatTime: Bytes -> int,
    reconnect: Bytes -> (int, string),
    rankingTop: Bytes -> int,
    serialize: Reply -> Bytes)
  {
    /** The dispatcher's table: the message id selects the handler, the handler parses the body. */
    function Request(message: Message): Request {
      if message.msgId == LOGIN_REQ then LoginReq(loginName(message.body))
      else if message.msgId == MATCH_REQ then MatchReq(matchPlayer(message.body))
      else if message.msgId == CHAT_REQ then
        var (roomId, text) := chat(message.body);
        ChatReq(roomId, text)
      else if message.msgId == HEARTBEAT_REQ then HeartbeatReq(heartbeatTime(message.body))
      else if message.msgId == RECONNECT_REQ then
        var (playerId, token) := reconnect(message.body);
        ReconnectReq(playerId, token)
      else if message.msgId == RANKING_REQ then RankingReq(rankingTop(message.body))
      else Unregistered
    }

    function Encode(reply: Reply): Message {
      Message(ReplyId(reply), serialize(reply))
    }
  }

  /** The dispatcher's table, by number. */
  lemma HandlersByNumber(proto: Proto, m: Message)
    ensures proto.Request(m)
         == if m.msgId == 1001 then LoginReq(proto.loginName(m.body))
            else if m.msgId == 2001 then MatchReq(proto.matchPlayer(m.body))
            else if m.msgId == 4001 then ChatReq(proto.chat(m.body).0, proto.chat(m.body).1)
            else if m.msgId == 5001 then RankingReq(proto.rankingTop(m.body))
            else if m.msgId == 9001 then HeartbeatReq(proto.heartbeatTime(m.body))
            else if m.msgId == 9101 then ReconnectReq(proto.reconnect(m.body).0, proto.reconnect(m.body).1)
            else Unregistered
  {
  }
}
