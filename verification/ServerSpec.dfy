/**
 The server as a state machine. One callback, or one full iteration of the auth worker, is one step.
 Session records carry a few fields the program does not have (`life` to `chatRefused`); no step's effect
 on the program's own fields or on what is sent depends on them.
 */
module ServerSpec {
  import opened Bytes
  import opened Wire
  import opened Phases
  import UsersFile
  import Registry

  /** Who still refers to the allocation of a session. */
  datatype Life = Connected | ClosedQueued | Freed

  datatype Session = Session(
    phase: Phase,
    id: u32,
    name: seq<byte>,
    authStream: Option<nat>,
    queued: bool,
    closed: bool,
    authName: seq<byte>,
    authHash: seq<byte>,
    authKey: seq<byte>,
    life: Life,                  // freed sessions keep their last contents, for comparison only
    serial: nat,                 // how many HELLOs had been accepted before this session's
    loginStream: Option<nat>,    // the stream recorded at login
    respLost: bool,              // logged in, but the AUTH_RESP was not put on the stream
    chatRefused: bool)           // some CHAT_SEND was answered USER_NOT_FOUND

  /** A registry entry; `owner` is the session that created it. */
  datatype Entry = Entry(key: seq<byte>, stream: Option<nat>, owner: nat)

  datatype Send = Send(stream: nat, pkt: Packet)

  datatype Server = Server(
    sessions: map<nat, Session>,
    queue: seq<nat>,
    registry: map<seq<byte>, Entry>,
    nextId: u32,
    accepted: seq<nat>,          // sessions in the order their HELLO was accepted
    freed: seq<nat>,             // every call to free, in order
    stopped: bool,
    fault: bool)                 // a freed session was used or freed again, or a linked one enqueued

  datatype Outcome = Outcome(server: Server, sends: seq<Send>)

  const ID_SPACE := 0x1_0000_0000

  function Init(): Server {
    Server(map[], [], map[], 1, [], [], false, false)
  }

  function FreshSession(): Session {
    Session(StHello, 0, [], None, false, false, [], Zeros(HASH_LEN), Zeros(KEY_LEN), Connected, 0, None, false, false)
  }

  /** A send that the transport may refuse. */
  function Try(ok: bool, stream: nat, p: Packet): seq<Send> {
    if ok then [Send(stream, p)] else []
  }

  function Complain(ok: bool, stream: nat, id: u32, code: byte, desc: string): seq<Send> {
    Try(ok, stream, Error(id, code, Text(desc)))
  }

  function Free(s: Server, sid: nat): Server {
    if sid !in s.sessions || s.sessions[sid].life.Freed? then s.(fault := true)
    else s.(sessions := s.sessions[sid := s.sessions[sid].(life := Freed)], freed := s.freed + [sid])
  }

  predicate OffersV1(p: Packet)
    requires p.Hello? && |p.versions| == 8
  {
    exists i :: 0 <= i < p.numVersions && i < 8 && p.versions[i] == 1
  }

  // ---------- callbacks ----------

  function OnConnected(s: Server, sid: nat): Server {
    s.(sessions := s.sessions[sid := FreshSession()])
  }

  function OnHello(s: Server, sid: nat, stream: nat, p: Packet, ok: bool, ok2: bool): Outcome
    requires sid in s.sessions && p.Hello? && |p.versions| == 8
  {
    var ss := s.sessions[sid];
    if ss.phase != StHello then
      Outcome(s, Complain(ok, stream, ss.id, E_UNEXPECTED_MSG, "unexpected HELLO"))
    else if !OffersV1(p) then
      Outcome(s, Complain(ok, stream, ss.id, E_VERSION_MISMATCH, "no supported protocol version")
                 + Try(ok2, stream, Bye(ss.id)))
    else
      var ss' := ss.(id := s.nextId, phase := StAuth, serial := |s.accepted|);
      Outcome(s.(sessions := s.sessions[sid := ss'], nextId := (s.nextId + 1) % ID_SPACE, accepted := s.accepted + [sid]),
              Try(ok, stream, HelloAck(s.nextId, 1)))
  }

  function OnAuthReq(s: Server, sid: nat, stream: nat, p: Packet, ok: bool): Outcome
    requires sid in s.sessions && p.AuthReq?
  {
    var ss := s.sessions[sid];
    if ss.phase != StAuth then
      Outcome(s, Complain(ok, stream, ss.id, E_UNEXPECTED_MSG, "unexpected AUTH_REQ"))
    else
      var ss' := ss.(authName := p.name, authHash := p.hash,
                     authKey := if p.keyLen == 32 then p.key else ss.authKey,
                     authStream := Some(stream), queued := true);
      Outcome(s.(sessions := s.sessions[sid := ss'], queue := s.queue + [sid], fault := s.fault || ss.queued), [])
  }

  function OnKeyReq(s: Server, sid: nat, stream: nat, p: Packet, ok: bool): Outcome
    requires sid in s.sessions && p.KeyReq?
  {
    var ss := s.sessions[sid];
    if ss.phase != StEstablished then
      Outcome(s, Complain(ok, stream, ss.id, E_UNEXPECTED_MSG, "unexpected KEY_REQ"))
    else if p.name !in s.registry then
      Outcome(s, Complain(ok, stream, ss.id, E_USER_NOT_FOUND, "user not found"))
    else
      Outcome(s, Try(ok, stream, KeyResp(p.id, p.name, 32, s.registry[p.name].key)))
  }

  function OnChatSend(s: Server, sid: nat, stream: nat, p: Packet, ok: bool, ok2: bool): Outcome
    requires sid in s.sessions && p.ChatSend?
  {
    var ss := s.sessions[sid];
    if ss.phase != StEstablished then
      Outcome(s, Complain(ok, stream, ss.id, E_UNEXPECTED_MSG, "unexpected CHAT_SEND"))
    else if p.name !in s.registry || s.registry[p.name].stream.None? then
      Outcome(s.(sessions := s.sessions[sid := ss.(chatRefused := ss.chatRefused || ok)]),
              Complain(ok, stream, ss.id, E_USER_NOT_FOUND, "recipient not online"))
    else if ok then
      Outcome(s, [Send(s.registry[p.name].stream.value, Forward(p, ss.name))])
    else
      Outcome(s, Complain(ok2, stream, ss.id, E_COULD_NOT_SEND, "could not deliver message"))
  }

  function OnBye(s: Server, sid: nat): Server
    requires sid in s.sessions
  {
    var ss := s.sessions[sid];
    if ss.phase != StEstablished then s
    else s.(registry := s.registry - {ss.name}, sessions := s.sessions[sid := ss.(phase := StClosing)])
  }

  /** Dispatch; packets only a client handles, and errors, are ignored. */
  function OnRecv(s: Server, sid: nat, stream: nat, p: Packet, ok: bool, ok2: bool): Outcome
    requires sid in s.sessions && WellFormed(p)
  {
    match p
    case Hello(_, _, _) => OnHello(s, sid, stream, p, ok, ok2)
    case AuthReq(_, _, _, _, _) => OnAuthReq(s, sid, stream, p, ok)
    case KeyReq(_, _) => OnKeyReq(s, sid, stream, p, ok)
    case ChatSend(_, _, _, _, _, _) => OnChatSend(s, sid, stream, p, ok, ok2)
    case Bye(_) => Outcome(OnBye(s, sid), [])
    case _ => Outcome(s, [])
  }

  function OnStreamClosed(s: Server, sid: nat): Server
    requires sid in s.sessions
  {
    s.(sessions := s.sessions[sid := s.sessions[sid].(authStream := None)])
  }

  function OnDisconnected(s: Server, sid: nat): Server
    requires sid in s.sessions
  {
    var ss := s.sessions[sid];
    if ss.queued then s.(sessions := s.sessions[sid := ss.(closed := true, life := ClosedQueued)])
    else
      Free(s.(registry := if ss.phase == StEstablished then s.registry - {ss.name} else s.registry), sid)
  }

  // ---------- the auth worker ----------

  /** Credentials match, the name is not logged in, and there is room. */
  predicate Admits(s: Server, ss: Session, users: seq<byte>, junk: seq<byte>)
    requires |junk| == HASH_LEN
  {
    && UsersFile.Verify(users, CString(ss.authName), ss.authHash, junk)
    && ss.authName !in s.registry
    && |s.registry| < Registry.CAPACITY
  }

  /** The AUTH_RESP, on the stream the request came on if that is still open. */
  function Answer(ss: Session, status: byte, ok: bool): seq<Send> {
    if ss.authStream.Some? then Try(ok, ss.authStream.value, AuthResp(ss.id, status)) else []
  }

  function Work(s: Server, users: seq<byte>, junk: seq<byte>, ok: bool): Outcome
    requires s.queue != [] && |junk| == HASH_LEN
  {
    var sid := s.queue[0];
    var s1 := s.(queue := s.queue[1..]);
    if sid !in s.sessions || s.sessions[sid].life.Freed? then Outcome(s1.(fault := true), [])
    else
      var ss := s.sessions[sid].(queued := false);
      if ss.closed then Outcome(Free(s1.(sessions := s.sessions[sid := ss]), sid), [])
      else if Admits(s, ss, users, junk) then
        var ss' := ss.(name := ss.authName, phase := StEstablished,
                       loginStream := ss.authStream, respLost := ss.authStream.None? || !ok);
        Outcome(s1.(sessions := s.sessions[sid := ss'],
                    registry := s.registry[ss.authName := Entry(ss.authKey, ss.authStream, sid)]),
                Answer(ss, AUTH_OK, ok))
      else
        Outcome(s1.(sessions := s.sessions[sid := ss]), Answer(ss, AUTH_INVALID, ok))
  }

  // ---------- steps and runs ----------

  datatype Event =
    | EvConnect(sid: nat)
    | EvRecv(sid: nat, stream: nat, pkt: Packet, ok: bool, ok2: bool)
    | EvStreamClosed(sid: nat)
    | EvDisconnect(sid: nat)
    | EvWork(users: seq<byte>, junk: seq<byte>, ok: bool)
    | EvStop

  predicate Live(s: Server, sid: nat) {
    sid in s.sessions && s.sessions[sid].life == Connected
  }

  /**
   What the transport and the peer promise: callbacks come only for live connections, with one complete
   packet, and no AUTH_REQ comes while one of the same session is waiting.
   */
  predicate Enabled(s: Server, e: Event) {
    match e
    case EvConnect(sid) => sid !in s.sessions
    case EvRecv(sid, _, p, _, _) => Live(s, sid) && WellFormed(p) && (p.AuthReq? ==> !s.sessions[sid].queued)
    case EvStreamClosed(sid) => Live(s, sid)
    case EvDisconnect(sid) => Live(s, sid)
    case EvWork(_, junk, _) => !s.stopped && s.queue != [] && |junk| == HASH_LEN
    case EvStop => true
  }

  function Next(s: Server, e: Event): Outcome
    requires Enabled(s, e)
  {
    match e
    case EvConnect(sid) => Outcome(OnConnected(s, sid), [])
    case EvRecv(sid, stream, p, ok, ok2) => OnRecv(s, sid, stream, p, ok, ok2)
    case EvStreamClosed(sid) => Outcome(OnStreamClosed(s, sid), [])
    case EvDisconnect(sid) => Outcome(OnDisconnected(s, sid), [])
    case EvWork(users, junk, ok) => Work(s, users, junk, ok)
    case EvStop => Outcome(s.(stopped := true), [])
  }

  ghost predicate Run(states: seq<Server>, events: seq<Event>) {
    && |states| == |events| + 1
    && states[0] == Init()
    && forall i | 0 <= i < |events| :: Enabled(states[i], events[i]) && states[i + 1] == Next(states[i], events[i]).server
  }
}
