/**
 One server, any number of clients, and one FIFO channel per direction of each client's stream. A client,
 its connection and its stream share one number. Every send may fail. The log, the tags on packets in
 flight and the records kept with each client are only there to say where things came from: no handler
 reads them.
 */
module SystemSpec {
  import opened Bytes
  import opened Wire
  import opened Phases
  import opened UsersFile
  import S = ServerSpec
  import C = ClientSpec
  import Crypto

  /** A packet on its way; the tag is a message number for chats and a reply number for KEY_RESP. */
  datatype Flight = Flight(pkt: Packet, tag: nat)

  /** A message as send_chat sent it: `reply` is the key reply it used, `asked` the replies before it asked. */
  datatype Message = Message(sender: nat, senderName: seq<byte>, recipient: seq<byte>, text: seq<byte>,
                             key: seq<byte>, eph: seq<byte>, nonce: seq<byte>, reply: Option<nat>, asked: nat,
                             pkt: Packet)

  /** A KEY_RESP as the server gave it: the key listed under `name` at that moment, by the login `login`. */
  datatype Reply = Reply(asker: nat, name: seq<byte>, key: seq<byte>, login: nat)

  datatype Shown = Shown(tag: nat, what: C.Display)

  datatype Peer = Peer(cl: C.Client, up: seq<Flight>, down: seq<Flight>,
                       keyReply: Option<nat>, asked: nat, shown: seq<Shown>)

  datatype System = System(server: S.Server, users: seq<byte>, peers: map<nat, Peer>,
                           history: seq<Message>, replies: seq<Reply>)

  function Init(users: seq<byte>): System {
    System(S.Init(), users, map[], [], [])
  }

  datatype Event =
    | Open(c: nat, ok: bool)                                // connect, open the stream, send HELLO
    | Arrive(c: nat, ok: bool, ok2: bool)                   // the server takes a packet of c
    | Work(junk: seq<byte>, ok: bool)                       // one iteration of the auth worker
    | CloseStream(c: nat)
    | Drop(c: nat)                                          // the server sees c's connection end
    | Stop(lost: set<nat>)                                  // shutdown: BYE to everyone registered
    | AddAccount(u: User)                                   // sqmp-add-user
    | Take(c: nat, ok: bool)                                // the client takes a packet
    | Login(c: nat, name: seq<byte>, hash: seq<byte>, priv: seq<byte>, ok: bool)
    | EnterChat(c: nat)
    | Ask(c: nat, recipient: seq<byte>, text: seq<byte>, ok: bool)
    | GiveUp(c: nat)
    | Tell(c: nat, eph: seq<byte>, nonce: seq<byte>, sealed: bool, ok: bool)
    | Quit(c: nat, ok: bool)

  predicate CanTake(p: Peer) {
    p.down != [] && !p.cl.pc.Done? && WellFormed(p.down[0].pkt)
  }

  predicate Enabled(k: Crypto.Suite, y: System, e: Event) {
    match e
    case Open(c, _) => c !in y.peers && c !in y.server.sessions
    case Arrive(c, _, _) => c in y.peers && S.Live(y.server, c) && y.peers[c].up != [] && WellFormed(y.peers[c].up[0].pkt)
    case Work(junk, _) => !y.server.stopped && y.server.queue != [] && |junk| == HASH_LEN
    case CloseStream(c) => S.Live(y.server, c)
    case Drop(c) => S.Live(y.server, c)
    case Stop(_) => true
    case AddAccount(u) => 0 !in u.name && |u.hash| == HASH_LEN
    case Take(c, _) => c in y.peers && CanTake(y.peers[c])
    case Login(c, name, hash, _, _) => c in y.peers && C.CanLogin(y.peers[c].cl, name, hash)
    case EnterChat(c) => c in y.peers && y.peers[c].cl.pc.WaitAuth? && y.peers[c].cl.authDone > 0
    case Ask(c, recipient, text, _) =>
      c in y.peers && y.peers[c].cl.pc.Idle? && 1 <= |recipient| <= USERNAME_MAX && 1 <= |text| <= C.TEXT_MAX
    case GiveUp(c) => c in y.peers && y.peers[c].cl.pc.Fetching?
    case Tell(c, eph, nonce, _, _) =>
      && c in y.peers && y.peers[c].cl.pc.Fetching? && y.peers[c].cl.keySem > 0
      && |nonce| == NONCE_LEN && |k.pub(eph)| == KEY_LEN
    case Quit(c, _) => c in y.peers && !y.peers[c].cl.pc.Fetching? && !y.peers[c].cl.pc.Done?
  }

  // ---------- channels ----------

  function Push(fs: seq<Flight>, ok: bool, p: Packet, tag: nat): seq<Flight> {
    if ok then fs + [Flight(p, tag)] else fs
  }

  function PostOne(peers: map<nat, Peer>, x: S.Send, tag: nat): (r: map<nat, Peer>)
    ensures r.Keys == peers.Keys
  {
    if x.stream in peers then
      peers[x.stream := peers[x.stream].(down := peers[x.stream].down + [Flight(x.pkt, tag)])]
    else peers
  }

  function Post(peers: map<nat, Peer>, sends: seq<S.Send>, tag: nat): (r: map<nat, Peer>)
    ensures r.Keys == peers.Keys
  {
    if sends == [] then peers else Post(PostOne(peers, sends[0], tag), sends[1..], tag)
  }

  // ---------- steps of the server ----------

  function OpenStep(y: System, c: nat, ok: bool): System {
    y.(server := S.OnConnected(y.server, c),
       peers := y.peers[c := Peer(C.Init(), Push([], ok, C.HelloPacket(), 0), [], None, 0, [])])
  }

  /** The reply record for a KEY_REQ that is answered with a key. */
  function Logged(y: System, c: nat, p: Packet, sends: seq<S.Send>): seq<Reply> {
    if p.KeyReq? && p.name in y.server.registry && |sends| == 1 && sends[0].pkt.KeyResp? then
      var e := y.server.registry[p.name];
      y.replies + [Reply(c, p.name, e.key, e.owner)]
    else y.replies
  }

  function ArriveStep(y: System, c: nat, ok: bool, ok2: bool): System
    requires c in y.peers && c in y.server.sessions && y.peers[c].up != [] && WellFormed(y.peers[c].up[0].pkt)
  {
    var p := y.peers[c];
    var f := p.up[0];
    var o := S.OnRecv(y.server, c, c, f.pkt, ok, ok2);
    var tag := if f.pkt.KeyReq? then |y.replies| else f.tag;
    y.(server := o.server,
       peers := Post(y.peers[c := p.(up := p.up[1..])], o.sends, tag),
       replies := Logged(y, c, f.pkt, o.sends))
  }

  function WorkStep(y: System, junk: seq<byte>, ok: bool): System
    requires y.server.queue != [] && |junk| == HASH_LEN
  {
    var o := S.Work(y.server, y.users, junk, ok);
    y.(server := o.server, peers := Post(y.peers, o.sends, 0))
  }

  /** Is there a registry entry whose stream is c's? */
  ghost predicate OnAir(s: S.Server, c: nat) {
    exists n :: n in s.registry && s.registry[n].stream == Some(c)
  }

  ghost function StopStep(y: System, lost: set<nat>): System {
    y.(server := y.server.(stopped := true),
       peers := map c | c in y.peers ::
         y.peers[c].(down := Push(y.peers[c].down, OnAir(y.server, c) && c !in lost, Bye(0), 0)))
  }

  function AddAccountStep(y: System, u: User): System {
    match AddUser(y.users, u.name, u.hash)
    case None => y
    case Some(file) => y.(users := file)
  }

  // ---------- steps of a client ----------

  function TakePeer(k: Crypto.Suite, p: Peer, ok: bool): Peer
    requires CanTake(p)
  {
    var f := p.down[0];
    var r := C.OnRecv(k, p.cl, f.pkt, ok);
    p.(cl := r.client,
       down := p.down[1..],
       up := if r.sends == [] then p.up else p.up + [Flight(r.sends[0], 0)],
       keyReply := if f.pkt.KeyResp? then Some(f.tag)
                   else if f.pkt.Error? && f.pkt.code == E_USER_NOT_FOUND then None
                   else p.keyReply,
       shown := if f.pkt.ChatDeliver? then p.shown + [Shown(f.tag, r.display)] else p.shown)
  }

  function LoginPeer(k: Crypto.Suite, p: Peer, name: seq<byte>, hash: seq<byte>, priv: seq<byte>, ok: bool): Peer {
    p.(cl := C.Login(k, p.cl, name, priv), up := Push(p.up, ok, C.LoginPacket(k, p.cl, name, hash, priv), 0))
  }

  function AskPeer(p: Peer, recipient: seq<byte>, text: seq<byte>, ok: bool, asked: nat): Peer {
    p.(cl := C.Ask(p.cl, recipient, text), up := Push(p.up, ok, KeyReq(p.cl.id, recipient), 0), asked := asked)
  }

  function TellStep(k: Crypto.Suite, y: System, c: nat, eph: seq<byte>, nonce: seq<byte>, sealed: bool, ok: bool): System
    requires c in y.peers && y.peers[c].cl.pc.Fetching? && y.peers[c].cl.keySem > 0 && |k.pub(eph)| == KEY_LEN
  {
    var p := y.peers[c];
    var pkt := C.ChatPacket(k, p.cl, eph, nonce);
    if sealed && ok && pkt.Some? then
      var m := Message(c, p.cl.name, p.cl.pc.recipient, p.cl.pc.text, p.cl.keyResult, eph, nonce,
                       p.keyReply, p.asked, pkt.value);
      y.(peers := y.peers[c := p.(cl := C.Resume(p.cl), up := p.up + [Flight(pkt.value, |y.history|)])],
         history := y.history + [m])
    else
      y.(peers := y.peers[c := p.(cl := C.Resume(p.cl))])
  }

  ghost function Step(k: Crypto.Suite, y: System, e: Event): System
    requires Enabled(k, y, e)
  {
    match e
    case Open(c, ok) => OpenStep(y, c, ok)
    case Arrive(c, ok, ok2) => ArriveStep(y, c, ok, ok2)
    case Work(junk, ok) => WorkStep(y, junk, ok)
    case CloseStream(c) => y.(server := S.OnStreamClosed(y.server, c))
    case Drop(c) => y.(server := S.OnDisconnected(y.server, c))
    case Stop(lost) => StopStep(y, lost)
    case AddAccount(u) => AddAccountStep(y, u)
    case Take(c, ok) => y.(peers := y.peers[c := TakePeer(k, y.peers[c], ok)])
    case Login(c, name, hash, priv, ok) => y.(peers := y.peers[c := LoginPeer(k, y.peers[c], name, hash, priv, ok)])
    case EnterChat(c) => y.(peers := y.peers[c := y.peers[c].(cl := C.EnterChat(y.peers[c].cl))])
    case Ask(c, recipient, text, ok) =>
      y.(peers := y.peers[c := AskPeer(y.peers[c], recipient, text, ok, |y.replies|)])
    case GiveUp(c) => y.(peers := y.peers[c := y.peers[c].(cl := C.GiveUp(y.peers[c].cl))])
    case Tell(c, eph, nonce, sealed, ok) => TellStep(k, y, c, eph, nonce, sealed, ok)
    case Quit(c, ok) =>
      var p := y.peers[c];
      y.(peers := y.peers[c := p.(cl := p.cl.(pc := C.Done), up := Push(p.up, ok, Bye(p.cl.id), 0))])
  }

  ghost predicate Run(k: Crypto.Suite, states: seq<System>, events: seq<Event>) {
    && |states| == |events| + 1
    && Terminated(states[0].users) && states[0] == Init(states[0].users)
    && forall i | 0 <= i < |events| :: Enabled(k, states[i], events[i]) && states[i + 1] == Step(k, states[i], events[i])
  }
}
