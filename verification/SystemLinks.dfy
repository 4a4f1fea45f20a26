/**
 What holds between one client, its server session and the two channels between them, and which moves keep
 it. `p` is the client with its channels, `ss` the session.
 */
module SystemLinks {
  import opened Bytes
  import opened Wire
  import opened Phases
  import opened SystemSpec
  import S = ServerSpec
  import C = ClientSpec
  import Crypto

  // ---------- counting packets in flight ----------

  datatype Kind = KAuthReq | KAuthResp | KKeyReq | KKeyResp | KNotFound | KOther

  function KindOf(p: Packet): Kind {
    match p
    case AuthReq(_, _, _, _, _) => KAuthReq
    case AuthResp(_, _) => KAuthResp
    case KeyReq(_, _) => KKeyReq
    case KeyResp(_, _, _, _) => KKeyResp
    case Error(_, code, _) => if code == E_USER_NOT_FOUND then KNotFound else KOther
    case _ => KOther
  }

  function One(b: bool): nat { if b then 1 else 0 }

  function Count(fs: seq<Flight>, kind: Kind): nat {
    if fs == [] then 0 else One(KindOf(fs[0].pkt) == kind) + Count(fs[1..], kind)
  }

  lemma {:induction false} CountPush(fs: seq<Flight>, f: Flight, kind: Kind)
    ensures Count(fs + [f], kind) == Count(fs, kind) + One(KindOf(f.pkt) == kind)
  {
    if fs == [] {
      assert [f][1..] == [];
    } else {
      CountPush(fs[1..], f, kind);
      assert (fs + [f])[1..] == fs[1..] + [f];
    }
  }

  lemma {:induction false} CountHas(fs: seq<Flight>, f: Flight)
    requires f in fs
    ensures Count(fs, KindOf(f.pkt)) >= 1
  {
    if fs[0] != f {
      CountHas(fs[1..], f);
    }
  }

  // ---------- the link invariant ----------

  /** The client never gets ahead of its session, and once past HELLO both hold the same ID. */
  ghost predicate PhaseLink(p: Peer, ss: S.Session) {
    && p.cl.phase.Rank() <= ss.phase.Rank() && p.cl.phase != StClosing
    && (p.cl.phase != StHello ==> p.cl.id == ss.id)
    && (forall f | f in p.down && f.pkt.HelloAck? :: ss.phase != StHello && f.pkt.id == ss.id)
  }

  /** Requests sent, queued or answered but not yet seen by the client. */
  function Outstanding(p: Peer, ss: S.Session): nat {
    Count(p.up, KAuthReq) + One(ss.queued) + Count(p.down, KAuthResp)
  }

  /** One login per client: at most one request or answer is under way. */
  ghost predicate AuthLink(p: Peer, ss: S.Session) {
    var n := Outstanding(p, ss);
    && n <= 1 && (n == 1 ==> p.cl.phase == StAuth)
    && (p.cl.pc.WaitLogin? ==> n == 0 && p.cl.authDone == 0 && p.cl.phase.Rank() <= 2 && ss.phase.Rank() <= 2)
    && (p.cl.loginReady > 0 ==> p.cl.phase != StHello)
    && (ss.phase.Rank() >= 3 ==> Count(p.up, KAuthReq) == 0 && !ss.queued)
  }

  predicate IsOk(f: Flight) {
    f.pkt.AuthResp? && f.pkt.status == AUTH_OK
  }

  ghost predicate HasOk(fs: seq<Flight>, i: int) {
    exists j :: 0 <= j < i && j < |fs| && IsOk(fs[j])
  }

  /** A successful AUTH_RESP goes before every CHAT_DELIVER, unless it was never put on the stream. */
  ghost predicate RespLink(p: Peer, ss: S.Session) {
    && (ss.respLost ==> ss.phase.Rank() >= 3 && p.cl.phase != StEstablished && Count(p.down, KAuthResp) == 0)
    && (forall f | f in p.down && IsOk(f) :: ss.phase.Rank() >= 3)
    && (ss.phase.Rank() >= 3 && !ss.respLost ==> p.cl.phase == StEstablished || HasOk(p.down, |p.down|))
    && (forall i | 0 <= i < |p.down| && p.down[i].pkt.ChatDeliver? ::
          ss.phase.Rank() >= 3 && (ss.respLost || p.cl.phase == StEstablished || HasOk(p.down, i)))
  }

  /** Whatever the server knows or will know as this login's key is the public half of the client's private key. */
  ghost predicate KeyLink(k: Crypto.Suite, p: Peer, ss: S.Session) {
    && (forall f | f in p.up && f.pkt.AuthReq? ::
          f.pkt.keyLen == 32 && f.pkt.key == k.pub(p.cl.priv) && f.pkt.name == p.cl.name)
    && (ss.queued || ss.phase.Rank() >= 3 ==> ss.authKey == k.pub(p.cl.priv) && ss.authName == p.cl.name)
    && (ss.phase.Rank() >= 3 ==> ss.name == p.cl.name)
  }

  /** Chats in flight are logged messages, unchanged on the way up and only rewritten on the way down. */
  ghost predicate ChatLink(c: nat, p: Peer, history: seq<Message>) {
    && (forall f | f in p.up && f.pkt.ChatSend? ::
          f.tag < |history| && history[f.tag].sender == c && history[f.tag].pkt == f.pkt)
    && (forall f | f in p.down && f.pkt.ChatDeliver? ::
          && f.tag < |history| && history[f.tag].pkt.ChatSend? && history[f.tag].pkt.name == p.cl.name
          && f.pkt == Forward(history[f.tag].pkt, history[f.tag].senderName))
  }

  /** Key requests and answers that the key semaphore has not yet accounted for, and its value. */
  function Owed(p: Peer): nat {
    Count(p.up, KKeyReq) + Count(p.down, KKeyResp) + Count(p.down, KNotFound) + p.cl.keySem
  }

  ghost predicate ReplyFits(p: Peer, replies: seq<Reply>, r: nat) {
    p.cl.pc.Fetching? && r < |replies| && replies[r].name == p.cl.pc.recipient && p.asked <= r
  }

  /** While nothing went wrong: no answer is owed at the prompt, and one for the named recipient in send_chat. */
  ghost predicate CleanFetch(p: Peer, replies: seq<Reply>) {
    && Owed(p) <= One(p.cl.pc.Fetching?)
    && (forall f | f in p.up && f.pkt.KeyReq? :: p.cl.pc.Fetching? && f.pkt.name == p.cl.pc.recipient)
    && (forall f | f in p.down && f.pkt.KeyResp? :: ReplyFits(p, replies, f.tag))
    && (p.cl.keySem > 0 && p.keyReply.Some? ==> ReplyFits(p, replies, p.keyReply.value))
  }

  ghost predicate FetchLink(c: nat, p: Peer, ss: S.Session, replies: seq<Reply>) {
    && p.asked <= |replies|
    && (forall f | f in p.down && f.pkt.KeyResp? ::
          && f.tag < |replies| && f.pkt.keyLen == 32
          && replies[f.tag].asker == c && replies[f.tag].name == f.pkt.name && replies[f.tag].key == f.pkt.key)
    && (p.keyReply.None? ==> p.cl.keyResult == Zeros(KEY_LEN))
    && (p.keyReply.Some? ==>
          var r := p.keyReply.value; r < |replies| && replies[r].asker == c && p.cl.keyResult == replies[r].key)
    && (!p.cl.waitFailed && !ss.chatRefused ==> CleanFetch(p, replies))
  }

  /** Every packet in flight is one the codec carries unchanged. */
  ghost predicate WfLink(c: nat, p: Peer, ss: S.Session) {
    && (forall f | f in p.up :: WellFormed(f.pkt))
    && (forall f | f in p.down :: WellFormed(f.pkt))
    && |ss.name| <= USERNAME_MAX && |ss.authName| <= USERNAME_MAX && |ss.authKey| == KEY_LEN
    && |p.cl.name| <= USERNAME_MAX && 0 !in p.cl.name
    && (forall f | f in p.up && f.pkt.AuthReq? :: f.pkt.name != []) && (ss.queued || ss.phase.Rank() >= 3 ==> ss.authName != [])
    && (p.cl.pc.Fetching? ==> |p.cl.pc.recipient| <= USERNAME_MAX && |p.cl.pc.text| <= C.TEXT_MAX)
    && (ss.authStream.Some? ==> ss.authStream.value == c) && (ss.loginStream.Some? ==> ss.loginStream.value == c)
  }

  ghost predicate Link(k: Crypto.Suite, c: nat, p: Peer, ss: S.Session, history: seq<Message>, replies: seq<Reply>) {
    && PhaseLink(p, ss) && AuthLink(p, ss) && RespLink(p, ss) && KeyLink(k, p, ss)
    && ChatLink(c, p, history) && FetchLink(c, p, ss, replies) && WfLink(c, p, ss)
  }

  // ---------- the logs only grow ----------

  lemma LinkExtends(k: Crypto.Suite, c: nat, p: Peer, ss: S.Session,
                    history: seq<Message>, replies: seq<Reply>, history': seq<Message>, replies': seq<Reply>)
    requires Link(k, c, p, ss, history, replies)
    requires history <= history' && replies <= replies'
    ensures Link(k, c, p, ss, history', replies')
  {
    assert ChatLink(c, p, history');
    assert FetchLink(c, p, ss, replies');
  }

  // ---------- moves every part survives ----------

  lemma PopUp(k: Crypto.Suite, c: nat, p: Peer, ss: S.Session, history: seq<Message>, replies: seq<Reply>)
    requires Link(k, c, p, ss, history, replies) && p.up != []
    ensures Link(k, c, p.(up := p.up[1..]), ss, history, replies)
  {
    var p' := p.(up := p.up[1..]);
    assert forall f | f in p'.up :: f in p.up;
    assert RespLink(p', ss) && PhaseLink(p', ss);
    assert AuthLink(p', ss);
    assert KeyLink(k, p', ss);
    assert ChatLink(c, p', history);
    assert FetchLink(c, p', ss, replies);
  }

  predicate Plain(p: Packet) {
    (p.Error? && p.code != E_USER_NOT_FOUND) || p.Bye?
  }

  lemma DownCounts(p: Peer, f: Flight)
    ensures var p' := p.(down := p.down + [f]);
            && Count(p'.down, KAuthResp) == Count(p.down, KAuthResp) + One(f.pkt.AuthResp?)
            && Count(p'.down, KKeyResp) == Count(p.down, KKeyResp) + One(f.pkt.KeyResp?)
            && Count(p'.down, KNotFound) == Count(p.down, KNotFound) + One(KindOf(f.pkt) == KNotFound)
  {
    CountPush(p.down, f, KAuthResp);
    CountPush(p.down, f, KKeyResp);
    CountPush(p.down, f, KNotFound);
  }

  lemma UpCounts(p: Peer, f: Flight)
    ensures var p' := p.(up := p.up + [f]);
            && Count(p'.up, KAuthReq) == Count(p.up, KAuthReq) + One(f.pkt.AuthReq?)
            && Count(p'.up, KKeyReq) == Count(p.up, KKeyReq) + One(f.pkt.KeyReq?)
  {
    CountPush(p.up, f, KAuthReq);
    CountPush(p.up, f, KKeyReq);
  }

  /** What the down channel's new last packet must not disturb. */
  lemma RespPush(p: Peer, ss: S.Session, f: Flight)
    requires RespLink(p, ss) && !f.pkt.AuthResp? && (f.pkt.ChatDeliver? ==> ss.phase.Rank() >= 3)
    ensures RespLink(p.(down := p.down + [f]), ss)
  {
    var p' := p.(down := p.down + [f]);
    DownCounts(p, f);
    forall i | 0 <= i <= |p.down| && HasOk(p.down, i)
      ensures HasOk(p'.down, i)
    {
      var j :| 0 <= j < i && j < |p.down| && IsOk(p.down[j]);
      assert IsOk(p'.down[j]);
    }
    assert HasOk(p.down, |p.down|) ==> HasOk(p'.down, |p'.down|);
  }

  /** At most `g` is added to the up channel and at most `f` to the down channel. */
  predicate Pushes(p: Peer, p': Peer, g: Flight, f: Flight) {
    && p' == p.(up := p'.up, down := p'.down)
    && (p'.up == p.up || p'.up == p.up + [g])
    && (p'.down == p.down || p'.down == p.down + [f])
  }

  lemma FetchPush(c: nat, p: Peer, p': Peer, ss: S.Session, ss': S.Session, replies: seq<Reply>, g: Flight, f: Flight)
    requires FetchLink(c, p, ss, replies) && Pushes(p, p', g, f) && ss'.chatRefused == ss.chatRefused
    requires !g.pkt.KeyReq? && KindOf(f.pkt) !in {KKeyResp, KNotFound}
    ensures FetchLink(c, p', ss', replies)
  {
    UpCounts(p, g);
    DownCounts(p, f);
    assert Owed(p') == Owed(p);
  }

  lemma ChatPush(c: nat, p: Peer, p': Peer, history: seq<Message>, g: Flight, f: Flight)
    requires ChatLink(c, p, history) && Pushes(p, p', g, f)
    requires g.pkt.ChatSend? ==> g.tag < |history| && history[g.tag].sender == c && history[g.tag].pkt == g.pkt
    requires f.pkt.ChatDeliver? ==>
               && f.tag < |history| && history[f.tag].pkt.ChatSend? && history[f.tag].pkt.name == p.cl.name
               && f.pkt == Forward(history[f.tag].pkt, history[f.tag].senderName)
    ensures ChatLink(c, p', history)
  {
  }

  /** The parts that speak of phases, logins and packet sizes. */
  lemma LoginPush(k: Crypto.Suite, c: nat, p: Peer, p': Peer, ss: S.Session, g: Flight, f: Flight)
    requires PhaseLink(p, ss) && AuthLink(p, ss) && KeyLink(k, p, ss) && WfLink(c, p, ss) && Pushes(p, p', g, f)
    requires !g.pkt.AuthReq? && !f.pkt.AuthResp? && WellFormed(g.pkt) && WellFormed(f.pkt)
    requires f.pkt.HelloAck? ==> ss.phase != StHello && f.pkt.id == ss.id
    ensures PhaseLink(p', ss) && AuthLink(p', ss) && KeyLink(k, p', ss) && WfLink(c, p', ss)
  {
    UpCounts(p, g);
    DownCounts(p, f);
    assert Outstanding(p', ss) == Outstanding(p, ss);
  }

  lemma PushDown(k: Crypto.Suite, c: nat, p: Peer, ss: S.Session, history: seq<Message>, replies: seq<Reply>, f: Flight)
    requires Link(k, c, p, ss, history, replies) && WellFormed(f.pkt)
    requires Plain(f.pkt) || (f.pkt.HelloAck? && ss.phase != StHello && f.pkt.id == ss.id)
             || (f.pkt.ChatDeliver? && ss.phase.Rank() >= 3
                 && f.tag < |history| && history[f.tag].pkt.ChatSend? && history[f.tag].pkt.name == p.cl.name
                 && f.pkt == Forward(history[f.tag].pkt, history[f.tag].senderName))
    ensures Link(k, c, p.(down := p.down + [f]), ss, history, replies)
  {
    hide PhaseLink, AuthLink, RespLink, KeyLink, ChatLink, FetchLink, WfLink;
    var p', g := p.(down := p.down + [f]), Flight(Bye(0), 0);
    LoginPush(k, c, p, p', ss, g, f);
    RespPush(p, ss, f);
    ChatPush(c, p, p', history, g, f);
    FetchPush(c, p, p', ss, ss, replies, g, f);
  }

  /** A BYE, or a CHAT_SEND that is logged. */
  lemma PushUp(k: Crypto.Suite, c: nat, p: Peer, ss: S.Session, history: seq<Message>, replies: seq<Reply>, g: Flight)
    requires Link(k, c, p, ss, history, replies) && WellFormed(g.pkt)
    requires g.pkt.Bye? || (g.pkt.ChatSend? && g.tag < |history| && history[g.tag].sender == c && history[g.tag].pkt == g.pkt)
    ensures Link(k, c, p.(up := p.up + [g]), ss, history, replies)
  {
    hide PhaseLink, AuthLink, KeyLink, ChatLink, FetchLink, WfLink;
    var p', f := p.(up := p.up + [g]), Flight(Bye(0), 0);
    LoginPush(k, c, p, p', ss, g, f);
    assert RespLink(p', ss);
    ChatPush(c, p, p', history, g, f);
    FetchPush(c, p, p', ss, ss, replies, g, f);
  }

  /** The session closes, loses its stream or its connection, or has a chat refused. */
  predicate Ages(a: S.Session, b: S.Session) {
    && b == a.(phase := b.phase, authStream := b.authStream, closed := b.closed, life := b.life, chatRefused := b.chatRefused)
    && (b.phase == a.phase || (a.phase == StEstablished && b.phase == StClosing))
    && (b.authStream == a.authStream || b.authStream.None?)
    && (a.chatRefused ==> b.chatRefused)
  }

  lemma Age(k: Crypto.Suite, c: nat, p: Peer, ss: S.Session, ss': S.Session, history: seq<Message>, replies: seq<Reply>)
    requires Link(k, c, p, ss, history, replies) && Ages(ss, ss')
    ensures Link(k, c, p, ss', history, replies)
  {
    assert RespLink(p, ss');
    assert FetchLink(c, p, ss', replies);
  }

  // ---------- the server's moves ----------

  lemma HelloMove(k: Crypto.Suite, c: nat, p: Peer, ss: S.Session, ss': S.Session,
                  history: seq<Message>, replies: seq<Reply>, id: u32, serial: nat)
    requires Link(k, c, p, ss, history, replies) && ss.phase == StHello
    requires ss' == ss.(phase := StAuth, id := id, serial := serial)
    ensures Link(k, c, p, ss', history, replies)
  {
    assert PhaseLink(p, ss');
    assert RespLink(p, ss');
    assert FetchLink(c, p, ss', replies);
  }

  lemma AuthReqMove(k: Crypto.Suite, c: nat, p: Peer, ss: S.Session, ss': S.Session,
                    history: seq<Message>, replies: seq<Reply>)
    requires Link(k, c, p, ss, history, replies) && p.up != [] && p.up[0].pkt.AuthReq?
    requires var q := p.up[0].pkt;
             ss' == ss.(authName := q.name, authHash := q.hash, authKey := if q.keyLen == 32 then q.key else ss.authKey,
                        authStream := Some(c), queued := true)
    ensures ss.phase == StAuth && !ss.queued
    ensures Link(k, c, p.(up := p.up[1..]), ss', history, replies)
  {
    var p' := p.(up := p.up[1..]);
    CountHas(p.up, p.up[0]);
    assert ss.phase == StAuth && !ss.queued;
    PopUp(k, c, p, ss, history, replies);
    assert WellFormed(p.up[0].pkt);
    assert Outstanding(p', ss') == Outstanding(p, ss);
    assert RespLink(p', ss');
    assert FetchLink(c, p', ss', replies);
  }

  /** A KEY_REQ is answered with a key or with "no such user", or a chat is refused for good. */
  lemma KeyAnswerMove(k: Crypto.Suite, c: nat, p: Peer, ss: S.Session,
                      history: seq<Message>, replies: seq<Reply>, f: Flight)
    requires Link(k, c, p, ss, history, replies) && p.up != [] && WellFormed(f.pkt)
    requires KindOf(f.pkt) == KNotFound || f.pkt.KeyResp?
    requires (p.up[0].pkt.KeyReq?) || (KindOf(f.pkt) == KNotFound && ss.chatRefused)
    requires f.pkt.KeyResp? ==>
               && f.tag < |replies| && replies[f.tag].asker == c && replies[f.tag].name == f.pkt.name == p.up[0].pkt.name
               && f.pkt.keyLen == 32 && replies[f.tag].key == f.pkt.key && p.asked <= f.tag
    ensures Link(k, c, p.(up := p.up[1..], down := p.down + [f]), ss, history, replies)
  {
    var p1 := p.(up := p.up[1..]);
    var p' := p1.(down := p.down + [f]);
    hide PhaseLink, AuthLink, RespLink, KeyLink, ChatLink, FetchLink, WfLink;
    PopUp(k, c, p, ss, history, replies);
    var g := Flight(Bye(0), 0);
    LoginPush(k, c, p1, p', ss, g, f);
    RespPush(p1, ss, f);
    ChatPush(c, p1, p', history, g, f);
    KeyAnswerFetch(c, p, ss, replies, f);
  }

  lemma KeyAnswerFetch(c: nat, p: Peer, ss: S.Session, replies: seq<Reply>, f: Flight)
    requires FetchLink(c, p, ss, replies) && p.up != []
    requires KindOf(f.pkt) == KNotFound || f.pkt.KeyResp?
    requires p.up[0].pkt.KeyReq? || ss.chatRefused
    requires f.pkt.KeyResp? ==>
               && f.tag < |replies| && replies[f.tag].asker == c && replies[f.tag].name == f.pkt.name
               && (p.up[0].pkt.KeyReq? ==> f.pkt.name == p.up[0].pkt.name)
               && f.pkt.keyLen == 32 && replies[f.tag].key == f.pkt.key && p.asked <= f.tag
    ensures FetchLink(c, p.(up := p.up[1..], down := p.down + [f]), ss, replies)
  {
    var p' := p.(up := p.up[1..], down := p.down + [f]);
    DownCounts(p, f);
    if !p.cl.waitFailed && !ss.chatRefused {
      assert p.up[0] in p.up;
      assert Count(p.up, KKeyReq) == 1 + Count(p'.up, KKeyReq);
      assert CleanFetch(p', replies);
    }
  }

  /** The worker takes the session; `answered` says whether its AUTH_RESP got onto the stream. */
  lemma WorkMove(k: Crypto.Suite, c: nat, p: Peer, ss: S.Session, ss': S.Session,
                 history: seq<Message>, replies: seq<Reply>, admitted: bool, answered: bool, f: Flight)
    requires Link(k, c, p, ss, history, replies) && ss.queued && ss.phase == StAuth
    requires ss' == if admitted
                    then ss.(queued := false, name := ss.authName, phase := StEstablished,
                             loginStream := ss.authStream, respLost := !answered)
                    else ss.(queued := false)
    requires f.pkt == AuthResp(ss.id, if admitted then AUTH_OK else AUTH_INVALID)
    ensures Link(k, c, if answered then p.(down := p.down + [f]) else p, ss', history, replies)
  {
    hide PhaseLink, AuthLink, RespLink, KeyLink, ChatLink, FetchLink, WfLink;
    var p', g := if answered then p.(down := p.down + [f]) else p, Flight(Bye(0), 0);
    WorkLogin(k, c, p, ss, p', ss', admitted, answered, f);
    WorkResp(p, ss, p', ss', admitted, answered, f);
    ChatPush(c, p, p', history, g, f);
    FetchPush(c, p, p', ss, ss', replies, g, f);
  }

  lemma WorkLogin(k: Crypto.Suite, c: nat, p: Peer, ss: S.Session, p': Peer, ss': S.Session,
                  admitted: bool, answered: bool, f: Flight)
    requires PhaseLink(p, ss) && AuthLink(p, ss) && KeyLink(k, p, ss) && WfLink(c, p, ss) && ss.queued && ss.phase == StAuth
    requires ss' == if admitted
                    then ss.(queued := false, name := ss.authName, phase := StEstablished,
                             loginStream := ss.authStream, respLost := !answered)
                    else ss.(queued := false)
    requires f.pkt == AuthResp(ss.id, if admitted then AUTH_OK else AUTH_INVALID)
    requires p' == if answered then p.(down := p.down + [f]) else p
    ensures PhaseLink(p', ss') && AuthLink(p', ss') && KeyLink(k, p', ss') && WfLink(c, p', ss')
  {
    DownCounts(p, f);
    assert p.cl.phase == StAuth;
  }

  lemma WorkResp(p: Peer, ss: S.Session, p': Peer, ss': S.Session, admitted: bool, answered: bool, f: Flight)
    requires RespLink(p, ss) && AuthLink(p, ss) && ss.queued && ss.phase == StAuth
    requires ss' == if admitted
                    then ss.(queued := false, name := ss.authName, phase := StEstablished,
                             loginStream := ss.authStream, respLost := !answered)
                    else ss.(queued := false)
    requires f.pkt == AuthResp(ss.id, if admitted then AUTH_OK else AUTH_INVALID)
    requires p' == if answered then p.(down := p.down + [f]) else p
    ensures RespLink(p', ss')
  {
    assert forall i | 0 <= i < |p.down| :: !p.down[i].pkt.ChatDeliver?;
    if answered {
      assert p'.down[|p.down|] == f;
      assert admitted ==> IsOk(f);
      assert admitted ==> HasOk(p'.down, |p'.down|);
    }
  }

  // ---------- the client's moves ----------

  lemma PopDownCounts(p: Peer)
    requires p.down != []
    ensures var rest := p.down[1..]; var q := p.down[0].pkt;
            && Count(p.down, KAuthResp) == Count(rest, KAuthResp) + One(q.AuthResp?)
            && Count(p.down, KKeyResp) == Count(rest, KKeyResp) + One(q.KeyResp?)
            && Count(p.down, KNotFound) == Count(rest, KNotFound) + One(KindOf(q) == KNotFound)
            && forall f | f in rest :: f in p.down
  {
  }

  /** Taking a packet moves the AUTH_RESP closer, or makes the client established. */
  lemma RespPop(p: Peer, ss: S.Session, cl: C.Client)
    requires RespLink(p, ss) && p.down != []
    requires cl.phase == StEstablished || (cl.phase.Rank() == 1 ==> p.cl.phase.Rank() == 1)
    requires IsOk(p.down[0]) ==> cl.phase == StEstablished && !ss.respLost
    requires p.cl.phase == StEstablished ==> cl.phase == StEstablished
    requires ss.respLost ==> cl.phase != StEstablished
    ensures RespLink(p.(cl := cl, down := p.down[1..]), ss)
  {
    var p' := p.(cl := cl, down := p.down[1..]);
    PopDownCounts(p);
    forall i | 0 <= i <= |p.down| && HasOk(p.down, i) && !IsOk(p.down[0])
      ensures HasOk(p'.down, i - 1)
    {
      var j :| 0 <= j < i && j < |p.down| && IsOk(p.down[j]);
      assert p'.down[j - 1] == p.down[j];
    }
    forall i | 0 <= i < |p'.down| && p'.down[i].pkt.ChatDeliver?
      ensures ss.phase.Rank() >= 3 && (ss.respLost || cl.phase == StEstablished || HasOk(p'.down, i))
    {
      assert p.down[i + 1] == p'.down[i];
    }
  }

  lemma PopDown(k: Crypto.Suite, c: nat, p: Peer, ss: S.Session, history: seq<Message>, replies: seq<Reply>)
    requires Link(k, c, p, ss, history, replies) && p.down != []
    requires KindOf(p.down[0].pkt) !in {KAuthResp, KKeyResp, KNotFound}
    ensures Link(k, c, p.(down := p.down[1..]), ss, history, replies)
  {
    var p' := p.(down := p.down[1..]);
    PopDownCounts(p);
    RespPop(p, ss, p.cl);
    assert PhaseLink(p', ss) && AuthLink(p', ss);
    assert ChatLink(c, p', history);
    assert FetchLink(c, p', ss, replies);
  }

  /** The client's phase, ID and login semaphores matter to no chat and to no key request. */
  lemma ChatsIgnorePhase(c: nat, p: Peer, p': Peer, ss: S.Session, history: seq<Message>, replies: seq<Reply>)
    requires ChatLink(c, p, history) && FetchLink(c, p, ss, replies)
    requires p' == p.(cl := p.cl.(phase := p'.cl.phase, id := p'.cl.id, loginReady := p'.cl.loginReady,
                                  authDone := p'.cl.authDone, authOk := p'.cl.authOk))
    ensures ChatLink(c, p', history) && FetchLink(c, p', ss, replies)
  {
    assert Owed(p') == Owed(p);
  }

  lemma AckLogin(k: Crypto.Suite, c: nat, p: Peer, ss: S.Session, ack: Packet)
    requires PhaseLink(p, ss) && AuthLink(p, ss) && KeyLink(k, p, ss) && WfLink(c, p, ss)
    requires ack.HelloAck? && ss.phase != StHello && ack.id == ss.id
    ensures var p' := p.(cl := C.OnHelloAck(p.cl, ack));
            PhaseLink(p', ss) && AuthLink(p', ss) && KeyLink(k, p', ss) && WfLink(c, p', ss)
  {
  }

  lemma TakeHelloAck(k: Crypto.Suite, c: nat, p: Peer, ss: S.Session, history: seq<Message>, replies: seq<Reply>)
    requires Link(k, c, p, ss, history, replies) && p.down != [] && p.down[0].pkt.HelloAck?
    ensures Link(k, c, p.(cl := C.OnHelloAck(p.cl, p.down[0].pkt), down := p.down[1..]), ss, history, replies)
  {
    hide AuthLink, KeyLink, ChatLink, FetchLink, WfLink;
    var ack := p.down[0].pkt;
    assert p.down[0] in p.down;
    var p1 := p.(down := p.down[1..]);
    PopDown(k, c, p, ss, history, replies);
    AckLogin(k, c, p1, ss, ack);
    RespPop(p, ss, C.OnHelloAck(p.cl, ack));
    ChatsIgnorePhase(c, p1, p1.(cl := C.OnHelloAck(p.cl, ack)), ss, history, replies);
  }

  lemma TakeAuthResp(k: Crypto.Suite, c: nat, p: Peer, ss: S.Session, history: seq<Message>, replies: seq<Reply>)
    requires Link(k, c, p, ss, history, replies) && p.down != [] && p.down[0].pkt.AuthResp?
    ensures Link(k, c, p.(cl := C.OnAuthResp(p.cl, p.down[0].pkt), down := p.down[1..]), ss, history, replies)
  {
    var cl := C.OnAuthResp(p.cl, p.down[0].pkt);
    var p' := p.(cl := cl, down := p.down[1..]);
    assert p.down[0] in p.down;
    CountHas(p.down, p.down[0]);
    PopDownCounts(p);
    assert p.cl.phase == StAuth && !ss.respLost;
    RespPop(p, ss, cl);
    assert PhaseLink(p', ss) && AuthLink(p', ss);
    assert ChatLink(c, p', history);
    assert FetchLink(c, p', ss, replies);
  }

  /** The key semaphore is posted; the answer's number is remembered with the key. */
  lemma TakeKeyAnswer(k: Crypto.Suite, c: nat, p: Peer, ss: S.Session, history: seq<Message>, replies: seq<Reply>,
                      p': Peer)
    requires Link(k, c, p, ss, history, replies) && p.down != []
    requires var q := p.down[0].pkt;
             && KindOf(q) in {KKeyResp, KNotFound}
             && p' == p.(down := p.down[1..], cl := if q.KeyResp? then C.OnKeyResp(p.cl, q) else C.OnError(p.cl, q),
                         keyReply := if q.KeyResp? then Some(p.down[0].tag) else None)
    ensures Link(k, c, p', ss, history, replies)
  {
    assert p.down[0] in p.down;
    PopDownCounts(p);
    RespPop(p, ss, p'.cl);
    assert PhaseLink(p', ss) && AuthLink(p', ss);
    assert ChatLink(c, p', history);
    TakeKeyFetch(c, p, ss, replies, p');
  }

  lemma TakeKeyFetch(c: nat, p: Peer, ss: S.Session, replies: seq<Reply>, p': Peer)
    requires FetchLink(c, p, ss, replies) && p.down != []
    requires var q := p.down[0].pkt;
             && KindOf(q) in {KKeyResp, KNotFound}
             && p' == p.(down := p.down[1..], cl := if q.KeyResp? then C.OnKeyResp(p.cl, q) else C.OnError(p.cl, q),
                         keyReply := if q.KeyResp? then Some(p.down[0].tag) else None)
    ensures FetchLink(c, p', ss, replies)
  {
    assert p.down[0] in p.down;
    PopDownCounts(p);
    if !p.cl.waitFailed && !ss.chatRefused {
      assert Owed(p') == Owed(p);
      assert CleanFetch(p', replies);
    }
  }

  lemma TakeOther(k: Crypto.Suite, c: nat, p: Peer, ss: S.Session, history: seq<Message>, replies: seq<Reply>, ok: bool)
    requires Link(k, c, p, ss, history, replies) && CanTake(p)
    requires KindOf(p.down[0].pkt) !in {KAuthResp, KKeyResp, KNotFound} && !p.down[0].pkt.HelloAck?
    ensures Link(k, c, TakePeer(k, p, ok), ss, history, replies)
  {
    var p' := TakePeer(k, p, ok);
    var p1 := p.(down := p.down[1..]);
    PopDown(k, c, p, ss, history, replies);
    var p2 := p1.(up := p'.up);
    if p'.up != p.up {
      PushUp(k, c, p1, ss, history, replies, Flight(Bye(p.cl.id), 0));
    } else {
      assert p2 == p1;
    }
    ShownIrrelevant(k, c, p2, p', ss, history, replies);
  }

  /** Every packet the client takes keeps the link. */
  lemma TakeMove(k: Crypto.Suite, c: nat, p: Peer, ss: S.Session, history: seq<Message>, replies: seq<Reply>, ok: bool)
    requires Link(k, c, p, ss, history, replies) && CanTake(p)
    ensures Link(k, c, TakePeer(k, p, ok), ss, history, replies)
  {
    hide Link;
    var q := p.down[0].pkt;
    if q.HelloAck? {
      TakeHelloAck(k, c, p, ss, history, replies);
    } else if q.AuthResp? {
      TakeAuthResp(k, c, p, ss, history, replies);
    } else if KindOf(q) in {KKeyResp, KNotFound} {
      TakeKeyAnswer(k, c, p, ss, history, replies, TakePeer(k, p, ok));
    } else {
      TakeOther(k, c, p, ss, history, replies, ok);
    }
  }

  lemma ShownIrrelevant(k: Crypto.Suite, c: nat, p: Peer, p': Peer, ss: S.Session, history: seq<Message>, replies: seq<Reply>)
    requires Link(k, c, p, ss, history, replies) && p' == p.(shown := p'.shown)
    ensures Link(k, c, p', ss, history, replies)
  {
    assert FetchLink(c, p', ss, replies);
  }

  lemma LoginMove(k: Crypto.Suite, c: nat, p: Peer, ss: S.Session, history: seq<Message>, replies: seq<Reply>,
                  name: seq<byte>, hash: seq<byte>, priv: seq<byte>, ok: bool)
    requires Crypto.Lawful(k) && Link(k, c, p, ss, history, replies) && C.CanLogin(p.cl, name, hash)
    ensures Link(k, c, LoginPeer(k, p, name, hash, priv, ok), ss, history, replies)
  {
    var p' := LoginPeer(k, p, name, hash, priv, ok);
    var f := Flight(C.LoginPacket(k, p.cl, name, hash, priv), 0);
    UpCounts(p, f);
    assert p.cl.phase == StAuth;
    assert forall g | g in p.up :: !g.pkt.AuthReq? by {
      forall g | g in p.up && g.pkt.AuthReq? ensures false { CountHas(p.up, g); }
    }
    assert forall i | 0 <= i < |p.down| :: !p.down[i].pkt.ChatDeliver?;
    assert PhaseLink(p', ss) && AuthLink(p', ss);
    assert RespLink(p', ss);
    assert KeyLink(k, p', ss);
    LoginRest(k, c, p, ss, history, replies, p', f);
  }

  lemma LoginRest(k: Crypto.Suite, c: nat, p: Peer, ss: S.Session, history: seq<Message>, replies: seq<Reply>,
                  p': Peer, f: Flight)
    requires ChatLink(c, p, history) && FetchLink(c, p, ss, replies) && WfLink(c, p, ss)
    requires f.pkt.AuthReq? && WellFormed(f.pkt) && f.pkt.name != [] && p.cl.pc.WaitLogin?
    requires forall i | 0 <= i < |p.down| :: !p.down[i].pkt.ChatDeliver?
    requires p' == p.(cl := p'.cl, up := p'.up) && (p'.up == p.up || p'.up == p.up + [f])
    requires p'.cl == p.cl.(loginReady := p'.cl.loginReady, name := p'.cl.name, priv := p'.cl.priv, pub := p'.cl.pub,
                            pc := C.WaitAuth) && |p'.cl.name| <= USERNAME_MAX && 0 !in p'.cl.name
    ensures ChatLink(c, p', history) && FetchLink(c, p', ss, replies) && WfLink(c, p', ss)
  {
    UpCounts(p, f);
    assert FetchLink(c, p', ss, replies);
  }

  lemma EnterChatMove(k: Crypto.Suite, c: nat, p: Peer, ss: S.Session, history: seq<Message>, replies: seq<Reply>)
    requires Link(k, c, p, ss, history, replies) && p.cl.pc.WaitAuth? && p.cl.authDone > 0
    ensures Link(k, c, p.(cl := C.EnterChat(p.cl)), ss, history, replies)
  {
    var p' := p.(cl := C.EnterChat(p.cl));
    assert RespLink(p', ss);
    assert FetchLink(c, p', ss, replies);
  }

  lemma AskMove(k: Crypto.Suite, c: nat, p: Peer, ss: S.Session, history: seq<Message>, replies: seq<Reply>,
                recipient: seq<byte>, text: seq<byte>, ok: bool)
    requires Link(k, c, p, ss, history, replies) && p.cl.pc.Idle?
    requires |recipient| <= USERNAME_MAX && |text| <= C.TEXT_MAX
    ensures Link(k, c, AskPeer(p, recipient, text, ok, |replies|), ss, history, replies)
  {
    var p' := AskPeer(p, recipient, text, ok, |replies|);
    var f := Flight(KeyReq(p.cl.id, recipient), 0);
    UpCounts(p, f);
    assert PhaseLink(p', ss) && AuthLink(p', ss) && RespLink(p', ss);
    assert KeyLink(k, p', ss) && ChatLink(c, p', history);
    AskFetch(c, p, ss, replies, p', f);
  }

  lemma NoneInFlight(fs: seq<Flight>, kind: Kind)
    requires Count(fs, kind) == 0
    ensures forall f | f in fs :: KindOf(f.pkt) != kind
  {
    forall f | f in fs && KindOf(f.pkt) == kind ensures false { CountHas(fs, f); }
  }

  lemma AskFetch(c: nat, p: Peer, ss: S.Session, replies: seq<Reply>, p': Peer, f: Flight)
    requires FetchLink(c, p, ss, replies) && p.cl.pc.Idle? && f.pkt.KeyReq?
    requires p'.cl.pc.Fetching?
    requires p' == p.(cl := C.Ask(p.cl, f.pkt.name, p'.cl.pc.text), up := p'.up, asked := |replies|)
    requires p'.up == p.up || p'.up == p.up + [f]
    ensures FetchLink(c, p', ss, replies)
  {
    UpCounts(p, f);
    if !p.cl.waitFailed && !ss.chatRefused {
      NoneInFlight(p.up, KKeyReq);
      NoneInFlight(p.down, KKeyResp);
      assert CleanFetch(p', replies);
    }
  }

  lemma GiveUpMove(k: Crypto.Suite, c: nat, p: Peer, ss: S.Session, history: seq<Message>, replies: seq<Reply>)
    requires Link(k, c, p, ss, history, replies) && p.cl.pc.Fetching?
    ensures Link(k, c, p.(cl := C.GiveUp(p.cl)), ss, history, replies)
  {
    var p' := p.(cl := C.GiveUp(p.cl));
    assert RespLink(p', ss);
    assert FetchLink(c, p', ss, replies);
  }

  /** send_chat after a successful wait, before the message goes out. */
  lemma ResumeMove(k: Crypto.Suite, c: nat, p: Peer, ss: S.Session, history: seq<Message>, replies: seq<Reply>)
    requires Link(k, c, p, ss, history, replies) && p.cl.pc.Fetching? && p.cl.keySem > 0
    ensures Link(k, c, p.(cl := C.Resume(p.cl)), ss, history, replies)
  {
    var p' := p.(cl := C.Resume(p.cl));
    assert RespLink(p', ss);
    if !p.cl.waitFailed && !ss.chatRefused {
      NoneInFlight(p.up, KKeyReq);
      NoneInFlight(p.down, KKeyResp);
      assert CleanFetch(p', replies);
    }
    assert FetchLink(c, p', ss, replies);
  }

  lemma PushUpChat(k: Crypto.Suite, c: nat, p: Peer, ss: S.Session, history: seq<Message>, replies: seq<Reply>, m: Message)
    requires Link(k, c, p, ss, history, replies) && m.sender == c && m.pkt.ChatSend? && WellFormed(m.pkt)
    ensures Link(k, c, p.(up := p.up + [Flight(m.pkt, |history|)]), ss, history + [m], replies)
  {
    hide Link;
    LinkExtends(k, c, p, ss, history, replies, history + [m], replies);
    PushUp(k, c, p, ss, history + [m], replies, Flight(m.pkt, |history|));
  }

  lemma QuitMove(k: Crypto.Suite, c: nat, p: Peer, ss: S.Session, history: seq<Message>, replies: seq<Reply>, ok: bool)
    requires Link(k, c, p, ss, history, replies) && !p.cl.pc.Fetching?
    ensures Link(k, c, p.(cl := p.cl.(pc := C.Done), up := Push(p.up, ok, Bye(p.cl.id), 0)), ss, history, replies)
  {
    var p1 := p.(cl := p.cl.(pc := C.Done));
    assert RespLink(p1, ss);
    assert FetchLink(c, p1, ss, replies);
    if ok {
      PushUp(k, c, p1, ss, history, replies, Flight(Bye(p.cl.id), 0));
    }
  }
}
