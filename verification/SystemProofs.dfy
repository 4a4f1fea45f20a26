/** The invariant of the composed system and its preservation by every step. */
module SystemProofs {
  import opened Bytes
  import opened Wire
  import opened Phases
  import opened UsersFile
  import opened SystemSpec
  import opened SystemLinks
  import S = ServerSpec
  import SP = ServerProofs
  import C = ClientSpec
  import Crypto

  // ---------- the invariant ----------

  /** After login a client's name and private key stay what they are. */
  predicate SameId(p: Peer, p': Peer) {
    p.cl.pc.WaitLogin? || (!p'.cl.pc.WaitLogin? && p'.cl.name == p.cl.name && p'.cl.priv == p.cl.priv)
  }

  /** The key in a reply is the public half of the private key of the login that was listed under that name. */
  ghost predicate ReplyOk(k: Crypto.Suite, peers: map<nat, Peer>, r: Reply) {
    && r.login in peers
    && var p := peers[r.login];
       !p.cl.pc.WaitLogin? && p.cl.name == r.name && r.key == k.pub(p.cl.priv)
  }

  /** A logged message is sealed to the key of the reply it used, and its packet carries exactly that. */
  ghost predicate MessageOk(k: Crypto.Suite, peers: map<nat, Peer>, replies: seq<Reply>, m: Message) {
    && m.sender in peers && !peers[m.sender].cl.pc.WaitLogin? && m.senderName == peers[m.sender].cl.name
    && m.reply.Some? && m.reply.value < |replies|
    && replies[m.reply.value].asker == m.sender && replies[m.reply.value].key == m.key
    && m.pkt.ChatSend? && WellFormed(m.pkt) && m.pkt.name == m.recipient
    && m.pkt.encKeyLen == 32 && m.pkt.encKey[..KEY_LEN] == k.pub(m.eph)
    && m.pkt.nonce == m.nonce && m.pkt.ct == Crypto.Encrypt(k, m.key, m.eph, m.nonce, m.text)
  }

  ghost predicate LogInv(k: Crypto.Suite, y: System) {
    && (forall i | 0 <= i < |y.replies| :: ReplyOk(k, y.peers, y.replies[i]))
    && (forall i | 0 <= i < |y.history| :: MessageOk(k, y.peers, y.replies, y.history[i]))
  }

  /** The credentials of a login verify, `junk` being what the worker decoded non-hexadecimal digits to. */
  ghost predicate CredOk(users: seq<byte>, ss: S.Session) {
    ss.phase.Rank() >= 3 ==>
      exists junk :: |junk| == HASH_LEN && Verify(users, CString(ss.authName), ss.authHash, junk)
  }

  ghost predicate Inv(k: Crypto.Suite, y: System) {
    && SP.Inv(y.server)
    && y.peers.Keys == y.server.sessions.Keys
    && Terminated(y.users)
    && (forall c | c in y.peers :: Link(k, c, y.peers[c], y.server.sessions[c], y.history, y.replies))
    && (forall c | c in y.peers :: CredOk(y.users, y.server.sessions[c]))
    && LogInv(k, y)
  }

  lemma InitInv(k: Crypto.Suite, users: seq<byte>)
    requires Terminated(users)
    ensures Inv(k, Init(users))
  {
    SP.InitInv();
  }

  // ---------- putting a step together ----------

  lemma LogsKeep(k: Crypto.Suite, y: System, y': System)
    requires LogInv(k, y) && y.history <= y'.history && y.replies <= y'.replies
    requires forall c | c in y.peers :: c in y'.peers && SameId(y.peers[c], y'.peers[c])
    requires forall i | |y.replies| <= i < |y'.replies| :: ReplyOk(k, y'.peers, y'.replies[i])
    requires forall i | |y.history| <= i < |y'.history| :: MessageOk(k, y'.peers, y'.replies, y'.history[i])
    ensures LogInv(k, y')
  {
    forall i | 0 <= i < |y'.replies|
      ensures ReplyOk(k, y'.peers, y'.replies[i])
    {
      if i < |y.replies| {
        assert ReplyOk(k, y.peers, y.replies[i]);
      }
    }
    forall i | 0 <= i < |y'.history|
      ensures MessageOk(k, y'.peers, y'.replies, y'.history[i])
    {
      if i < |y.history| {
        assert MessageOk(k, y.peers, y.replies, y.history[i]);
      }
    }
  }

  /** A step about client `c`: only its session changes, other clients at most receive something. */
  lemma Assemble(k: Crypto.Suite, y: System, y': System, c: nat)
    requires Inv(k, y) && SP.Inv(y'.server) && SP.Replaces(y.server, y'.server, c)
    requires y'.peers.Keys == y.peers.Keys && y'.users == y.users
    requires y.history <= y'.history && y.replies <= y'.replies
    requires forall d | d in y.peers :: SameId(y.peers[d], y'.peers[d])
    requires forall d | d in y.peers && d != c ::
               y'.peers[d] == y.peers[d] || Link(k, d, y'.peers[d], y.server.sessions[d], y'.history, y'.replies)
    requires c in y.peers && Link(k, c, y'.peers[c], y'.server.sessions[c], y'.history, y'.replies)
    requires CredOk(y.users, y'.server.sessions[c])
    requires forall i | |y.replies| <= i < |y'.replies| :: ReplyOk(k, y'.peers, y'.replies[i])
    requires forall i | |y.history| <= i < |y'.history| :: MessageOk(k, y'.peers, y'.replies, y'.history[i])
    ensures Inv(k, y')
  {
    hide SP.Inv, Link, ReplyOk, MessageOk, CredOk, LogInv;
    LogsKeep(k, y, y');
    forall d | d in y'.peers
      ensures Link(k, d, y'.peers[d], y'.server.sessions[d], y'.history, y'.replies)
      ensures CredOk(y'.users, y'.server.sessions[d])
    {
      assert Link(k, d, y.peers[d], y.server.sessions[d], y.history, y.replies);
      if d != c && y'.peers[d] == y.peers[d] {
        LinkExtends(k, d, y.peers[d], y.server.sessions[d], y.history, y.replies, y'.history, y'.replies);
      }
    }
  }

  /** A step inside client `c`. */
  lemma Local(k: Crypto.Suite, y: System, c: nat, p': Peer)
    requires Inv(k, y) && c in y.peers && SameId(y.peers[c], p')
    requires Link(k, c, p', y.server.sessions[c], y.history, y.replies)
    ensures Inv(k, y.(peers := y.peers[c := p']))
  {
    hide SP.Inv, Link, ReplyOk, MessageOk, CredOk, LogInv;
    assert y.server.sessions == y.server.sessions[c := y.server.sessions[c]];
    Assemble(k, y, y.(peers := y.peers[c := p']), c);
  }

  /** A step of client `c` and its session. */
  lemma OwnMove(k: Crypto.Suite, y: System, c: nat, s': S.Server, p': Peer)
    requires c in y.peers && SP.Replaces(y.server, s', c) && SP.Inv(s') && SameId(y.peers[c], p')
    requires Link(k, c, p', s'.sessions[c], y.history, y.replies)
    requires CredOk(y.users, s'.sessions[c])
    requires Inv(k, y)
    ensures Inv(k, y.(server := s', peers := y.peers[c := p']))
  {
    hide SP.Inv, Link, LogInv, CredOk, ReplyOk, MessageOk;
    Assemble(k, y, y.(server := s', peers := y.peers[c := p']), c);
  }

  // ---------- posting ----------

  lemma PostTry(peers: map<nat, Peer>, c: nat, ok: bool, pkt: Packet, tag: nat)
    requires c in peers
    ensures Post(peers, S.Try(ok, c, pkt), tag) == peers[c := peers[c].(down := Push(peers[c].down, ok, pkt, tag))]
  {
    if ok {
      assert S.Try(ok, c, pkt)[1..] == [];
    } else {
      assert peers == peers[c := peers[c]];
    }
  }

  lemma {:induction false} PostSplit(peers: map<nat, Peer>, a: seq<S.Send>, b: seq<S.Send>, tag: nat)
    ensures Post(peers, a + b, tag) == Post(Post(peers, a, tag), b, tag)
    decreases |a|
  {
    if a == [] {
      assert a + b == b;
    } else {
      PostSplit(PostOne(peers, a[0], tag), a[1..], b, tag);
      assert (a + b)[1..] == a[1..] + b;
    }
  }

  /** Posting only adds to down channels. */
  lemma {:induction false} PostKeeps(peers: map<nat, Peer>, sends: seq<S.Send>, tag: nat, c: nat)
    requires c in peers
    ensures var p := Post(peers, sends, tag)[c]; p == peers[c].(down := p.down)
    decreases |sends|
  {
    if sends != [] {
      PostKeeps(PostOne(peers, sends[0], tag), sends[1..], tag, c);
    }
  }

  // ---------- packets arriving at the server ----------

  /** The state after taking the head of c's channel and putting at most one packet into c's own channel back. */
  function Answered(y: System, c: nat, s': S.Server, ok: bool, pkt: Packet, tag: nat, replies: seq<Reply>): System
    requires c in y.peers && y.peers[c].up != []
  {
    var p := y.peers[c];
    y.(server := s', peers := y.peers[c := p.(up := p.up[1..], down := Push(p.down, ok, pkt, tag))], replies := replies)
  }

  /** A handler that sends at most one packet back on the same stream leaves such a state. */
  lemma ArriveAnswers(y: System, c: nat, ok: bool, ok2: bool, ok1: bool, pkt: Packet)
    requires c in y.peers && c in y.server.sessions && y.peers[c].up != [] && WellFormed(y.peers[c].up[0].pkt)
    requires S.OnRecv(y.server, c, c, y.peers[c].up[0].pkt, ok, ok2).sends == S.Try(ok1, c, pkt)
    requires !y.peers[c].up[0].pkt.KeyReq?
    ensures ArriveStep(y, c, ok, ok2) ==
            Answered(y, c, S.OnRecv(y.server, c, c, y.peers[c].up[0].pkt, ok, ok2).server, ok1, pkt, y.peers[c].up[0].tag, y.replies)
  {
    hide S.OnRecv;
    var p := y.peers[c];
    var p1 := p.(up := p.up[1..]);
    PostTry(y.peers[c := p1], c, ok1, pkt, p.up[0].tag);
    assert y.peers[c := p1][c := p1.(down := Push(p.down, ok1, pkt, p.up[0].tag))]
        == y.peers[c := p1.(down := Push(p.down, ok1, pkt, p.up[0].tag))];
  }

  lemma ComplainArrives(k: Crypto.Suite, y: System, c: nat, ok: bool, pkt: Packet, tag: nat)
    requires Inv(k, y) && c in y.peers && y.peers[c].up != [] && Plain(pkt) && WellFormed(pkt)
    ensures Inv(k, Answered(y, c, y.server, ok, pkt, tag, y.replies))
  {
    hide SP.Inv, Link, LogInv, CredOk;
    var p := y.peers[c];
    var ss := y.server.sessions[c];
    var p1 := p.(up := p.up[1..]);
    PopUp(k, c, p, ss, y.history, y.replies);
    if ok {
      PushDown(k, c, p1, ss, y.history, y.replies, Flight(pkt, tag));
    }
    Local(k, y, c, p1.(down := Push(p.down, ok, pkt, tag)));
  }

  lemma HelloAccepted(k: Crypto.Suite, y: System, c: nat, ok: bool, s': S.Server, tag: nat)
    requires Inv(k, y) && c in y.peers && y.peers[c].up != [] && SP.Inv(s') && SP.Replaces(y.server, s', c)
    requires var ss := y.server.sessions[c];
             ss.phase == StHello && s'.sessions[c] == ss.(phase := StAuth, id := y.server.nextId, serial := s'.sessions[c].serial)
    ensures Inv(k, Answered(y, c, s', ok, HelloAck(y.server.nextId, 1), tag, y.replies))
  {
    hide SP.Inv, Link, LogInv, ReplyOk, MessageOk;
    var p := y.peers[c];
    var ss := y.server.sessions[c];
    var ss' := s'.sessions[c];
    var p1 := p.(up := p.up[1..]);
    var ack := Flight(HelloAck(y.server.nextId, 1), tag);
    PopUp(k, c, p, ss, y.history, y.replies);
    HelloMove(k, c, p1, ss, ss', y.history, y.replies, ss'.id, ss'.serial);
    if ok {
      PushDown(k, c, p1, ss', y.history, y.replies, ack);
    }
    OwnMove(k, y, c, s', p1.(down := Push(p.down, ok, ack.pkt, tag)));
  }

  lemma Mismatch(k: Crypto.Suite, y: System, c: nat, ok: bool, ok2: bool, e: Packet, tag: nat)
    requires Inv(k, y) && c in y.peers && y.peers[c].up != [] && Plain(e) && WellFormed(e)
    ensures var p := y.peers[c]; var ss := y.server.sessions[c];
            Inv(k, y.(peers := Post(y.peers[c := p.(up := p.up[1..])], S.Try(ok, c, e) + S.Try(ok2, c, Bye(ss.id)), tag)))
  {
    hide SP.Inv, Link, LogInv, CredOk;
    var p := y.peers[c];
    var ss := y.server.sessions[c];
    var p1 := p.(up := p.up[1..]);
    PopUp(k, c, p, ss, y.history, y.replies);
    var p2 := p1.(down := Push(p1.down, ok, e, tag));
    if ok { PushDown(k, c, p1, ss, y.history, y.replies, Flight(e, tag)); }
    var p3 := p2.(down := Push(p2.down, ok2, Bye(ss.id), tag));
    if ok2 { PushDown(k, c, p2, ss, y.history, y.replies, Flight(Bye(ss.id), tag)); }
    PostTry(y.peers[c := p1], c, ok, e, tag);
    PostTry(y.peers[c := p2], c, ok2, Bye(ss.id), tag);
    PostSplit(y.peers[c := p1], S.Try(ok, c, e), S.Try(ok2, c, Bye(ss.id)), tag);
    assert y.peers[c := p1][c := p2] == y.peers[c := p2] && y.peers[c := p2][c := p3] == y.peers[c := p3];
    Local(k, y, c, p3);
  }

  lemma HelloArrives(k: Crypto.Suite, y: System, c: nat, ok: bool, ok2: bool)
    requires Enabled(k, y, Arrive(c, ok, ok2)) && y.peers[c].up[0].pkt.Hello?
    requires Inv(k, y)
    ensures Inv(k, ArriveStep(y, c, ok, ok2))
  {
    hide SP.Inv, Link, LogInv, CredOk, Text, SystemSpec.Post;
    var p := y.peers[c];
    var f := p.up[0];
    var ss := y.server.sessions[c];
    if ss.phase != StHello {
      var e := Error(ss.id, E_UNEXPECTED_MSG, Text("unexpected HELLO"));
      ArriveAnswers(y, c, ok, ok2, ok, e);
      ComplainArrives(k, y, c, ok, e, f.tag);
    } else if !S.OffersV1(f.pkt) {
      Mismatch(k, y, c, ok, ok2, Error(ss.id, E_VERSION_MISMATCH, Text("no supported protocol version")), f.tag);
    } else {
      SP.HelloKeeps(y.server, c, c, f.pkt, ok, ok2);
      ArriveAnswers(y, c, ok, ok2, ok, HelloAck(y.server.nextId, 1));
      HelloAccepted(k, y, c, ok, S.OnHello(y.server, c, c, f.pkt, ok, ok2).server, f.tag);
    }
  }

  /** A handler that sends nothing. */
  lemma ArriveSilent(y: System, c: nat, ok: bool, ok2: bool)
    requires c in y.peers && c in y.server.sessions && y.peers[c].up != [] && WellFormed(y.peers[c].up[0].pkt)
    requires S.OnRecv(y.server, c, c, y.peers[c].up[0].pkt, ok, ok2).sends == []
    ensures ArriveStep(y, c, ok, ok2) ==
            y.(server := S.OnRecv(y.server, c, c, y.peers[c].up[0].pkt, ok, ok2).server,
               peers := y.peers[c := y.peers[c].(up := y.peers[c].up[1..])])
  {
  }

  lemma AuthReqArrives(k: Crypto.Suite, y: System, c: nat, ok: bool, ok2: bool)
    requires Enabled(k, y, Arrive(c, ok, ok2)) && y.peers[c].up[0].pkt.AuthReq?
    requires Inv(k, y)
    ensures Inv(k, ArriveStep(y, c, ok, ok2))
  {
    hide S.OnHello, S.OnKeyReq, S.OnChatSend, S.OnBye, ArriveStep, SP.Inv, Link, LogInv, ReplyOk, MessageOk, Text, SystemSpec.Post;
    var p := y.peers[c];
    var q := p.up[0].pkt;
    var ss := y.server.sessions[c];
    var ss' := ss.(authName := q.name, authHash := q.hash, authKey := if q.keyLen == 32 then q.key else ss.authKey,
                   authStream := Some(c), queued := true);
    AuthReqMove(k, c, p, ss, ss', y.history, y.replies);
    SP.AuthReqKeeps(y.server, c, c, q, ok);
    ArriveSilent(y, c, ok, ok2);
    OwnMove(k, y, c, S.OnAuthReq(y.server, c, c, q, ok).server, y.peers[c].(up := y.peers[c].up[1..]));
  }

  lemma ByeAges(s: S.Server, c: nat)
    requires c in s.sessions
    ensures SP.Replaces(s, S.OnBye(s, c), c) && Ages(s.sessions[c], S.OnBye(s, c).sessions[c])
  {
    assert s.sessions == s.sessions[c := s.sessions[c]];
  }

  lemma ByeArrives(k: Crypto.Suite, y: System, c: nat, ok: bool, ok2: bool)
    requires Enabled(k, y, Arrive(c, ok, ok2)) && y.peers[c].up[0].pkt.Bye?
    requires Inv(k, y)
    ensures Inv(k, ArriveStep(y, c, ok, ok2))
  {
    hide S.OnHello, S.OnAuthReq, S.OnKeyReq, S.OnChatSend, S.OnBye, ArriveStep, SP.Inv, Link, LogInv, ReplyOk, MessageOk, Text, SystemSpec.Post;
    var p := y.peers[c];
    var ss := y.server.sessions[c];
    PopUp(k, c, p, ss, y.history, y.replies);
    SP.ByeKeeps(y.server, c);
    var s' := S.OnBye(y.server, c);
    ByeAges(y.server, c);
    Age(k, c, p.(up := p.up[1..]), ss, s'.sessions[c], y.history, y.replies);
    ArriveSilent(y, c, ok, ok2);
    assert CredOk(y.users, ss);
    OwnMove(k, y, c, s', y.peers[c].(up := y.peers[c].up[1..]));
  }

  lemma IgnoredArrives(k: Crypto.Suite, y: System, c: nat, ok: bool, ok2: bool)
    requires Enabled(k, y, Arrive(c, ok, ok2))
    requires Inv(k, y)
    requires var q := y.peers[c].up[0].pkt; !(q.Hello? || q.AuthReq? || q.KeyReq? || q.ChatSend? || q.Bye?)
    ensures Inv(k, ArriveStep(y, c, ok, ok2))
  {
    hide SP.Inv, Link, LogInv, CredOk, SystemSpec.Post;
    var p := y.peers[c];
    PopUp(k, c, p, y.server.sessions[c], y.history, y.replies);
    ArriveSilent(y, c, ok, ok2);
    Local(k, y, c, p.(up := p.up[1..]));
  }

  // ---------- key requests ----------

  /** An entry that a KEY_REQ finds belongs to a client who holds the private half of its key. */
  lemma ListedKey(k: Crypto.Suite, y: System, n: seq<byte>)
    requires Inv(k, y) && n in y.server.registry
    ensures var e := y.server.registry[n];
            && e.owner in y.peers && ReplyOk(k, y.peers, Reply(0, n, e.key, e.owner))
            && |e.key| == KEY_LEN && (e.stream.Some? ==> e.stream.value == e.owner)
            && y.server.sessions[e.owner].phase.Rank() >= 3
  {
    var e := y.server.registry[n];
    assert SP.Listed(y.server, n);
    assert Link(k, e.owner, y.peers[e.owner], y.server.sessions[e.owner], y.history, y.replies);
  }

  lemma KeyFound(k: Crypto.Suite, y: System, c: nat, ok: bool, ok2: bool)
    requires Enabled(k, y, Arrive(c, ok, ok2)) && y.peers[c].up[0].pkt.KeyReq?
    requires Inv(k, y)
    requires y.server.sessions[c].phase == StEstablished && y.peers[c].up[0].pkt.name in y.server.registry && ok
    ensures Inv(k, ArriveStep(y, c, ok, ok2))
  {
    hide SP.Inv, Link, LogInv, MessageOk, CredOk;
    var p := y.peers[c];
    var q := p.up[0].pkt;
    var ss := y.server.sessions[c];
    var e := y.server.registry[q.name];
    var y' := ArriveStep(y, c, ok, ok2);
    var f := Flight(KeyResp(q.id, q.name, 32, e.key), |y.replies|);
    var p1 := p.(up := p.up[1..]);
    PostTry(y.peers[c := p1], c, ok, f.pkt, f.tag);
    assert y'.replies == y.replies + [Reply(c, q.name, e.key, e.owner)];
    assert y'.peers == y.peers[c := p1.(down := p.down + [f])];
    ListedKey(k, y, q.name);
    LinkExtends(k, c, p, ss, y.history, y.replies, y.history, y'.replies);
    AskedBound(k, y, c);
    KeyAnswerMove(k, c, p, ss, y.history, y'.replies, f);
    assert y.server.sessions == y.server.sessions[c := ss];
    Assemble(k, y, y', c);
  }

  lemma AskedBound(k: Crypto.Suite, y: System, c: nat)
    requires Inv(k, y) && c in y.peers
    ensures y.peers[c].asked <= |y.replies|
  {
    assert Link(k, c, y.peers[c], y.server.sessions[c], y.history, y.replies);
  }

  /** "No such user", for a key or for a chat. */
  lemma NotFoundArrives(k: Crypto.Suite, y: System, c: nat, s': S.Server, pkt: Packet, tag: nat)
    requires Inv(k, y) && c in y.peers && y.peers[c].up != [] && SP.Inv(s') && SP.Replaces(y.server, s', c)
    requires KindOf(pkt) == KNotFound && WellFormed(pkt)
    requires s'.sessions[c] == y.server.sessions[c].(chatRefused := s'.sessions[c].chatRefused)
    requires y.server.sessions[c].chatRefused ==> s'.sessions[c].chatRefused
    requires y.peers[c].up[0].pkt.KeyReq? || s'.sessions[c].chatRefused
    ensures Inv(k, Answered(y, c, s', true, pkt, tag, y.replies))
  {
    hide SP.Inv, Link, LogInv, ReplyOk, MessageOk;
    var p := y.peers[c];
    var ss := y.server.sessions[c];
    Age(k, c, p, ss, s'.sessions[c], y.history, y.replies);
    KeyAnswerMove(k, c, p, s'.sessions[c], y.history, y.replies, Flight(pkt, tag));
    assert CredOk(y.users, ss);
    OwnMove(k, y, c, s', p.(up := p.up[1..], down := p.down + [Flight(pkt, tag)]));
  }

  lemma KeyReqArrives(k: Crypto.Suite, y: System, c: nat, ok: bool, ok2: bool)
    requires Enabled(k, y, Arrive(c, ok, ok2)) && y.peers[c].up[0].pkt.KeyReq?
    requires Inv(k, y)
    ensures Inv(k, ArriveStep(y, c, ok, ok2))
  {
    hide S.OnHello, S.OnAuthReq, S.OnChatSend, S.OnBye, SP.Inv, Link, LogInv, CredOk, Text, SystemSpec.Post;
    var p := y.peers[c];
    var q := p.up[0].pkt;
    var ss := y.server.sessions[c];
    var p1 := p.(up := p.up[1..]);
    if ss.phase == StEstablished && q.name in y.server.registry && ok {
      KeyFound(k, y, c, ok, ok2);
    } else if !ok {
      PopUp(k, c, p, ss, y.history, y.replies);
      ArriveSilent(y, c, ok, ok2);
      Local(k, y, c, p1);
    } else {
      var e := if ss.phase != StEstablished then Error(ss.id, E_UNEXPECTED_MSG, Text("unexpected KEY_REQ"))
               else Error(ss.id, E_USER_NOT_FOUND, Text("user not found"));
      PostTry(y.peers[c := p1], c, ok, e, |y.replies|);
      assert y.peers[c := p1][c := p1.(down := p.down + [Flight(e, |y.replies|)])]
          == y.peers[c := p1.(down := p.down + [Flight(e, |y.replies|)])];
      assert ArriveStep(y, c, ok, ok2) == Answered(y, c, y.server, ok, e, |y.replies|, y.replies);
      if ss.phase != StEstablished {
        ComplainArrives(k, y, c, ok, e, |y.replies|);
      } else {
        assert y.server.sessions == y.server.sessions[c := ss];
        NotFoundArrives(k, y, c, y.server, e, |y.replies|);
      }
    }
  }

  // ---------- chats ----------

  /** The state after moving the head of c's channel, rewritten, into d's channel. */
  function Delivered(y: System, c: nat, d: nat, g: Flight): System
    requires c in y.peers && d in y.peers && y.peers[c].up != []
  {
    var peers1 := y.peers[c := y.peers[c].(up := y.peers[c].up[1..])];
    y.(peers := peers1[d := peers1[d].(down := peers1[d].down + [g])])
  }

  predicate WillForward(y: System, c: nat) {
    && c in y.peers && c in y.server.sessions && y.peers[c].up != []
    && y.peers[c].up[0].pkt.ChatSend? && y.server.sessions[c].phase == StEstablished
    && var n := y.peers[c].up[0].pkt.name;
       n in y.server.registry && y.server.registry[n].stream.Some?
  }

  lemma ForwardShape(y: System, c: nat, ok2: bool, d: nat, g: Flight)
    requires WillForward(y, c) && WellFormed(y.peers[c].up[0].pkt)
    requires var f := y.peers[c].up[0];
             d in y.peers && y.server.registry[f.pkt.name].stream == Some(d)
             && g == Flight(Forward(f.pkt, y.server.sessions[c].name), f.tag)
    ensures ArriveStep(y, c, true, ok2) == Delivered(y, c, d, g)
  {
    var peers1 := y.peers[c := y.peers[c].(up := y.peers[c].up[1..])];
    PostTry(peers1, d, true, g.pkt, g.tag);
    assert [S.Send(d, g.pkt)] == S.Try(true, d, g.pkt);
  }

  /** The forwarded chat lands in the channel of the login that is listed under the recipient's name. */
  lemma ChatForwarded(k: Crypto.Suite, y: System, c: nat, ok2: bool) returns (d: nat, g: Flight)
    requires WillForward(y, c)
    requires Inv(k, y)
    ensures d == y.server.registry[y.peers[c].up[0].pkt.name].owner && d in y.peers
    ensures g.tag == y.peers[c].up[0].tag < |y.history| && y.history[g.tag].sender == c
    ensures y.history[g.tag].pkt == y.peers[c].up[0].pkt && WellFormed(y.peers[c].up[0].pkt)
    ensures g.pkt == Forward(y.peers[c].up[0].pkt, y.history[g.tag].senderName)
    ensures ArriveStep(y, c, true, ok2) == Delivered(y, c, d, g)
    ensures Inv(k, Delivered(y, c, d, g))
  {
    hide SP.Inv, Link, LogInv, CredOk, ArriveStep;
    var p := y.peers[c];
    var f := p.up[0];
    var ss := y.server.sessions[c];
    d := y.server.registry[f.pkt.name].owner;
    ListedKey(k, y, f.pkt.name);
    ChatOrigin(k, y, c);
    g := Flight(Forward(f.pkt, ss.name), f.tag);
    ForwardShape(y, c, ok2, d, g);
    var p1 := p.(up := p.up[1..]);
    var pd := if d == c then p1 else y.peers[d];
    PopUp(k, c, p, ss, y.history, y.replies);
    PushDown(k, d, pd, y.server.sessions[d], y.history, y.replies, g);
    assert y.server.sessions == y.server.sessions[c := ss];
    Assemble(k, y, Delivered(y, c, d, g), c);
  }

  lemma ChatOrigin(k: Crypto.Suite, y: System, c: nat)
    requires Inv(k, y) && c in y.peers && y.peers[c].up != [] && y.peers[c].up[0].pkt.ChatSend?
    requires y.server.sessions[c].phase == StEstablished
    ensures var f := y.peers[c].up[0];
            && f.tag < |y.history| && y.history[f.tag].pkt == f.pkt && y.history[f.tag].sender == c
            && y.history[f.tag].senderName == y.server.sessions[c].name && |y.server.sessions[c].name| <= USERNAME_MAX
            && WellFormed(f.pkt)
  {
    hide SP.Inv, CredOk, ReplyOk, Terminated, PhaseLink, AuthLink, RespLink, FetchLink, Crypto.Encrypt;
    var f := y.peers[c].up[0];
    assert Link(k, c, y.peers[c], y.server.sessions[c], y.history, y.replies);
    assert f in y.peers[c].up;
    assert MessageOk(k, y.peers, y.replies, y.history[f.tag]);
  }

  lemma ChatSendArrives(k: Crypto.Suite, y: System, c: nat, ok: bool, ok2: bool)
    requires Enabled(k, y, Arrive(c, ok, ok2)) && y.peers[c].up[0].pkt.ChatSend?
    requires Inv(k, y)
    ensures Inv(k, ArriveStep(y, c, ok, ok2))
  {
    hide SP.Inv, Link, LogInv, CredOk, Text, SystemSpec.Post;
    var p := y.peers[c];
    var f := p.up[0];
    var ss := y.server.sessions[c];
    if ss.phase != StEstablished {
      var e := Error(ss.id, E_UNEXPECTED_MSG, Text("unexpected CHAT_SEND"));
      ArriveAnswers(y, c, ok, ok2, ok, e);
      ComplainArrives(k, y, c, ok, e, f.tag);
    } else if f.pkt.name !in y.server.registry || y.server.registry[f.pkt.name].stream.None? {
      ChatRefused(k, y, c, ok, ok2);
    } else if ok {
      var d, g := ChatForwarded(k, y, c, ok2);
    } else {
      var e := Error(ss.id, E_COULD_NOT_SEND, Text("could not deliver message"));
      ArriveAnswers(y, c, ok, ok2, ok2, e);
      ComplainArrives(k, y, c, ok2, e, f.tag);
    }
  }

  lemma ChatRefused(k: Crypto.Suite, y: System, c: nat, ok: bool, ok2: bool)
    requires Enabled(k, y, Arrive(c, ok, ok2)) && y.peers[c].up[0].pkt.ChatSend?
    requires y.server.sessions[c].phase == StEstablished
    requires var n := y.peers[c].up[0].pkt.name; n !in y.server.registry || y.server.registry[n].stream.None?
    requires Inv(k, y)
    ensures Inv(k, ArriveStep(y, c, ok, ok2))
  {
    hide S.OnHello, S.OnAuthReq, S.OnKeyReq, S.OnBye, ArriveStep, SP.Inv, Link, LogInv, CredOk, Text, SystemSpec.Post, ReplyOk, MessageOk;
    var p := y.peers[c];
    var f := p.up[0];
    var ss := y.server.sessions[c];
    var s' := S.OnChatSend(y.server, c, c, f.pkt, ok, ok2).server;
    SP.ChatSendKeeps(y.server, c, c, f.pkt, ok, ok2);
    if ok {
      var e := Error(ss.id, E_USER_NOT_FOUND, Text("recipient not online"));
      ArriveAnswers(y, c, ok, ok2, ok, e);
      NotFoundArrives(k, y, c, s', e, f.tag);
    } else {
      ArriveSilent(y, c, ok, ok2);
      assert s'.sessions[c] == ss;
      PopUp(k, c, p, ss, y.history, y.replies);
      OwnMove(k, y, c, s', y.peers[c].(up := y.peers[c].up[1..]));
    }
  }

  lemma ArriveKeeps(k: Crypto.Suite, y: System, c: nat, ok: bool, ok2: bool)
    requires Enabled(k, y, Arrive(c, ok, ok2))
    requires Inv(k, y)
    ensures Inv(k, ArriveStep(y, c, ok, ok2))
  {
    hide Inv, ArriveStep;
    var q := y.peers[c].up[0].pkt;
    if q.Hello? { HelloArrives(k, y, c, ok, ok2); }
    else if q.AuthReq? { AuthReqArrives(k, y, c, ok, ok2); }
    else if q.KeyReq? { KeyReqArrives(k, y, c, ok, ok2); }
    else if q.ChatSend? { ChatSendArrives(k, y, c, ok, ok2); }
    else if q.Bye? { ByeArrives(k, y, c, ok, ok2); }
    else { IgnoredArrives(k, y, c, ok, ok2); }
  }

  // ---------- other steps of the server ----------

  /** A step that changes only c's session, in a way the link does not notice. */
  lemma SessionAges(k: Crypto.Suite, y: System, c: nat, s': S.Server)
    requires c in y.peers && SP.Inv(s') && SP.Replaces(y.server, s', c) && Ages(y.server.sessions[c], s'.sessions[c])
    requires Inv(k, y)
    ensures Inv(k, y.(server := s'))
  {
    hide SP.Inv, Link, LogInv, ReplyOk, MessageOk;
    Age(k, c, y.peers[c], y.server.sessions[c], s'.sessions[c], y.history, y.replies);
    assert CredOk(y.users, y.server.sessions[c]);
    Assemble(k, y, y.(server := s'), c);
  }

  lemma CloseStreamKeeps(k: Crypto.Suite, y: System, c: nat)
    requires S.Live(y.server, c)
    requires Inv(k, y)
    ensures Inv(k, y.(server := S.OnStreamClosed(y.server, c)))
  {
    hide SP.Inv, Link, LogInv, CredOk;
    SP.SameButGhost(y.server, S.OnStreamClosed(y.server, c), c);
    SessionAges(k, y, c, S.OnStreamClosed(y.server, c));
  }

  lemma DropKeeps(k: Crypto.Suite, y: System, c: nat)
    requires S.Live(y.server, c)
    requires Inv(k, y)
    ensures Inv(k, y.(server := S.OnDisconnected(y.server, c)))
  {
    hide SP.Inv, Link, LogInv, CredOk;
    SP.DisconnectKeeps(y.server, c);
    SessionAges(k, y, c, S.OnDisconnected(y.server, c));
  }

  /** Admission checked the submitted hash against the users file. */
  lemma AdmittedCred(y: System, s': S.Server, junk: seq<byte>, ok: bool, c: nat)
    requires y.server.queue != [] && c == y.server.queue[0] && SP.HeadOk(y.server) && |junk| == HASH_LEN
    requires !y.server.sessions[c].closed && s' == S.Work(y.server, y.users, junk, ok).server
    ensures CredOk(y.users, s'.sessions[c])
  {
    hide Verify, CString, S.Answer;
  }

  lemma WorkShape(y: System, junk: seq<byte>, ok: bool, c: nat)
    requires y.server.queue != [] && c == y.server.queue[0] && SP.HeadOk(y.server) && c in y.peers && |junk| == HASH_LEN
    requires !y.server.sessions[c].closed
    requires y.server.sessions[c].authStream.Some? ==> y.server.sessions[c].authStream.value == c
    ensures var ss := y.server.sessions[c];
            var admitted := S.Admits(y.server, ss.(queued := false), y.users, junk);
            WorkStep(y, junk, ok).peers == y.peers[c := y.peers[c].(down := Push(y.peers[c].down, ok && ss.authStream.Some?,
                                       AuthResp(ss.id, if admitted then AUTH_OK else AUTH_INVALID), 0))]
  {
    var ss := y.server.sessions[c];
    var admitted := S.Admits(y.server, ss.(queued := false), y.users, junk);
    PostTry(y.peers, c, ok && ss.authStream.Some?, AuthResp(ss.id, if admitted then AUTH_OK else AUTH_INVALID), 0);
  }

  lemma WorkKeeps(k: Crypto.Suite, y: System, junk: seq<byte>, ok: bool)
    requires y.server.queue != [] && |junk| == HASH_LEN
    requires Inv(k, y)
    ensures Inv(k, WorkStep(y, junk, ok))
  {
    hide SP.Inv, Link, LogInv, CredOk, SystemSpec.Post;
    var c := y.server.queue[0];
    var s' := S.Work(y.server, y.users, junk, ok).server;
    SP.InvHead(y.server);
    SP.WorkKeeps(y.server, y.users, junk, ok);
    assert c in y.peers;
    if y.server.sessions[c].closed {
      WorkFrees(k, y, junk, ok, c);
    } else {
      WorkAnswers(k, y, junk, ok, c, s');
    }
  }

  /** A session whose connection closed while it was queued is freed and nothing else happens. */
  lemma WorkFrees(k: Crypto.Suite, y: System, junk: seq<byte>, ok: bool, c: nat)
    requires y.server.queue != [] && c == y.server.queue[0] && c in y.peers && SP.HeadOk(y.server) && |junk| == HASH_LEN
    requires y.server.sessions[c].closed && SP.Inv(WorkStep(y, junk, ok).server)
    requires Inv(k, y)
    ensures Inv(k, WorkStep(y, junk, ok))
  {
    hide SP.Inv, Link, LogInv, ReplyOk, MessageOk;
    var ss := y.server.sessions[c];
    var s' := WorkStep(y, junk, ok).server;
    assert s'.sessions[c] == ss.(queued := false, life := S.Freed);
    Unqueue(k, c, y.peers[c], ss, s'.sessions[c], y.history, y.replies);
    assert CredOk(y.users, ss);
    Assemble(k, y, WorkStep(y, junk, ok), c);
  }

  lemma Unqueue(k: Crypto.Suite, c: nat, p: Peer, ss: S.Session, ss': S.Session, history: seq<Message>, replies: seq<Reply>)
    requires Link(k, c, p, ss, history, replies) && ss' == ss.(queued := false, life := S.Freed)
    ensures Link(k, c, p, ss', history, replies)
  {
    assert RespLink(p, ss');
    assert FetchLink(c, p, ss', replies);
  }

  lemma OwnStream(k: Crypto.Suite, y: System, c: nat)
    requires c in y.peers
    requires Inv(k, y)
    ensures y.server.sessions[c].authStream.Some? ==> y.server.sessions[c].authStream.value == c
  {
    assert Link(k, c, y.peers[c], y.server.sessions[c], y.history, y.replies);
  }

  lemma WorkAnswers(k: Crypto.Suite, y: System, junk: seq<byte>, ok: bool, c: nat, s': S.Server)
    requires y.server.queue != [] && c == y.server.queue[0] && c in y.peers && SP.HeadOk(y.server) && |junk| == HASH_LEN
    requires !y.server.sessions[c].closed && s' == WorkStep(y, junk, ok).server && SP.Inv(s')
    requires Inv(k, y)
    ensures Inv(k, WorkStep(y, junk, ok))
  {
    hide SP.Inv, Link, LogInv, ReplyOk, MessageOk, SystemSpec.Post, S.Admits, CredOk;
    var p := y.peers[c];
    var ss := y.server.sessions[c];
    var admitted := S.Admits(y.server, ss.(queued := false), y.users, junk);
    var answered := ok && ss.authStream.Some?;
    var f := Flight(AuthResp(ss.id, if admitted then AUTH_OK else AUTH_INVALID), 0);
    OwnStream(k, y, c);
    WorkShape(y, junk, ok, c);
    WorkMove(k, c, p, ss, s'.sessions[c], y.history, y.replies, admitted, answered, f);
    AdmittedCred(y, s', junk, ok, c);
    OwnMove(k, y, c, s', p.(down := Push(p.down, answered, f.pkt, 0)));
  }

  lemma StopKeeps(k: Crypto.Suite, y: System, lost: set<nat>)
    requires Inv(k, y)
    ensures Inv(k, StopStep(y, lost))
  {
    hide SP.Inv, Link, ReplyOk, MessageOk, CredOk, LogInv, OnAir;
    var y' := StopStep(y, lost);
    SP.StopKeeps(y.server);
    forall c | c in y.peers
      ensures Link(k, c, y'.peers[c], y'.server.sessions[c], y'.history, y'.replies)
      ensures SameId(y.peers[c], y'.peers[c])
    {
      if OnAir(y.server, c) && c !in lost {
        PushDown(k, c, y.peers[c], y.server.sessions[c], y.history, y.replies, Flight(Bye(0), 0));
      }
    }
    LogsKeep(k, y, y');
  }

  lemma AddAccountKeeps(k: Crypto.Suite, y: System, u: User)
    requires Inv(k, y)
    ensures Inv(k, AddAccountStep(y, u))
  {
    hide SP.Inv, Link, ReplyOk, MessageOk, CredOk, AddUser, Terminated, LogInv;
    AddExtendsOrNot(y.users, u);
    var y' := AddAccountStep(y, u);
    forall c | c in y'.peers
      ensures CredOk(y'.users, y'.server.sessions[c])
    {
      CredStays(y.users, u, y.server.sessions[c]);
    }
    LogsKeep(k, y, y');
  }

  lemma AddExtendsOrNot(users: seq<byte>, u: User)
    requires Terminated(users)
    ensures AddUser(users, u.name, u.hash).Some? ==> Terminated(AddUser(users, u.name, u.hash).value)
  {
    AddExtends(users, u.name, u.hash);
  }

  /** A login that verifies goes on verifying, whatever the tool appends. */
  lemma CredStays(users: seq<byte>, u: User, ss: S.Session)
    requires Terminated(users) && CredOk(users, ss)
    ensures AddUser(users, u.name, u.hash).Some? ==> CredOk(AddUser(users, u.name, u.hash).value, ss)
  {
    hide Verify, Fields, AddUser;
    if AddUser(users, u.name, u.hash).Some? && ss.phase.Rank() >= 3 {
      var junk :| |junk| == HASH_LEN && Verify(users, CString(ss.authName), ss.authHash, junk);
      FileIsMap(users, CString(ss.authName), ss.authHash, junk);
      AddKeepsVerified(users, u.name, u.hash, CString(ss.authName), ss.authHash, junk);
    }
  }

  lemma FreshCounts(f: Flight)
    requires KindOf(f.pkt) == KOther
    ensures forall kind: Kind | kind != KOther :: Count([f], kind) == 0 && Count([], kind) == 0
  {
    assert [f][1..] == [];
  }

  lemma FreshLink(k: Crypto.Suite, c: nat, ok: bool, history: seq<Message>, replies: seq<Reply>)
    ensures Link(k, c, Peer(C.Init(), Push([], ok, C.HelloPacket(), 0), [], None, 0, []), S.FreshSession(), history, replies)
  {
    hide Count, AuthLink, RespLink, FetchLink;
    var f := Flight(C.HelloPacket(), 0);
    FreshCounts(f);
    var p := Peer(C.Init(), Push([], ok, C.HelloPacket(), 0), [], None, 0, []);
    assert forall g | g in p.up :: g == f;
    FreshParts(k, c, p, f, replies);
  }

  lemma FreshParts(k: Crypto.Suite, c: nat, p: Peer, f: Flight, replies: seq<Reply>)
    requires f.pkt.Hello? && (p.up == [] || p.up == [f]) && p.down == []
    requires p.cl == C.Init() && p.keyReply.None? && p.asked == 0
    ensures AuthLink(p, S.FreshSession()) && RespLink(p, S.FreshSession()) && FetchLink(c, p, S.FreshSession(), replies)
  {
    hide Count;
    FreshCounts(f);
    assert forall g | g in p.up :: g == f;
  }

  lemma OpenKeeps(k: Crypto.Suite, y: System, c: nat, ok: bool)
    requires c !in y.peers && c !in y.server.sessions
    requires Inv(k, y)
    ensures Inv(k, OpenStep(y, c, ok))
  {
    hide SP.Inv, Link, ReplyOk, MessageOk, LogInv;
    var y' := OpenStep(y, c, ok);
    SP.ConnectKeeps(y.server, c);
    FreshLink(k, c, ok, y.history, y.replies);
    LogsKeep(k, y, y');
    forall d | d in y'.peers
      ensures Link(k, d, y'.peers[d], y'.server.sessions[d], y'.history, y'.replies)
      ensures CredOk(y'.users, y'.server.sessions[d])
    {
      if d != c {
        assert CredOk(y.users, y.server.sessions[d]);
      }
    }
  }

  // ---------- steps of a client ----------

  lemma TakeSameId(k: Crypto.Suite, p: Peer, ok: bool)
    requires CanTake(p)
    ensures SameId(p, TakePeer(k, p, ok))
  {
  }

  /** What goes out is sealed to the key that was fetched, and is logged as such. */
  lemma TellKeeps(k: Crypto.Suite, y: System, c: nat, eph: seq<byte>, nonce: seq<byte>, sealed: bool, ok: bool)
    requires c in y.peers && y.peers[c].cl.pc.Fetching? && y.peers[c].cl.keySem > 0
    requires |nonce| == NONCE_LEN && |k.pub(eph)| == KEY_LEN
    requires Crypto.Lawful(k)
    requires Inv(k, y)
    ensures Inv(k, TellStep(k, y, c, eph, nonce, sealed, ok))
  {
    hide SP.Inv, Link, LogInv, CredOk;
    var p := y.peers[c];
    var ss := y.server.sessions[c];
    var p1 := p.(cl := C.Resume(p.cl));
    ResumeMove(k, c, p, ss, y.history, y.replies);
    var pkt := C.ChatPacket(k, p.cl, eph, nonce);
    if sealed && ok && pkt.Some? {
      var m := Message(c, p.cl.name, p.cl.pc.recipient, p.cl.pc.text, p.cl.keyResult, eph, nonce, p.keyReply, p.asked, pkt.value);
      TellMessage(k, y, c, m);
      PushUpChat(k, c, p1, ss, y.history, y.replies, m);
      var y' := TellStep(k, y, c, eph, nonce, sealed, ok);
      assert y.server.sessions == y.server.sessions[c := ss];
      assert MessageOk(k, y'.peers, y'.replies, m);
      assert CredOk(y.users, ss);
      Assemble(k, y, y', c);
    } else {
      Local(k, y, c, p1);
    }
  }

  lemma TellMessage(k: Crypto.Suite, y: System, c: nat, m: Message)
    requires c in y.peers && y.peers[c].cl.pc.Fetching? && Crypto.Lawful(k) && |m.nonce| == NONCE_LEN
    requires var p := y.peers[c];
             && C.ChatPacket(k, p.cl, m.eph, m.nonce).Some?
             && m == Message(c, p.cl.name, p.cl.pc.recipient, p.cl.pc.text, p.cl.keyResult, m.eph, m.nonce,
                             p.keyReply, p.asked, C.ChatPacket(k, p.cl, m.eph, m.nonce).value)
    requires Inv(k, y)
    ensures MessageOk(k, y.peers, y.replies, m)
  {
    hide SP.Inv, LogInv, CredOk, PhaseLink, AuthLink, RespLink, KeyLink, ChatLink;
    var p := y.peers[c];
    assert Link(k, c, p, y.server.sessions[c], y.history, y.replies);
    assert |m.pkt.ct| == |m.text| + TAG_LEN;
  }

  /** Every step of the composed system keeps the invariant. */
  lemma StepKeeps(k: Crypto.Suite, y: System, e: Event)
    requires Crypto.Lawful(k) && Enabled(k, y, e)
    requires Inv(k, y)
    ensures Inv(k, Step(k, y, e))
  {
    hide SP.Inv, Link, LogInv, CredOk, ArriveStep, WorkStep, StopStep, TellStep, AddAccountStep, OpenStep, TakePeer;
    match e
    case Open(c, ok) => OpenKeeps(k, y, c, ok);
    case Arrive(c, ok, ok2) => ArriveKeeps(k, y, c, ok, ok2);
    case Work(junk, ok) => WorkKeeps(k, y, junk, ok);
    case CloseStream(c) => CloseStreamKeeps(k, y, c);
    case Drop(c) => DropKeeps(k, y, c);
    case Stop(lost) => StopKeeps(k, y, lost);
    case AddAccount(u) => AddAccountKeeps(k, y, u);
    case Tell(c, eph, nonce, sealed, ok) => TellKeeps(k, y, c, eph, nonce, sealed, ok);
    case _ => ClientKeeps(k, y, e);
  }

  lemma ClientKeeps(k: Crypto.Suite, y: System, e: Event)
    requires e.Take? || e.Login? || e.EnterChat? || e.Ask? || e.GiveUp? || e.Quit?
    requires Crypto.Lawful(k) && Enabled(k, y, e)
    requires Inv(k, y)
    ensures Inv(k, Step(k, y, e))
  {
    hide Inv, TakePeer, Crypto.Lawful;
    if e.Take? || e.Login? {
      TakeOrLoginKeeps(k, y, e);
    } else {
      PromptKeeps(k, y, e);
    }
  }

  lemma TakeOrLoginKeeps(k: Crypto.Suite, y: System, e: Event)
    requires e.Take? || e.Login?
    requires Crypto.Lawful(k) && Enabled(k, y, e)
    requires Inv(k, y)
    ensures Inv(k, Step(k, y, e))
  {
    hide SP.Inv, Link, LogInv, CredOk, Terminated, TakePeer, Crypto.Lawful;
    var c := e.c;
    var p := y.peers[c];
    var ss := y.server.sessions[c];
    match e
    case Take(_, ok) =>
      TakeSameId(k, p, ok);
      TakeMove(k, c, p, ss, y.history, y.replies, ok);
      Local(k, y, c, TakePeer(k, p, ok));
    case Login(_, name, hash, priv, ok) =>
      LoginMove(k, c, p, ss, y.history, y.replies, name, hash, priv, ok);
      Local(k, y, c, LoginPeer(k, p, name, hash, priv, ok));
  }

  lemma PromptKeeps(k: Crypto.Suite, y: System, e: Event)
    requires e.EnterChat? || e.Ask? || e.GiveUp? || e.Quit?
    requires Enabled(k, y, e)
    requires Inv(k, y)
    ensures Inv(k, Step(k, y, e))
  {
    hide SP.Inv, Link, LogInv, CredOk, Terminated, TakePeer;
    var c := e.c;
    var p := y.peers[c];
    var ss := y.server.sessions[c];
    match e
    case EnterChat(_) =>
      EnterChatMove(k, c, p, ss, y.history, y.replies);
      Local(k, y, c, p.(cl := C.EnterChat(p.cl)));
    case Ask(_, recipient, text, ok) =>
      AskMove(k, c, p, ss, y.history, y.replies, recipient, text, ok);
      Local(k, y, c, AskPeer(p, recipient, text, ok, |y.replies|));
    case GiveUp(_) =>
      GiveUpMove(k, c, p, ss, y.history, y.replies);
      Local(k, y, c, p.(cl := C.GiveUp(p.cl)));
    case Quit(_, ok) =>
      QuitMove(k, c, p, ss, y.history, y.replies, ok);
      Local(k, y, c, p.(cl := p.cl.(pc := C.Done), up := Push(p.up, ok, Bye(p.cl.id), 0)));
  }

  lemma {:induction false} RunInv(k: Crypto.Suite, states: seq<System>, events: seq<Event>, i: nat)
    requires Crypto.Lawful(k) && Run(k, states, events) && i < |states|
    ensures Inv(k, states[i])
  {
    hide Inv, Step, Enabled;
    if i == 0 {
      InitInv(k, states[0].users);
    } else {
      RunInv(k, states, events, i - 1);
      StepKeeps(k, states[i - 1], events[i - 1]);
    }
  }
}
