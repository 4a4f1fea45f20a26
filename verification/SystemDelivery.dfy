/**
 Messages do get through: from every reachable state in which two users are logged in and nothing is in
 flight between them, the six steps of one message are possible in turn and end with the text on the
 recipient's screen.
 */
module SystemDelivery {
  import opened Bytes
  import opened Wire
  import opened Phases
  import opened SystemSpec
  import opened SystemLinks
  import opened SystemProofs
  import opened SystemPaths
  import opened SystemLogin
  import opened SystemStale
  import T = SystemTheorems
  import U = UsersFile
  import S = ServerSpec
  import C = ClientSpec
  import Crypto

  /** Client `s` is at the prompt, `n` is listed with a stream and has not quit, and the channels they would use are empty. */
  predicate Ready(y: System, s: nat, n: seq<byte>) {
    && s in y.peers && S.Live(y.server, s) && y.server.sessions[s].phase == StEstablished
    && y.peers[s].cl.pc.Idle? && y.peers[s].up == [] && y.peers[s].down == [] && y.peers[s].cl.keySem == 0
    && 1 <= |n| <= USERNAME_MAX && n in y.server.registry && y.server.registry[n].stream.Some?
    && var d := y.server.registry[n].owner;
       d in y.peers && y.peers[d].down == [] && !y.peers[d].cl.pc.Done? && d in y.server.sessions
  }

  /** The client asks for the recipient's key. */
  lemma Asks(k: Crypto.Suite, y: System, s: nat, n: seq<byte>, text: seq<byte>)
    requires s in y.peers && y.peers[s].cl.pc.Idle? && y.peers[s].up == []
    requires 1 <= |n| <= USERNAME_MAX && 1 <= |text| <= C.TEXT_MAX
    ensures Enabled(k, y, Ask(s, n, text, true))
    ensures var p := y.peers[s];
            Step(k, y, Ask(s, n, text, true)) ==
            y.(peers := y.peers[s := p.(cl := p.cl.(pc := C.Fetching(n, text)),
                                        up := [Flight(KeyReq(p.cl.id, n), 0)], asked := |y.replies|)])
  {
    assert y.peers[s].up + [Flight(KeyReq(y.peers[s].cl.id, n), 0)] == [Flight(KeyReq(y.peers[s].cl.id, n), 0)];
  }

  /** The server answers with the listed key. */
  lemma Answers(k: Crypto.Suite, y: System, s: nat, q: Packet)
    requires s in y.peers && S.Live(y.server, s) && y.server.sessions[s].phase == StEstablished
    requires q.KeyReq? && WellFormed(q) && q.name in y.server.registry
    requires y.peers[s].up == [Flight(q, 0)] && y.peers[s].down == []
    ensures Enabled(k, y, Arrive(s, true, true))
    ensures var p := y.peers[s]; var e := y.server.registry[q.name];
            Step(k, y, Arrive(s, true, true)) ==
            y.(peers := y.peers[s := p.(up := [], down := [Flight(KeyResp(q.id, q.name, 32, e.key), |y.replies|)])],
               replies := y.replies + [Reply(s, q.name, e.key, e.owner)])
  {
    hide Text;
    var p, e := y.peers[s], y.server.registry[q.name];
    var p1 := p.(up := p.up[1..]);
    assert p1.up == [];
    PostTry(y.peers[s := p1], s, true, KeyResp(q.id, q.name, 32, e.key), |y.replies|);
    assert p1.down + [Flight(KeyResp(q.id, q.name, 32, e.key), |y.replies|)]
        == [Flight(KeyResp(q.id, q.name, 32, e.key), |y.replies|)];
  }

  /** The client stores the key and posts its semaphore. */
  lemma Learns(k: Crypto.Suite, y: System, s: nat, a: Packet, tag: nat)
    requires s in y.peers && a.KeyResp? && a.keyLen == 32 && WellFormed(a) && !y.peers[s].cl.pc.Done?
    requires y.peers[s].down == [Flight(a, tag)]
    ensures Enabled(k, y, Take(s, true))
    ensures var p := y.peers[s];
            Step(k, y, Take(s, true)) ==
            y.(peers := y.peers[s := p.(down := [], keyReply := Some(tag),
                                        cl := p.cl.(keyResult := a.key, keySem := p.cl.keySem + 1))])
  {
    assert y.peers[s].down[1..] == [];
  }

  /** The message as send_chat logs and sends it. */
  function Outgoing(k: Crypto.Suite, p: Peer, s: nat, eph: seq<byte>, nonce: seq<byte>): Message
    requires p.cl.pc.Fetching? && |k.pub(eph)| == KEY_LEN
  {
    Message(s, p.cl.name, p.cl.pc.recipient, p.cl.pc.text, p.cl.keyResult, eph, nonce, p.keyReply, p.asked,
            ChatSend(p.cl.id, p.cl.pc.recipient, 32, Pad(k.pub(eph), ENC_KEY_FIELD), nonce,
                     Crypto.Encrypt(k, p.cl.keyResult, eph, nonce, p.cl.pc.text)))
  }

  lemma TellsWith(k: Crypto.Suite, y: System, s: nat, eph: seq<byte>, nonce: seq<byte>)
    requires s in y.peers && y.peers[s].cl.pc.Fetching? && y.peers[s].cl.keySem > 0 && y.peers[s].up == []
    requires y.peers[s].cl.keyResult != Zeros(KEY_LEN) && |k.pub(eph)| == KEY_LEN && |nonce| == NONCE_LEN
    ensures Enabled(k, y, Tell(s, eph, nonce, true, true))
    ensures var p := y.peers[s]; var m := Outgoing(k, p, s, eph, nonce);
            Step(k, y, Tell(s, eph, nonce, true, true)) ==
            y.(peers := y.peers[s := p.(cl := C.Resume(p.cl), up := [Flight(m.pkt, |y.history|)])],
               history := y.history + [m])
  {
    hide Crypto.Encrypt;
    var p := y.peers[s];
    var f := Flight(Outgoing(k, p, s, eph, nonce).pkt, |y.history|);
    assert p.up + [f] == [f];
  }

  /** The client takes an ERROR 0x01 as the answer to its key request. */
  lemma TakesNoKey(k: Crypto.Suite, y: System, s: nat, q: Packet, tag: nat)
    requires s in y.peers && !y.peers[s].cl.pc.Done? && WellFormed(q) && KindOf(q) == KNotFound
    requires y.peers[s].down == [Flight(q, tag)]
    ensures Enabled(k, y, Take(s, true))
    ensures var p := y.peers[s];
            Step(k, y, Take(s, true)) ==
            y.(peers := y.peers[s := p.(down := [], keyReply := None,
                                        cl := p.cl.(keyResult := Zeros(KEY_LEN), keySem := p.cl.keySem + 1))])
  {
    assert y.peers[s].down[1..] == [];
  }

  /** A wait that yields all zeros sends nothing. */
  lemma SendsNothing(k: Crypto.Suite, y: System, s: nat, nonce: seq<byte>)
    requires Crypto.Lawful(k) && s in y.peers && y.peers[s].cl.pc.Fetching? && y.peers[s].cl.keySem > 0
    requires y.peers[s].cl.keyResult == Zeros(KEY_LEN) && |nonce| == NONCE_LEN
    ensures Enabled(k, y, Tell(s, [], nonce, true, true))
    ensures Step(k, y, Tell(s, [], nonce, true, true)) == y.(peers := y.peers[s := y.peers[s].(cl := C.Resume(y.peers[s].cl))])
  {
    Crypto.Sizes(k, [], [], [], []);
  }

  // ---------- putting the steps together ----------

  /** A state in which message `m` of `s` has just gone out, sealed to the key listed under `n`, and nothing else changed. */
  ghost predicate JustSent(y: System, y': System, s: nat, n: seq<byte>, text: seq<byte>)
    requires Ready(y, s, n)
  {
    && |y'.history| == |y.history| + 1 && y'.server == y.server
    && |y'.replies| == |y.replies| + 1 && y'.replies[|y.replies|].login == y.server.registry[n].owner
    && y'.users == y.users
    && var m := y'.history[|y.history|];
       && m.senderName == y.peers[s].cl.name && m.text == text && m.recipient == n && m.reply == Some(|y.replies|)
       && m.pkt.ChatSend? && m.pkt.name == n
       && s in y'.peers && y'.peers == y.peers[s := y'.peers[s]]
       && y'.peers[s].up == [Flight(m.pkt, |y.history|)] && y'.peers[s].down == [] && y'.peers[s].shown == y.peers[s].shown
       && y'.peers[s].cl.pc.Idle? && y'.peers[s].cl.keySem == 0
  }

  /** Ask, answer, learn, tell. */
  lemma Sends(k: Crypto.Suite, y: System, s: nat, n: seq<byte>, text: seq<byte>, eph: seq<byte>, nonce: seq<byte>)
    returns (ys: seq<System>, es: seq<Event>)
    requires Crypto.Lawful(k) && Ready(y, s, n) && 1 <= |text| <= C.TEXT_MAX && |nonce| == NONCE_LEN
    requires Inv(k, y)
    ensures Path(k, ys, es) && |es| == 4 && ys[0] == y && JustSent(y, ys[4], s, n, text)
  {
    hide Inv, Step, Enabled, Crypto.Lawful, Crypto.Encrypt, Pad;
    ListedKeyUsable(k, y, n);
    Crypto.Sizes(k, [], eph, nonce, text);
    var id, key := y.peers[s].cl.id, y.server.registry[n].key;
    var e1, e2, e3, e4 := Ask(s, n, text, true), Arrive(s, true, true), Take(s, true), Tell(s, eph, nonce, true, true);
    Asks(k, y, s, n, text);
    var y1 := Step(k, y, e1);
    Answers(k, y1, s, KeyReq(id, n));
    var y2 := Step(k, y1, e2);
    Learns(k, y2, s, KeyResp(id, n, 32, key), |y.replies|);
    var y3 := Step(k, y2, e3);
    TellsWith(k, y3, s, eph, nonce);
    var y4 := Step(k, y3, e4);
    ys, es := [y, y1, y2, y3, y4], [e1, e2, e3, e4];
  }

  /** A listed key is 32 bytes and not the all-zero answer for "no such user". */
  lemma ListedKeyUsable(k: Crypto.Suite, y: System, n: seq<byte>)
    requires Crypto.Lawful(k) && n in y.server.registry
    requires Inv(k, y)
    ensures |y.server.registry[n].key| == KEY_LEN && y.server.registry[n].key != Zeros(KEY_LEN)
  {
    hide Inv, Zeros;
    ListedKey(k, y, n);
  }

  /** What `n` then sees: the text, unless the answer to its login was lost. */
  function Seen(y: System, s: nat, n: seq<byte>, text: seq<byte>): C.Display
    requires Ready(y, s, n)
  {
    if y.server.sessions[y.server.registry[n].owner].respLost then C.WrongState else C.Shows(y.peers[s].cl.name, text)
  }

  /** The server forwards the message into the recipient's channel. */
  lemma Forwarded(k: Crypto.Suite, y: System, y4: System, s: nat, n: seq<byte>, text: seq<byte>)
    returns (y5: System)
    requires Ready(y, s, n) && JustSent(y, y4, s, n, text)
    requires Inv(k, y4)
    ensures Enabled(k, y4, Arrive(s, true, true)) && y5 == Step(k, y4, Arrive(s, true, true))
    ensures y5.server == y.server && y5.history == y4.history && y5.replies == y4.replies
    ensures var d := y.server.registry[n].owner;
            && d in y5.peers && CanTake(y5.peers[d]) && y5.peers[d].shown == y.peers[d].shown
            && y5.peers[d].down[0].pkt.ChatDeliver? && y5.peers[d].down[0].tag == |y.history|
    ensures Inv(k, y5)
  {
    hide Inv, ArriveStep;
    var d, g := ChatForwarded(k, y4, s, true);
    y5 := Delivered(y4, s, d, g);
    assert y5.peers[d].down == [g];
    Fits(k, y5, d, g);
  }

  /** Forward, take. */
  lemma Arrives(k: Crypto.Suite, y: System, y4: System, s: nat, n: seq<byte>, text: seq<byte>)
    returns (y5: System)
    requires Crypto.Lawful(k) && Ready(y, s, n) && JustSent(y, y4, s, n, text)
    requires Inv(k, y4)
    ensures Enabled(k, y4, Arrive(s, true, true)) && y5 == Step(k, y4, Arrive(s, true, true)) && y5.server == y.server
    ensures var d := y.server.registry[n].owner;
            && Enabled(k, y5, Take(d, true)) && d in y5.peers && y5.peers[d].down != [] && y5.peers[d].down[0].pkt.ChatDeliver?
            && d in Step(k, y5, Take(d, true)).peers
            && Step(k, y5, Take(d, true)).peers[d].shown == y.peers[d].shown + [Shown(|y.history|, Seen(y, s, n, text))]
  {
    hide Inv, ArriveStep, TakePeer, Crypto.Lawful;
    y5 := Forwarded(k, y, y4, s, n, text);
    var d := y.server.registry[n].owner;
    T.TakeShows(k, y5, d, true);
    TakeDrops(k, y5, d);
  }

  lemma TakeDrops(k: Crypto.Suite, y: System, d: nat)
    requires d in y.peers && d in y.server.sessions && CanTake(y.peers[d]) && y.peers[d].down[0].pkt.ChatDeliver?
    requires Inv(k, y)
    ensures y.server.sessions[d].respLost ==>
              TakePeer(k, y.peers[d], true).shown == y.peers[d].shown + [Shown(y.peers[d].down[0].tag, C.WrongState)]
  {
    hide Inv;
    T.DeliverState(k, y, d);
  }

  /**
   Every run that ends with `s` at the prompt, `n` listed and not gone, and their channels empty can go on so that
   the next thing `n` is shown is the text, whatever it is, under the name of `s`; or the complaint about its
   state, exactly if the answer to its login was lost.
   */
  lemma MessageGetsThrough(k: Crypto.Suite, states: seq<System>, events: seq<Event>, s: nat, n: seq<byte>,
                           text: seq<byte>, eph: seq<byte>, nonce: seq<byte>)
    returns (ys: seq<System>, es: seq<Event>)
    requires Crypto.Lawful(k) && Run(k, states, events) && 1 <= |text| <= C.TEXT_MAX && |nonce| == NONCE_LEN
    requires Ready(states[|events|], s, n)
    ensures Path(k, ys, es) && |es| == 6 && ys[0] == states[|events|]
    ensures var y := states[|events|]; var d := y.server.registry[n].owner;
            && d in ys[6].peers && ys[6].peers[d].shown == y.peers[d].shown + [Shown(|y.history|, Seen(y, s, n, text))]
            && ys[5].server == y.server && d in ys[5].peers && ys[5].peers[d].down != [] && ys[5].peers[d].down[0].pkt.ChatDeliver?
  {
    hide Inv, Step, Enabled, JustSent, Crypto.Lawful, Seen;
    var y := states[|events|];
    RunInv(k, states, events, |events|);
    ys, es := Sends(k, y, s, n, text, eph, nonce);
    PathKeeps(k, ys, es, 4);
    var d := y.server.registry[n].owner;
    var y5 := Arrives(k, y, ys[4], s, n, text);
    PathGrows(k, ys, es, Arrive(s, true, true));
    ys, es := ys + [y5], es + [Arrive(s, true, true)];
    PathGrows(k, ys, es, Take(d, true));
    ys, es := ys + [Step(k, y5, Take(d, true))], es + [Take(d, true)];
  }

  // ---------- from the very beginning ----------

  /** A user's name, the hash of its password, the key pair it will choose, and what non-hexadecimal digits decode to. */
  datatype Account = Account(name: seq<byte>, hash: seq<byte>, priv: seq<byte>, junk: seq<byte>)

  /** The account is in the file and its name can be typed at the client. */
  predicate Has(users: seq<byte>, a: Account) {
    && |a.junk| == HASH_LEN && U.Verify(users, a.name, a.hash, a.junk)
    && 1 <= |a.name| <= USERNAME_MAX && 0 !in a.name && |a.hash| == HASH_LEN
  }

  /** Client 1 is listed as `b`, answered or not; then client 0 logs in as `a`. */
  lemma BothLogIn(k: Crypto.Suite, users: seq<byte>, a: Account, b: Account, answered: bool)
    returns (ys: seq<System>, es: seq<Event>)
    requires Crypto.Lawful(k) && U.Terminated(users) && a.name != b.name && Has(users, a) && Has(users, b)
    ensures Path(k, ys, es) && |es| == (if answered then 16 else 14) && ys[0] == Init(users)
    ensures var y := ys[|es|];
            && Ready(y, 0, b.name) && y.server.registry[b.name].owner == 1 && y.history == []
            && y.peers[0].cl.name == a.name && y.peers[1].shown == [] && y.server.sessions[1].respLost == !answered
  {
    hide Inv, Step, Enabled, U.Verify, U.Terminated, Crypto.Lawful;
    var y := Init(users);
    InitInv(k, users);
    if answered {
      ys, es := AccountCanLogIn(k, y, 1, b.name, b.hash, b.junk, b.priv);
    } else {
      ys, es := CanBeListed(k, y, 1, b.name, b.hash, b.junk, b.priv, false);
    }
    PathKeeps(k, ys, es, |es|);
    var zs, fs := AccountCanLogIn(k, ys[|es|], 0, a.name, a.hash, a.junk, a.priv);
    PathJoins(k, ys, es, zs, fs);
    ys, es := ys + zs[1..], es + fs;
  }

  lemma FirstMessage(k: Crypto.Suite, users: seq<byte>, a: Account, b: Account, answered: bool,
                     text: seq<byte>, eph: seq<byte>, nonce: seq<byte>)
    returns (states: seq<System>, events: seq<Event>)
    requires Crypto.Lawful(k) && U.Terminated(users) && a.name != b.name && Has(users, a) && Has(users, b)
    requires 1 <= |text| <= C.TEXT_MAX && |nonce| == NONCE_LEN
    ensures Run(k, states, events) && |events| == (if answered then 22 else 20) && states[0] == Init(users)
    ensures var y, z := states[|events| - 1], states[|events|];
            && 1 in y.peers && y.peers[1].down != [] && y.peers[1].down[0].pkt.ChatDeliver?
            && 1 in y.server.sessions && y.server.sessions[1].respLost == !answered
            && 1 in z.peers && z.peers[1].shown == [Shown(0, if answered then C.Shows(a.name, text) else C.WrongState)]
  {
    hide Step, Enabled, U.Terminated, Crypto.Lawful, Has;
    var xs, ds := BothLogIn(k, users, a, b, answered);
    PathIsRun(k, xs, ds);
    var ys, es := MessageGetsThrough(k, xs, ds, 0, b.name, text, eph, nonce);
    RunGoesOn(k, xs, ds, ys, es);
    states, events := xs + ys[1..], ds + es;
    assert states[|events| - 1] == ys[5];
  }

  /** Any two users with accounts can talk: a run from the start leads to the first message on the other's screen. */
  lemma AnyTwoUsersCanTalk(k: Crypto.Suite, users: seq<byte>, a: Account, b: Account,
                           text: seq<byte>, eph: seq<byte>, nonce: seq<byte>)
    returns (states: seq<System>, events: seq<Event>)
    requires Crypto.Lawful(k) && U.Terminated(users) && a.name != b.name && Has(users, a) && Has(users, b)
    requires 1 <= |text| <= C.TEXT_MAX && |nonce| == NONCE_LEN
    ensures Run(k, states, events) && |events| == 22 && states[0] == Init(users)
    ensures 1 in states[22].peers && states[22].peers[1].shown == [Shown(0, C.Shows(a.name, text))]
  {
    hide Step, Enabled, U.Terminated, Crypto.Lawful, Has;
    states, events := FirstMessage(k, users, a, b, true, text, eph, nonce);
  }

  /** A lost AUTH_RESP does get a chat dropped for state: the run that shows it, for any two users and any text. */
  lemma LostAnswerDropsChat(k: Crypto.Suite, users: seq<byte>, a: Account, b: Account,
                            text: seq<byte>, eph: seq<byte>, nonce: seq<byte>)
    returns (states: seq<System>, events: seq<Event>)
    requires Crypto.Lawful(k) && U.Terminated(users) && a.name != b.name && Has(users, a) && Has(users, b)
    requires 1 <= |text| <= C.TEXT_MAX && |nonce| == NONCE_LEN
    ensures Run(k, states, events) && |events| == 20 && states[0] == Init(users)
    ensures 1 in states[19].peers && states[19].peers[1].down != [] && states[19].peers[1].down[0].pkt.ChatDeliver?
    ensures 1 in states[19].server.sessions && states[19].server.sessions[1].respLost
    ensures 1 in states[20].peers && states[20].peers[1].shown == [Shown(0, C.WrongState)]
  {
    hide Step, Enabled, U.Terminated, Crypto.Lawful, Has;
    states, events := FirstMessage(k, users, a, b, false, text, eph, nonce);
  }
}
