/**
 Logging in works: from every reachable state with no login pending, a user with an account who is not
 logged in gets from opening a connection to the prompt in eight steps, listed under the new key.
 */
module SystemLogin {
  import opened Bytes
  import opened Wire
  import opened Phases
  import opened SystemSpec
  import opened SystemLinks
  import opened SystemProofs
  import opened SystemPaths
  import U = UsersFile
  import Registry
  import S = ServerSpec
  import SP = ServerProofs
  import C = ClientSpec
  import Crypto

  // ---------- the eight steps ----------

  lemma Opens(k: Crypto.Suite, y: System, c: nat)
    requires c !in y.peers && c !in y.server.sessions
    ensures Enabled(k, y, Open(c, true))
    ensures Step(k, y, Open(c, true)) ==
            y.(server := y.server.(sessions := y.server.sessions[c := S.FreshSession()]),
               peers := y.peers[c := Peer(C.Init(), [Flight(C.HelloPacket(), 0)], [], None, 0, [])])
  {
    assert [] + [Flight(C.HelloPacket(), 0)] == [Flight(C.HelloPacket(), 0)];
  }

  /** A client whose only packet in flight is `q`, on its way up. */
  predicate OnlyUp(y: System, c: nat, q: Packet) {
    c in y.peers && S.Live(y.server, c) && WellFormed(q) && y.peers[c].up == [Flight(q, 0)] && y.peers[c].down == []
  }

  /** The server takes `q` and answers at most with `a`. */
  lemma ServerAnswers(k: Crypto.Suite, y: System, c: nat, q: Packet, answered: bool, a: Packet)
    requires OnlyUp(y, c, q) && !q.KeyReq?
    requires S.OnRecv(y.server, c, c, q, true, true).sends == S.Try(answered, c, a)
    ensures Enabled(k, y, Arrive(c, true, true))
    ensures Step(k, y, Arrive(c, true, true)) ==
            y.(server := S.OnRecv(y.server, c, c, q, true, true).server,
               peers := y.peers[c := y.peers[c].(up := [], down := if answered then [Flight(a, 0)] else [])])
  {
    hide S.OnRecv;
    ArriveAnswers(y, c, true, true, answered, a);
    var p := y.peers[c];
    assert p.up[1..] == [] && p.down + [Flight(a, 0)] == [Flight(a, 0)];
  }

  lemma Greets(k: Crypto.Suite, y: System, c: nat)
    requires OnlyUp(y, c, C.HelloPacket()) && y.server.sessions[c].phase == StHello
    ensures Enabled(k, y, Arrive(c, true, true))
    ensures var s := y.server;
            Step(k, y, Arrive(c, true, true)) ==
            y.(server := s.(sessions := s.sessions[c := s.sessions[c].(id := s.nextId, phase := StAuth, serial := |s.accepted|)],
                            nextId := (s.nextId + 1) % S.ID_SPACE, accepted := s.accepted + [c]),
               peers := y.peers[c := y.peers[c].(up := [], down := [Flight(HelloAck(s.nextId, 1), 0)])])
  {
    var q := C.HelloPacket();
    assert 0 < q.numVersions && q.versions[0] == 1;
    ServerAnswers(k, y, c, q, true, HelloAck(y.server.nextId, 1));
  }

  /** A client whose only packet in flight is `q`, on its way down. */
  predicate OnlyDown(y: System, c: nat, q: Packet) {
    && c in y.peers && WellFormed(q) && y.peers[c].up == [] && y.peers[c].down == [Flight(q, 0)]
    && !y.peers[c].cl.pc.Done?
  }

  lemma Welcomed(k: Crypto.Suite, y: System, c: nat, q: Packet)
    requires OnlyDown(y, c, q) && (q.HelloAck? || q.AuthResp?)
    ensures Enabled(k, y, Take(c, true))
    ensures Step(k, y, Take(c, true)) ==
            y.(peers := y.peers[c := y.peers[c].(down := [], cl := if q.HelloAck? then C.OnHelloAck(y.peers[c].cl, q)
                                                                   else C.OnAuthResp(y.peers[c].cl, q))])
  {
    assert y.peers[c].down[1..] == [];
  }

  lemma Requests(k: Crypto.Suite, y: System, c: nat, name: seq<byte>, hash: seq<byte>, priv: seq<byte>)
    requires c in y.peers && C.CanLogin(y.peers[c].cl, name, hash) && y.peers[c].up == []
    ensures Enabled(k, y, Login(c, name, hash, priv, true))
    ensures Step(k, y, Login(c, name, hash, priv, true)) ==
            y.(peers := y.peers[c := y.peers[c].(cl := C.Login(k, y.peers[c].cl, name, priv),
                                                 up := [Flight(AuthReq(y.peers[c].cl.id, name, hash, 32, k.pub(priv)), 0)])])
  {
    var f := Flight(AuthReq(y.peers[c].cl.id, name, hash, 32, k.pub(priv)), 0);
    assert y.peers[c].up + [f] == [f];
  }

  lemma Queues(k: Crypto.Suite, y: System, c: nat, q: Packet)
    requires q.AuthReq? && q.keyLen == 32 && OnlyUp(y, c, q) && y.server.sessions[c].phase == StAuth && !y.server.sessions[c].queued
    ensures Enabled(k, y, Arrive(c, true, true))
    ensures var s := y.server;
            var ss := s.sessions[c].(authName := q.name, authHash := q.hash, authKey := q.key, authStream := Some(c), queued := true);
            Step(k, y, Arrive(c, true, true)) ==
            y.(server := s.(sessions := s.sessions[c := ss], queue := s.queue + [c]),
               peers := y.peers[c := y.peers[c].(up := [], down := [])])
  {
    ServerAnswers(k, y, c, q, false, Bye(0));
  }

  /** A name and a password hash as the client's prompt yields them. */
  predicate Typed(name: seq<byte>, hash: seq<byte>) {
    1 <= |name| <= USERNAME_MAX && 0 !in name && |hash| == HASH_LEN
  }

  /** The credentials verify, the name is not logged in and there is room. */
  predicate Admissible(y: System, name: seq<byte>, hash: seq<byte>, junk: seq<byte>) {
    && !y.server.stopped && |junk| == HASH_LEN && U.Verify(y.users, name, hash, junk)
    && name !in y.server.registry && |y.server.registry| < Registry.CAPACITY
    && Typed(name, hash)
  }

  lemma Works(k: Crypto.Suite, y: System, c: nat, junk: seq<byte>, ok: bool)
    requires c in y.peers && S.Live(y.server, c) && y.server.queue == [c] && !y.server.stopped && |junk| == HASH_LEN
    requires var ss := y.server.sessions[c];
             ss.queued && ss.phase == StAuth && !ss.closed && ss.authStream == Some(c)
             && S.Admits(y.server, ss.(queued := false), y.users, junk)
    requires y.peers[c].down == []
    ensures Enabled(k, y, Work(junk, ok))
    ensures var s := y.server; var ss := s.sessions[c];
            Step(k, y, Work(junk, ok)) ==
            y.(server := s.(queue := [], registry := s.registry[ss.authName := S.Entry(ss.authKey, Some(c), c)],
                            sessions := s.sessions[c := ss.(queued := false, name := ss.authName, phase := StEstablished,
                                                            loginStream := Some(c), respLost := !ok)]),
               peers := y.peers[c := y.peers[c].(down := if ok then [Flight(AuthResp(ss.id, AUTH_OK), 0)] else [])])
  {
    hide S.Admits;
    WorkShape(y, junk, ok, c);
    assert y.peers[c].down + [Flight(AuthResp(y.server.sessions[c].id, AUTH_OK), 0)]
        == [Flight(AuthResp(y.server.sessions[c].id, AUTH_OK), 0)];
    assert y.server.queue[1..] == [];
  }

  // ---------- putting them together ----------

  /** `c` is new and listed as `name` with the key of `priv`; nothing else changed. */
  ghost predicate Listed(k: Crypto.Suite, y: System, y': System, c: nat, name: seq<byte>, priv: seq<byte>, answered: bool) {
    && c in y'.peers && c in y'.server.sessions
    && var p, ss := y'.peers[c], y'.server.sessions[c];
       && y'.peers == y.peers[c := p] && y'.server.sessions == y.server.sessions[c := ss]
       && y'.server.registry == y.server.registry[name := S.Entry(k.pub(priv), Some(c), c)]
       && y'.server.queue == y.server.queue && y'.server.stopped == y.server.stopped
       && y'.users == y.users && y'.history == y.history && y'.replies == y.replies
       && p.cl.name == name && p.cl.priv == priv && p.cl.keySem == 0 && p.keyReply == None
       && p.up == [] && p.shown == [] && p.cl.id == ss.id
       && ss.phase == StEstablished && ss.life.Connected? && ss.respLost == !answered
  }

  /** ... and at the prompt, with nothing in flight. */
  ghost predicate LoggedIn(k: Crypto.Suite, y: System, y': System, c: nat, name: seq<byte>, priv: seq<byte>) {
    && Listed(k, y, y', c, name, priv, true)
    && y'.peers[c].cl.pc.Idle? && y'.peers[c].cl.phase == StEstablished && y'.peers[c].down == []
  }

  /** ... and waiting for the answer, which has been sent or lost. */
  ghost predicate Unaware(k: Crypto.Suite, y: System, y': System, c: nat, name: seq<byte>, priv: seq<byte>, answered: bool) {
    && Listed(k, y, y', c, name, priv, answered)
    && y'.peers[c].cl.pc.WaitAuth? && y'.peers[c].cl.phase == StAuth && y'.peers[c].cl.authDone == 0
    && y'.peers[c].down == (if answered then [Flight(AuthResp(y'.peers[c].cl.id, AUTH_OK), 0)] else [])
  }

  /** A state on the way, once the HELLO_ACK has been taken. */
  ghost predicate Greeted(y: System, y': System, c: nat) {
    && c in y'.peers && c in y'.server.sessions
    && var p, ss := y'.peers[c], y'.server.sessions[c];
       && y'.peers == y.peers[c := p]
       && y'.server == y.server.(sessions := y.server.sessions[c := ss], nextId := y'.server.nextId, accepted := y'.server.accepted)
       && y' == y.(peers := y'.peers, server := y'.server)
       && p == Peer(C.Init().(id := ss.id, phase := StAuth, loginReady := 1), [], [], None, 0, [])
       && ss == S.FreshSession().(id := ss.id, phase := StAuth, serial := ss.serial)
  }

  lemma ShakesHands(k: Crypto.Suite, y: System, c: nat) returns (ys: seq<System>, es: seq<Event>)
    requires c !in y.peers && c !in y.server.sessions
    ensures Path(k, ys, es) && |es| == 3 && ys[0] == y && Greeted(y, ys[3], c)
    ensures forall x | x in y.peers && x in y.server.sessions :: Undisturbed(y, ys, x)
  {
    hide Step, Enabled;
    var e1, e2, e3 := Open(c, true), Arrive(c, true, true), Take(c, true);
    Opens(k, y, c);
    var y1 := Step(k, y, e1);
    Greets(k, y1, c);
    var y2 := Step(k, y1, e2);
    Welcomed(k, y2, c, HelloAck(y.server.nextId, 1));
    var y3 := Step(k, y2, e3);
    ys, es := [y, y1, y2, y3], [e1, e2, e3];
  }

  /** Only client `c` and its session are different. */
  ghost predicate Only(y: System, y': System, c: nat) {
    && c in y'.peers && y'.peers == y.peers[c := y'.peers[c]]
    && c in y'.server.sessions && y'.server.sessions == y.server.sessions[c := y'.server.sessions[c]]
  }

  /** A state on the way, once the AUTH_REQ is queued. */
  ghost predicate Waiting(k: Crypto.Suite, y: System, y': System, c: nat, name: seq<byte>, hash: seq<byte>, priv: seq<byte>) {
    && Only(y, y', c)
    && y'.server == y.server.(sessions := y'.server.sessions, nextId := y'.server.nextId, accepted := y'.server.accepted, queue := [c])
    && y' == y.(peers := y'.peers, server := y'.server)
    && var p, ss := y'.peers[c], y'.server.sessions[c];
       && p == Peer(C.Init().(id := ss.id, phase := StAuth, name := name, priv := priv, pub := k.pub(priv), pc := C.WaitAuth),
                    [], [], None, 0, [])
       && ss == S.FreshSession().(id := ss.id, phase := StAuth, serial := ss.serial, authName := name, authHash := hash,
                                  authKey := k.pub(priv), authStream := Some(c), queued := true)
  }

  /** Request and queueing. */
  lemma AsksToLogIn(k: Crypto.Suite, y: System, y3: System, c: nat, name: seq<byte>, hash: seq<byte>, priv: seq<byte>)
    returns (ys: seq<System>, es: seq<Event>)
    requires Crypto.Lawful(k) && Greeted(y, y3, c) && y.server.queue == [] && Typed(name, hash)
    ensures Path(k, ys, es) && |es| == 2 && ys[0] == y3 && Waiting(k, y, ys[2], c, name, hash, priv)
    ensures Only(y, ys[0], c) && Only(y, ys[1], c)
  {
    hide Step, Enabled, Crypto.Lawful, U.Verify;
    Crypto.Sizes(k, [], priv, [], []);
    var e4, e5 := Login(c, name, hash, priv, true), Arrive(c, true, true);
    var id := y3.peers[c].cl.id;
    Requests(k, y3, c, name, hash, priv);
    var y4 := Step(k, y3, e4);
    Queues(k, y4, c, AuthReq(id, name, hash, 32, k.pub(priv)));
    ys, es := [y3, y4, Step(k, y4, e5)], [e4, e5];
  }

  /** Request, queueing and worker: listed, answered or not. */
  lemma GetsListed(k: Crypto.Suite, y: System, y3: System, c: nat, name: seq<byte>, hash: seq<byte>, junk: seq<byte>,
                   priv: seq<byte>, ok: bool)
    returns (ys: seq<System>, es: seq<Event>)
    requires Crypto.Lawful(k) && Greeted(y, y3, c) && y.server.queue == [] && Admissible(y, name, hash, junk)
    ensures Path(k, ys, es) && |es| == 3 && ys[0] == y3 && Unaware(k, y, ys[3], c, name, priv, ok)
    ensures Only(y, ys[0], c) && Only(y, ys[1], c) && Only(y, ys[2], c) && Only(y, ys[3], c)
  {
    hide Step, Enabled, Crypto.Lawful, U.Verify, Greeted;
    ys, es := AsksToLogIn(k, y, y3, c, name, hash, priv);
    Works(k, ys[2], c, junk, ok);
    PathGrows(k, ys, es, Work(junk, ok));
    ys, es := ys + [Step(k, ys[2], Work(junk, ok))], es + [Work(junk, ok)];
  }

  /** The answer is taken and the prompt appears. */
  lemma LearnsOutcome(k: Crypto.Suite, y: System, y6: System, c: nat, name: seq<byte>, priv: seq<byte>)
    returns (ys: seq<System>, es: seq<Event>)
    requires Unaware(k, y, y6, c, name, priv, true)
    ensures Path(k, ys, es) && |es| == 2 && ys[0] == y6 && LoggedIn(k, y, ys[2], c, name, priv)
  {
    hide Step, Enabled;
    var e7, e8 := Take(c, true), EnterChat(c);
    Welcomed(k, y6, c, AuthResp(y6.peers[c].cl.id, AUTH_OK));
    var y7 := Step(k, y6, e7);
    Enters(k, y7, c);
    ys, es := [y6, y7, Step(k, y7, e8)], [e7, e8];
  }

  lemma Enters(k: Crypto.Suite, y: System, c: nat)
    requires c in y.peers && y.peers[c].cl.pc.WaitAuth? && y.peers[c].cl.authDone > 0
    ensures Enabled(k, y, EnterChat(c))
    ensures Step(k, y, EnterChat(c)) == y.(peers := y.peers[c := y.peers[c].(cl := C.EnterChat(y.peers[c].cl))])
  {
  }

  /** Whoever has valid credentials and is not logged in gets listed in six steps, answered or not. */
  lemma CanBeListed(k: Crypto.Suite, y: System, c: nat, name: seq<byte>, hash: seq<byte>, junk: seq<byte>, priv: seq<byte>, ok: bool)
    returns (ys: seq<System>, es: seq<Event>)
    requires Crypto.Lawful(k) && c !in y.peers && y.server.queue == [] && Admissible(y, name, hash, junk)
    requires Inv(k, y)
    ensures Path(k, ys, es) && |es| == 6 && ys[0] == y && Unaware(k, y, ys[6], c, name, priv, ok)
    ensures forall x | x in y.peers && x in y.server.sessions :: Undisturbed(y, ys, x)
  {
    hide Step, Enabled, SP.Inv, Link, LogInv, CredOk, U.Terminated, Admissible, Unaware, Greeted, Crypto.Lawful;
    var y3s, e3s := ShakesHands(k, y, c);
    var y6s, e6s := GetsListed(k, y, y3s[3], c, name, hash, junk, priv, ok);
    PathJoins(k, y3s, e3s, y6s, e6s);
    ys, es := y3s + y6s[1..], e3s + e6s;
    forall x | x in y.peers && x in y.server.sessions
      ensures Undisturbed(y, ys, x)
    {
      assert Undisturbed(y, y3s, x);
      assert Same(y, y6s[1], x) && Same(y, y6s[2], x) && Same(y, y6s[3], x);
    }
  }

  /** ... and can log in, with any key pair. */
  lemma AccountCanLogIn(k: Crypto.Suite, y: System, c: nat, name: seq<byte>, hash: seq<byte>, junk: seq<byte>, priv: seq<byte>)
    returns (ys: seq<System>, es: seq<Event>)
    requires Crypto.Lawful(k) && c !in y.peers && y.server.queue == [] && Admissible(y, name, hash, junk)
    requires Inv(k, y)
    ensures Path(k, ys, es) && |es| == 8 && ys[0] == y
    ensures LoggedIn(k, y, ys[8], c, name, priv)
  {
    hide Step, Enabled, Inv, Admissible, Unaware, LoggedIn, Crypto.Lawful;
    var y6s, e6s := CanBeListed(k, y, c, name, hash, junk, priv, true);
    var y8s, e8s := LearnsOutcome(k, y, y6s[6], c, name, priv);
    PathJoins(k, y6s, e6s, y8s, e8s);
    ys, es := y6s + y8s[1..], e6s + e8s;
  }

  // ---------- leaving ----------

  /** Whoever is listed is connected, established and not queued. */
  lemma NotQueued(k: Crypto.Suite, y: System, d: nat, n: seq<byte>)
    requires n in y.server.registry && y.server.registry[n].owner == d
    requires Inv(k, y)
    ensures S.Live(y.server, d) && y.server.sessions[d].phase == StEstablished
    ensures !y.server.sessions[d].queued && y.server.sessions[d].name == n
  {
    hide SP.LifeInv, SP.IdInv, Link, LogInv, CredOk, U.Terminated;
    assert SP.Listed(y.server, n);
  }

  /** A logged-in user's connection ends. */
  lemma Drops(k: Crypto.Suite, y: System, d: nat, n: seq<byte>)
    requires S.Live(y.server, d) && y.server.sessions[d].phase == StEstablished
    requires !y.server.sessions[d].queued && y.server.sessions[d].name == n
    ensures Enabled(k, y, Drop(d))
    ensures var s, y' := y.server, Step(k, y, Drop(d));
            y' == y.(server := s.(registry := s.registry - {n}, freed := s.freed + [d],
                                  sessions := s.sessions[d := s.sessions[d].(life := S.Freed)]))
  {
  }
}
