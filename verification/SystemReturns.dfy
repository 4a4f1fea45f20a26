/** The unhappy ways, which end too: a refused login, a message to somebody who is not there, the shutdown. */
module SystemReturns {
  import opened Bytes
  import opened Wire
  import opened Phases
  import opened SystemSpec
  import opened SystemLinks
  import opened SystemProofs
  import opened SystemPaths
  import opened SystemLogin
  import opened SystemStale
  import opened SystemDelivery
  import U = UsersFile
  import S = ServerSpec
  import C = ClientSpec
  import Crypto

  // ---------- a refused login ----------

  /** The worker refuses: wrong credentials, a name that is logged in, or no room. */
  lemma WorkRefuses(k: Crypto.Suite, y: System, c: nat, junk: seq<byte>)
    requires c in y.peers && S.Live(y.server, c) && y.server.queue == [c] && !y.server.stopped && |junk| == HASH_LEN
    requires var ss := y.server.sessions[c];
             ss.queued && ss.phase == StAuth && !ss.closed && ss.authStream == Some(c)
             && !S.Admits(y.server, ss.(queued := false), y.users, junk)
    requires y.peers[c].down == []
    ensures Enabled(k, y, Work(junk, true))
    ensures var s := y.server; var ss := s.sessions[c];
            Step(k, y, Work(junk, true)) ==
            y.(server := s.(queue := [], sessions := s.sessions[c := ss.(queued := false)]),
               peers := y.peers[c := y.peers[c].(down := [Flight(AuthResp(ss.id, AUTH_INVALID), 0)])])
  {
    hide S.Admits;
    WorkShape(y, junk, true, c);
    assert y.peers[c].down + [Flight(AuthResp(y.server.sessions[c].id, AUTH_INVALID), 0)]
        == [Flight(AuthResp(y.server.sessions[c].id, AUTH_INVALID), 0)];
    assert y.server.queue[1..] == [];
  }

  /** Client `c` has been told that its login failed and is leaving; nobody else has noticed anything. */
  ghost predicate TurnedAway(y: System, y': System, c: nat) {
    && Only(y, y', c) && y'.server.registry == y.server.registry && y'.server.queue == [] && y'.users == y.users
    && y'.history == y.history && y'.replies == y.replies
    && y'.peers[c].cl.pc.Leaving? && !y'.peers[c].cl.authOk && y'.peers[c].cl.phase == StAuth && y'.peers[c].cl.authDone == 0
    && y'.peers[c].up == [] && y'.peers[c].down == [] && y'.server.sessions[c].phase == StAuth && !y'.server.sessions[c].queued
  }

  /** From the queued request to the client's leaving. */
  lemma LearnsRefusal(k: Crypto.Suite, y: System, y5: System, c: nat, name: seq<byte>, hash: seq<byte>, junk: seq<byte>, priv: seq<byte>)
    returns (ys: seq<System>, es: seq<Event>)
    requires Waiting(k, y, y5, c, name, hash, priv) && y.server.queue == [] && !y.server.stopped && |junk| == HASH_LEN
    requires !S.Admits(y5.server, y5.server.sessions[c].(queued := false), y5.users, junk)
    ensures Path(k, ys, es) && |es| == 3 && ys[0] == y5 && TurnedAway(y, ys[3], c)
  {
    hide Step, Enabled, S.Admits;
    var e6, e7, e8 := Work(junk, true), Take(c, true), EnterChat(c);
    WorkRefuses(k, y5, c, junk);
    var y6 := Step(k, y5, e6);
    Welcomed(k, y6, c, AuthResp(y5.server.sessions[c].id, AUTH_INVALID));
    var y7 := Step(k, y6, e7);
    Enters(k, y7, c);
    ys, es := [y5, y6, y7, Step(k, y7, e8)], [e6, e7, e8];
  }

  /**
   From every reachable state with an empty queue and the server up: a login that cannot succeed, for wrong credentials,
   a name that is logged in or a full table of 64, is answered, and the client leaves. Nothing is listed.
   */
  lemma RefusedLeaves(k: Crypto.Suite, y: System, c: nat, name: seq<byte>, hash: seq<byte>, junk: seq<byte>, priv: seq<byte>)
    returns (ys: seq<System>, es: seq<Event>)
    requires Crypto.Lawful(k) && c !in y.peers && y.server.queue == [] && !y.server.stopped && Typed(name, hash) && |junk| == HASH_LEN
    requires !U.Verify(y.users, name, hash, junk) || name in y.server.registry || |y.server.registry| >= 64
    requires Inv(k, y)
    ensures Path(k, ys, es) && |es| == 8 && ys[0] == y && TurnedAway(y, ys[8], c)
  {
    hide Step, Enabled, Inv, U.Verify, Greeted, Crypto.Lawful, TurnedAway;
    SameClients(k, y, c);
    var y3s, e3s := ShakesHands(k, y, c);
    var y5s, e5s := AsksToLogIn(k, y, y3s[3], c, name, hash, priv);
    PathJoins(k, y3s, e3s, y5s, e5s);
    ys, es := y3s + y5s[1..], e3s + e5s;
    var y8s, e8s := LearnsRefusal(k, y, y5s[2], c, name, hash, junk, priv);
    PathJoins(k, ys, es, y8s, e8s);
    ys, es := ys + y8s[1..], es + e8s;
  }

  lemma SameClients(k: Crypto.Suite, y: System, c: nat)
    requires c !in y.peers
    requires Inv(k, y)
    ensures c !in y.server.sessions
  {
  }

  // ---------- a message to somebody who is not there ----------

  function NotFound(id: u32): Packet {
    Error(id, E_USER_NOT_FOUND, Text("user not found"))
  }

  lemma NotFoundFits(id: u32)
    ensures WellFormed(NotFound(id)) && KindOf(NotFound(id)) == KNotFound
  {
    assert |"user not found"| == 14;
  }

  /** The server knows no such user. */
  lemma AnswersNot(k: Crypto.Suite, y: System, s: nat, q: Packet)
    requires s in y.peers && S.Live(y.server, s) && y.server.sessions[s].phase == StEstablished
    requires q.KeyReq? && WellFormed(q) && q.name !in y.server.registry
    requires y.peers[s].up == [Flight(q, 0)] && y.peers[s].down == []
    ensures Enabled(k, y, Arrive(s, true, true))
    ensures Step(k, y, Arrive(s, true, true)) ==
            y.(peers := y.peers[s := y.peers[s].(up := [], down := [Flight(NotFound(y.server.sessions[s].id), |y.replies|)])])
  {
    hide Text;
    var p, a := y.peers[s], NotFound(y.server.sessions[s].id);
    var p1 := p.(up := p.up[1..]);
    assert p1.up == [];
    PostTry(y.peers[s := p1], s, true, a, |y.replies|);
    assert p1.down + [Flight(a, |y.replies|)] == [Flight(a, |y.replies|)];
  }

  /**
   Every run that ends with `s` at the prompt, its channels empty and its semaphore zero can go on, for a name that is
   not registered, through request, refusal and wait back to just such a prompt, with no message sent.
   */
  lemma UnknownNameReturns(k: Crypto.Suite, states: seq<System>, events: seq<Event>, s: nat, n: seq<byte>, text: seq<byte>)
    returns (ys: seq<System>, es: seq<Event>)
    requires Crypto.Lawful(k) && Run(k, states, events)
    requires var y := states[|events|];
             && s in y.peers && y.peers[s].cl.pc.Idle? && y.peers[s].up == [] && y.peers[s].down == [] && y.peers[s].cl.keySem == 0
             && S.Live(y.server, s) && y.server.sessions[s].phase == StEstablished && n !in y.server.registry
    requires 1 <= |n| <= USERNAME_MAX && 1 <= |text| <= C.TEXT_MAX
    ensures Path(k, ys, es) && |es| == 4 && ys[0] == states[|events|]
    ensures es[0] == Ask(s, n, text, true) && es[3].Tell? && es[3].c == s
    ensures var y, z := ys[0], ys[4];
            && s in z.peers && z.peers[s].cl.pc.Idle? && z.peers[s].up == [] && z.peers[s].down == [] && z.peers[s].cl.keySem == 0
            && z.server == y.server && z.history == y.history && z.replies == y.replies && z.peers[s].shown == y.peers[s].shown
  {
    hide Step, Enabled, Inv, Crypto.Lawful, Zeros;
    var y := states[|events|];
    var e1, e2, e3, e4 := Ask(s, n, text, true), Arrive(s, true, true), Take(s, true), Tell(s, [], Nonce(), true, true);
    Asks(k, y, s, n, text);
    var y1 := Step(k, y, e1);
    AnswersNot(k, y1, s, KeyReq(y.peers[s].cl.id, n));
    var y2 := Step(k, y1, e2);
    NotFoundFits(y.server.sessions[s].id);
    TakesNoKey(k, y2, s, NotFound(y.server.sessions[s].id), |y.replies|);
    var y3 := Step(k, y2, e3);
    SendsNothing(k, y3, s, Nonce());
    ys, es := [y, y1, y2, y3, Step(k, y3, e4)], [e1, e2, e3, e4];
  }

  // ---------- the shutdown ----------

  /** Some listing has c's stream, and the send works. */
  ghost predicate Told(y: System, lost: set<nat>, c: nat) {
    (exists n :: n in y.server.registry && y.server.registry[n].stream == Some(c)) && c !in lost
  }

  /** The shutdown says BYE, last, to exactly those clients whose stream is listed and whose send works; nobody can log in afterwards. */
  lemma StopTells(k: Crypto.Suite, y: System, lost: set<nat>, c: nat)
    requires c in y.peers
    ensures Enabled(k, y, Stop(lost))
    ensures var y' := Step(k, y, Stop(lost));
            && y'.server.stopped && c in y'.peers
            && y'.peers[c] == y.peers[c].(down := y.peers[c].down + if Told(y, lost, c) then [Flight(Bye(0), 0)] else [])
            && forall junk, ok :: !Enabled(k, y', Work(junk, ok))
  {
  }
}
