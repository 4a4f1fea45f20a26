/**
 Runs in which the key wait goes wrong: for any three users with accounts, a message ends up sealed with
 somebody else's key.
 */
module SystemWitness {
  import opened Bytes
  import opened Wire
  import opened Phases
  import opened SystemSpec
  import opened SystemLinks
  import opened SystemProofs
  import opened SystemPaths
  import opened SystemLogin
  import opened SystemStale
  import opened SystemDelivery
  import U = UsersFile
  import S = ServerSpec
  import SP = ServerProofs
  import C = ClientSpec
  import Crypto

  /** Clients 0, 1 and 2 are at the prompt as `a`, `b` and `c`, and nothing has happened since. */
  ghost predicate Three(y: System, a: Account, b: Account, c: Account) {
    && 0 in y.peers && 1 in y.peers && 2 in y.peers
    && Ready(y, 0, b.name) && Ready(y, 0, c.name)
    && y.server.registry[b.name].owner == 1 && y.server.registry[c.name].owner == 2
    && S.Live(y.server, 1) && y.server.sessions[1].phase == StEstablished
    && y.replies == [] && y.history == []
  }

  lemma ThreeLogIn(k: Crypto.Suite, users: seq<byte>, a: Account, b: Account, c: Account)
    returns (ys: seq<System>, es: seq<Event>)
    requires Crypto.Lawful(k) && U.Terminated(users) && Has(users, a) && Has(users, b) && Has(users, c)
    requires a.name != b.name && a.name != c.name && b.name != c.name
    ensures Path(k, ys, es) && |es| == 24 && ys[0] == Init(users) && Three(ys[24], a, b, c)
  {
    hide Inv, Step, Enabled, U.Verify, U.Terminated, Crypto.Lawful;
    InitInv(k, users);
    var y1s, e1s := AccountCanLogIn(k, Init(users), 1, b.name, b.hash, b.junk, b.priv);
    PathKeeps(k, y1s, e1s, 8);
    var y2s, e2s := AccountCanLogIn(k, y1s[8], 2, c.name, c.hash, c.junk, c.priv);
    PathKeeps(k, y2s, e2s, 8);
    var y3s, e3s := AccountCanLogIn(k, y2s[8], 0, a.name, a.hash, a.junk, a.priv);
    PathJoins(k, y1s, e1s, y2s, e2s);
    PathJoins(k, y1s + y2s[1..], e1s + e2s, y3s, e3s);
    ys, es := (y1s + y2s[1..]) + y3s[1..], (e1s + e2s) + e3s;
  }

  lemma GivesUp(k: Crypto.Suite, y: System, s: nat)
    requires s in y.peers && y.peers[s].cl.pc.Fetching?
    ensures Enabled(k, y, GiveUp(s))
    ensures Step(k, y, GiveUp(s)) == y.(peers := y.peers[s := y.peers[s].(cl := C.GiveUp(y.peers[s].cl))])
  {
  }

  /** The last message of the run is sealed with the key that was given for `n`, who is not its recipient. */
  ghost predicate WrongKey(y: System, recipient: seq<byte>, n: seq<byte>) {
    && y.history != []
    && var m := y.history[|y.history| - 1];
       && m.recipient == recipient && n != recipient
       && m.reply.Some? && m.reply.value < |y.replies| && y.replies[m.reply.value].name == n && y.replies[m.reply.value].key == m.key
  }

  /** Ask for b's key, have it answered, time out. */
  lemma TimesOut(k: Crypto.Suite, y: System, a: Account, b: Account, c: Account, text: seq<byte>)
    returns (ys: seq<System>, es: seq<Event>)
    requires Crypto.Lawful(k) && Three(y, a, b, c) && 1 <= |text| <= C.TEXT_MAX
    ensures Path(k, ys, es) && |es| == 3 && ys[0] == y
    ensures var z := ys[3];
            && 0 in z.peers && z.peers[0].cl.pc.Idle? && z.history == []
            && |z.replies| == 1 && z.replies[0].name == b.name
            && |z.peers[0].down| == 1 && z.peers[0].down[0].pkt.KeyResp? && z.peers[0].down[0].tag == 0
  {
    hide Step, Enabled;
    var id := y.peers[0].cl.id;
    var e1, e2, e3 := Ask(0, b.name, text, true), Arrive(0, true, true), GiveUp(0);
    Asks(k, y, 0, b.name, text);
    var y1 := Step(k, y, e1);
    Answers(k, y1, 0, KeyReq(id, b.name));
    var y2 := Step(k, y1, e2);
    GivesUp(k, y2, 0);
    ys, es := [y, y1, y2, Step(k, y2, e3)], [e1, e2, e3];
  }

  /**
   The fetch for b times out, its reply then arrives while the user writes to c, and the message to c is sealed
   with b's key.
   */
  lemma LateReplyServesNextRecipient(k: Crypto.Suite, users: seq<byte>, a: Account, b: Account, c: Account, text: seq<byte>)
    returns (states: seq<System>, events: seq<Event>)
    requires Crypto.Lawful(k) && U.Terminated(users) && Has(users, a) && Has(users, b) && Has(users, c)
    requires a.name != b.name && a.name != c.name && b.name != c.name && 1 <= |text| <= C.TEXT_MAX
    ensures Run(k, states, events) && states[0] == Init(users) && WrongKey(states[|events|], c.name, b.name)
  {
    hide Step, Inv, U.Terminated, U.Verify, Crypto.Lawful, Three, WrongKey, Path;
    var xs, ds := ThreeLogIn(k, users, a, b, c);
    states, events := AsRun(k, users, xs, ds);
    var ys, es := TimesOut(k, states[|events|], a, b, c, text);
    states, events := Then(k, states, events, ys, es);
    var y := states[|events|];
    RunInv(k, states, events, |events|);
    ys, es := StaleInFlight(k, y, 0, c.name, text, 0);
    states, events := Then(k, states, events, ys, es);
    SealedWith(k, states, events, c.name, b.name);
  }

  lemma AsRun(k: Crypto.Suite, users: seq<byte>, ys: seq<System>, es: seq<Event>) returns (states: seq<System>, events: seq<Event>)
    requires Path(k, ys, es) && U.Terminated(users) && ys[0] == Init(users)
    ensures Run(k, states, events) && states == ys && events == es
  {
    hide Step, Enabled;
    PathIsRun(k, ys, es);
    states, events := ys, es;
  }

  lemma Then(k: Crypto.Suite, xs: seq<System>, ds: seq<Event>, ys: seq<System>, es: seq<Event>)
    returns (states: seq<System>, events: seq<Event>)
    requires Run(k, xs, ds) && Path(k, ys, es) && xs[|ds|] == ys[0]
    ensures Run(k, states, events) && states[0] == xs[0] && states[|events|] == ys[|es|]
  {
    hide Step, Enabled;
    RunGoesOn(k, xs, ds, ys, es);
    states, events := xs + ys[1..], ds + es;
  }

  /** The key of a logged message is that of the reply it used. */
  lemma SealedWith(k: Crypto.Suite, states: seq<System>, events: seq<Event>, recipient: seq<byte>, n: seq<byte>)
    requires Crypto.Lawful(k) && Run(k, states, events) && states[|events|].history != []
    requires var y := states[|events|]; var m := y.history[|y.history| - 1];
             && m.recipient == recipient && n != recipient
             && m.reply.Some? && m.reply.value < |y.replies| && y.replies[m.reply.value].name == n
    ensures WrongKey(states[|events|], recipient, n)
  {
    hide Step, Enabled, SP.Inv, Link, CredOk, ReplyOk, U.Terminated;
    RunInv(k, states, events, |events|);
    var y := states[|events|];
    assert MessageOk(k, y.peers, y.replies, y.history[|y.history| - 1]);
  }

  // ---------- a refused chat ----------

  function NotOnline(id: u32): Packet {
    Error(id, E_USER_NOT_FOUND, Text("recipient not online"))
  }

  lemma NotOnlineFits(id: u32)
    ensures WellFormed(NotOnline(id)) && KindOf(NotOnline(id)) == KNotFound
  {
    assert |"recipient not online"| == 20;
  }

  /** The server cannot find the recipient of a chat. */
  lemma Refuses(k: Crypto.Suite, y: System, s: nat, q: Packet)
    requires OnlyUp(y, s, q) && q.ChatSend? && y.server.sessions[s].phase == StEstablished && q.name !in y.server.registry
    ensures Enabled(k, y, Arrive(s, true, true))
    ensures var ss := y.server.sessions[s];
            Step(k, y, Arrive(s, true, true)) ==
            y.(server := y.server.(sessions := y.server.sessions[s := ss.(chatRefused := true)]),
               peers := y.peers[s := y.peers[s].(up := [], down := [Flight(NotOnline(ss.id), 0)])])
  {
    hide Text;
    ServerAnswers(k, y, s, q, true, NotOnline(y.server.sessions[s].id));
  }

  /** After the first message to b went out: b goes, the chat is refused and the refusal taken for an answer. */
  lemma GetsRefused(k: Crypto.Suite, y: System, y4: System, a: Account, b: Account, c: Account, text: seq<byte>)
    returns (ys: seq<System>, es: seq<Event>)
    requires Crypto.Lawful(k) && Three(y, a, b, c) && JustSent(y, y4, 0, b.name, text) && b.name != c.name
    requires Inv(k, y4)
    ensures Path(k, ys, es) && |es| == 3 && ys[0] == y4
    ensures var z := ys[3];
            && 0 in z.peers && z.peers[0].cl.pc.Idle? && z.peers[0].up == [] && z.peers[0].down == []
            && z.peers[0].cl.keySem == 1 && z.peers[0].cl.keyResult == Zeros(KEY_LEN)
            && S.Live(z.server, 0) && z.server.sessions[0].phase == StEstablished && c.name in z.server.registry
            && |z.replies| == 1 && |z.history| == 1
  {
    hide Inv, Step, Enabled, U.Terminated;
    NotQueued(k, y4, 1, b.name);
    Drops(k, y4, 1, b.name);
    var e1, e2, e3 := Drop(1), Arrive(0, true, true), Take(0, true);
    var y5 := Step(k, y4, e1);
    var q := y4.history[0].pkt;
    LoggedFits(k, y4);
    Refuses(k, y5, 0, q);
    var y6 := Step(k, y5, e2);
    var r := NotOnline(y5.server.sessions[0].id);
    NotOnlineFits(y5.server.sessions[0].id);
    TakesNoKey(k, y6, 0, r, 0);
    ys, es := [y4, y5, y6, Step(k, y6, e3)], [e1, e2, e3];
  }

  lemma LoggedFits(k: Crypto.Suite, y: System)
    requires |y.history| > 0
    requires Inv(k, y)
    ensures WellFormed(y.history[0].pkt)
  {
    hide SP.Inv, Link, CredOk, ReplyOk, U.Terminated;
    assert MessageOk(k, y.peers, y.replies, y.history[0]);
  }

  /** The next message, to c, is not sent; its key arrives afterwards. */
  lemma GetsDropped(k: Crypto.Suite, y: System, n: seq<byte>, text: seq<byte>) returns (ys: seq<System>, es: seq<Event>)
    requires Crypto.Lawful(k) && 1 <= |text| <= C.TEXT_MAX && 1 <= |n| <= USERNAME_MAX
    requires 0 in y.peers && y.peers[0].cl.pc.Idle? && y.peers[0].up == [] && y.peers[0].down == []
    requires y.peers[0].cl.keySem == 1 && y.peers[0].cl.keyResult == Zeros(KEY_LEN)
    requires S.Live(y.server, 0) && y.server.sessions[0].phase == StEstablished && n in y.server.registry
    ensures Path(k, ys, es) && |es| == 3 && ys[0] == y
    ensures var z := ys[3];
            && 0 in z.peers && z.peers[0].cl.pc.Idle? && z.history == y.history
            && |z.replies| == |y.replies| + 1 && z.replies[|y.replies|].name == n
            && |z.peers[0].down| == 1 && z.peers[0].down[0].pkt.KeyResp? && z.peers[0].down[0].tag == |y.replies|
  {
    hide Step, Enabled, Crypto.Lawful, Zeros;
    var id, nonce := y.peers[0].cl.id, Nonce();
    var e1, e2, e3 := Ask(0, n, text, true), Arrive(0, true, true), Tell(0, [], nonce, true, true);
    Asks(k, y, 0, n, text);
    var y1 := Step(k, y, e1);
    Answers(k, y1, 0, KeyReq(id, n));
    var y2 := Step(k, y1, e2);
    SendsNothing(k, y2, 0, nonce);
    ys, es := [y, y1, y2, Step(k, y2, e3)], [e1, e2, e3];
  }

  /**
   A CHAT_SEND answered USER_NOT_FOUND posts the semaphore that only key requests wait for. The next message, to c,
   is then not sent although c is online, and the one after it, to anybody else, is sealed with c's key.
   */
  lemma RefusedChatShiftsKeys(k: Crypto.Suite, users: seq<byte>, a: Account, b: Account, c: Account, third: seq<byte>, text: seq<byte>)
    returns (states: seq<System>, events: seq<Event>)
    requires Crypto.Lawful(k) && U.Terminated(users) && Has(users, a) && Has(users, b) && Has(users, c)
    requires a.name != b.name && a.name != c.name && b.name != c.name && 1 <= |text| <= C.TEXT_MAX
    requires third != c.name && 1 <= |third| <= USERNAME_MAX
    ensures Run(k, states, events) && states[0] == Init(users) && WrongKey(states[|events|], third, c.name)
    ensures |states[|events|].history| == 2
  {
    hide Step, Inv, U.Terminated, U.Verify, Crypto.Lawful, Three, WrongKey, Path, JustSent;
    var xs, ds := ThreeLogIn(k, users, a, b, c);
    states, events := AsRun(k, users, xs, ds);
    var y := states[|events|];
    RunInv(k, states, events, |events|);
    StartsReady(y, a, b, c);
    var ys, es := Sends(k, y, 0, b.name, text, [], Nonce());
    states, events := Then(k, states, events, ys, es);
    RunInv(k, states, events, |events|);
    ys, es := GetsRefused(k, y, states[|events|], a, b, c, text);
    states, events := Then(k, states, events, ys, es);
    ys, es := GetsDropped(k, states[|events|], c.name, text);
    states, events := Then(k, states, events, ys, es);
    RunInv(k, states, events, |events|);
    ys, es := StaleInFlight(k, states[|events|], 0, third, text, 0);
    states, events := Then(k, states, events, ys, es);
    SealedWith(k, states, events, third, c.name);
  }

  lemma StartsReady(y: System, a: Account, b: Account, c: Account)
    requires Three(y, a, b, c)
    ensures Ready(y, 0, b.name) && Ready(y, 0, c.name)
  {
  }
}
