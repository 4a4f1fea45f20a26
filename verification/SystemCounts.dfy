/** Conservation over runs: what each client has been sent, has taken, and has done with it. */
module SystemCounts {
  import opened Bytes
  import opened Wire
  import opened Phases
  import opened SystemSpec
  import opened SystemLinks
  import opened SystemProofs
  import opened SystemKeys
  import C = ClientSpec
  import Crypto

  /** A kind of step of one client, counted over the first `i` steps of a run. */
  function Steps(states: seq<System>, events: seq<Event>, i: nat, f: (System, Event) -> bool): nat
    requires i <= |events| <= |states|
  {
    if i == 0 then 0 else Steps(states, events, i - 1, f) + One(f(states[i - 1], events[i - 1]))
  }

  /** Client `c` takes a packet for which `f` holds. */
  predicate Takes(y: System, e: Event, c: nat, f: Packet -> bool) {
    e.Take? && e.c == c && c in y.peers && y.peers[c].down != [] && f(y.peers[c].down[0].pkt)
  }

  // ---------- the login semaphores ----------

  function AuthDone(y: System, c: nat): nat { if c in y.peers then y.peers[c].cl.authDone else 0 }

  function LoginReady(y: System, c: nat): nat { if c in y.peers then y.peers[c].cl.loginReady else 0 }

  function PastHello(y: System, c: nat): nat { if c in y.peers && y.peers[c].cl.phase != StHello then 1 else 0 }

  lemma TakeLogins(k: Crypto.Suite, p: Peer, ok: bool)
    requires CanTake(p)
    ensures var cl := TakePeer(k, p, ok).cl;
            && cl.authDone == p.cl.authDone + One(p.down[0].pkt.AuthResp?)
            && cl.loginReady - (if cl.phase != StHello then 1 else 0) == p.cl.loginReady - (if p.cl.phase != StHello then 1 else 0)
  {
    hide C.OnChatDeliver, Zeros;
  }

  lemma TellLogins(k: Crypto.Suite, y: System, d: nat, eph: seq<byte>, nonce: seq<byte>, sealed: bool, ok: bool, c: nat)
    requires d in y.peers && y.peers[d].cl.pc.Fetching? && y.peers[d].cl.keySem > 0 && |k.pub(eph)| == KEY_LEN
    ensures var y' := TellStep(k, y, d, eph, nonce, sealed, ok);
            AuthDone(y', c) == AuthDone(y, c) && LoginReady(y', c) == LoginReady(y, c) && PastHello(y', c) == PastHello(y, c)
  {
    hide Crypto.Encrypt, Zeros;
  }

  lemma LoginStep(k: Crypto.Suite, y: System, e: Event, c: nat)
    requires Enabled(k, y, e)
    ensures var y' := Step(k, y, e);
            && AuthDone(y', c) + One(e.EnterChat? && e.c == c) == AuthDone(y, c) + One(Takes(y, e, c, (p: Packet) => p.AuthResp?))
            && LoginReady(y', c) - PastHello(y', c) + One(e.Login? && e.c == c) == LoginReady(y, c) - PastHello(y, c)
  {
    hide ArriveStep, WorkStep, TakePeer, TellStep, OnAir, Crypto.Encrypt, Zeros;
    match e
    case Tell(d, eph, nonce, sealed, ok) => TellLogins(k, y, d, eph, nonce, sealed, ok, c);
    case Take(d, ok) => if d == c { TakeLogins(k, y.peers[d], ok); }
    case Arrive(d, ok, ok2) => ArriveClients(y, d, ok, ok2, c);
    case Work(junk, ok) => WorkClients(y, junk, ok, c);
    case _ =>
  }

  /**
   Over every run, auth_done counts the AUTH_RESPs the client has taken, whatever they say, minus its returns from
   waiting for one; and login_ready is posted once, when the client leaves HELLO, and waited for by its login.
   */
  lemma {:induction false} LoginSemaphoreAccount(k: Crypto.Suite, states: seq<System>, events: seq<Event>, i: nat, c: nat)
    requires Run(k, states, events) && i < |states|
    ensures AuthDone(states[i], c) + Steps(states, events, i, (y: System, e: Event) => e.EnterChat? && e.c == c)
         == Steps(states, events, i, (y: System, e: Event) => Takes(y, e, c, (p: Packet) => p.AuthResp?))
    ensures LoginReady(states[i], c) + Steps(states, events, i, (y: System, e: Event) => e.Login? && e.c == c) == PastHello(states[i], c)
  {
    hide Step, Enabled, AuthDone, LoginReady, PastHello;
    if i > 0 {
      LoginSemaphoreAccount(k, states, events, i - 1, c);
      LoginStep(k, states[i - 1], events[i - 1], c);
    } else {
      NobodyYet(k, states, events, c);
    }
  }

  lemma NobodyYet(k: Crypto.Suite, states: seq<System>, events: seq<Event>, c: nat)
    requires Run(k, states, events)
    ensures AuthDone(states[0], c) == LoginReady(states[0], c) == PastHello(states[0], c) == Byes(states[0], c) == 0
  {
    hide Step, Enabled;
  }

  // ---------- echoed BYEs ----------

  function CountByes(fs: seq<Flight>): nat {
    if fs == [] then 0 else One(fs[0].pkt.Bye?) + CountByes(fs[1..])
  }

  function Byes(y: System, c: nat): nat { if c in y.peers then CountByes(y.peers[c].up) else 0 }

  lemma {:induction false} ByesPush(fs: seq<Flight>, f: Flight)
    ensures CountByes(fs + [f]) == CountByes(fs) + One(f.pkt.Bye?)
  {
    if fs == [] {
      assert [f][1..] == [];
    } else {
      ByesPush(fs[1..], f);
      assert (fs + [f])[1..] == fs[1..] + [f];
    }
  }

  /** The server takes a BYE of client `c`. */
  predicate ByeArrives(y: System, e: Event, c: nat) {
    e.Arrive? && e.c == c && c in y.peers && y.peers[c].up != [] && y.peers[c].up[0].pkt.Bye?
  }

  /** Client `c` says BYE, back to the server that said it or on its own, and the send works. */
  predicate SaysBye(y: System, e: Event, c: nat) {
    || (e.Take? && e.ok && Takes(y, e, c, (p: Packet) => p.Bye?))
    || (e.Quit? && e.ok && e.c == c)
  }

  lemma TakeUp(k: Crypto.Suite, p: Peer, ok: bool)
    requires CanTake(p)
    ensures CountByes(TakePeer(k, p, ok).up) == CountByes(p.up) + One(ok && p.down[0].pkt.Bye?)
  {
    hide C.OnChatDeliver, Zeros, C.OnHelloAck, C.OnAuthResp, C.OnKeyResp, C.OnError;
    ByesPush(p.up, Flight(Bye(p.cl.id), 0));
  }

  /** The up channel of client `c` when `e` is its own step that sends, or not. */
  lemma OwnUp(k: Crypto.Suite, y: System, e: Event, c: nat)
    requires Enabled(k, y, e) && (e.Login? || e.Ask? || e.Tell? || e.Quit?) && e.c == c
    ensures c in y.peers && c in Step(k, y, e).peers
    ensures CountByes(Step(k, y, e).peers[c].up) == CountByes(y.peers[c].up) + One(e.Quit? && e.ok)
  {
    hide Crypto.Encrypt, Zeros;
    var up, up' := y.peers[c].up, Step(k, y, e).peers[c].up;
    if up' != up {
      ByesPush(up, up'[|up|]);
      assert up' == up + [up'[|up|]];
    }
  }

  lemma ByeStep(k: Crypto.Suite, y: System, e: Event, c: nat)
    requires Enabled(k, y, e)
    ensures Byes(Step(k, y, e), c) + One(ByeArrives(y, e, c)) == Byes(y, c) + One(SaysBye(y, e, c))
  {
    hide ArriveStep, WorkStep, TakePeer, OnAir, TellStep;
    match e
    case Open(d, ok) => ByesPush([], Flight(C.HelloPacket(), 0)); assert [] + [Flight(C.HelloPacket(), 0)] == [Flight(C.HelloPacket(), 0)];
    case Take(d, ok) => if d == c { TakeUp(k, y.peers[d], ok); }
    case Arrive(d, ok, ok2) =>
      ArriveClients(y, d, ok, ok2, c);
      if c in y.peers { ArriveUps(y, d, ok, ok2, c); }
    case Work(junk, ok) =>
      WorkClients(y, junk, ok, c);
      if c in y.peers { WorkUps(y, junk, ok, c); }
    case Login(d, _, _, _, _) => if d == c { OwnUp(k, y, e, c); }
    case Ask(d, _, _, _) => if d == c { OwnUp(k, y, e, c); }
    case Quit(d, _) => if d == c { OwnUp(k, y, e, c); }
    case Tell(d, _, _, _, _) => TellOthers(k, y, e, c);
    case _ =>
  }

  lemma TellOthers(k: Crypto.Suite, y: System, e: Event, c: nat)
    requires Enabled(k, y, e) && e.Tell?
    ensures Byes(Step(k, y, e), c) == Byes(y, c)
  {
    hide Crypto.Encrypt, Zeros;
    if e.c == c {
      OwnUp(k, y, e, c);
    }
  }

  /** Over every run, the BYEs of a client in flight or arrived are those it echoed and those it sent on quitting. */
  lemma {:induction false} ByeAccount(k: Crypto.Suite, states: seq<System>, events: seq<Event>, i: nat, c: nat)
    requires Run(k, states, events) && i < |states|
    ensures Byes(states[i], c) + Steps(states, events, i, (y: System, e: Event) => ByeArrives(y, e, c))
         == Steps(states, events, i, (y: System, e: Event) => SaysBye(y, e, c))
  {
    hide Step, Enabled, Byes, ByeArrives, SaysBye;
    if i > 0 {
      ByeAccount(k, states, events, i - 1, c);
      ByeStep(k, states[i - 1], events[i - 1], c);
    } else {
      NobodyYet(k, states, events, c);
    }
  }

  // ---------- every key request is answered ----------

  /** Requests and answers of client `c` in flight. */
  function InFlight(p: Peer): nat {
    Count(p.up, KKeyReq) + Count(p.down, KKeyResp) + Count(p.down, KNotFound)
  }

  /**
   A KEY_REQ from an established session is answered exactly once, with a key or with "no such user", if the send works:
   the server turns the request into the answer.
   */
  lemma KeyRequestAnswered(k: Crypto.Suite, y: System, c: nat, ok2: bool)
    requires Enabled(k, y, Arrive(c, true, ok2)) && y.peers[c].up[0].pkt.KeyReq? && y.server.sessions[c].phase == StEstablished
    ensures var y' := Step(k, y, Arrive(c, true, ok2)); c in y'.peers && InFlight(y'.peers[c]) == InFlight(y.peers[c])
  {
    hide Text;
    var p := y.peers[c];
    var q := p.up[0].pkt;
    var a := if q.name in y.server.registry then KeyResp(q.id, q.name, 32, y.server.registry[q.name].key)
             else Error(y.server.sessions[c].id, E_USER_NOT_FOUND, Text("user not found"));
    var p1 := p.(up := p.up[1..]);
    PostTry(y.peers[c := p1], c, true, a, |y.replies|);
    DownCounts(p1, Flight(a, |y.replies|));
  }

  /** The same at a step whose send fails: the request is lost, and the asker waits in vain. */
  lemma KeyRequestLost(k: Crypto.Suite, y: System, c: nat, ok2: bool)
    requires Enabled(k, y, Arrive(c, false, ok2)) && y.peers[c].up[0].pkt.KeyReq? && y.server.sessions[c].phase == StEstablished
    ensures var y' := Step(k, y, Arrive(c, false, ok2)); c in y'.peers && InFlight(y'.peers[c]) == InFlight(y.peers[c]) - 1
  {
    hide Text;
    var p := y.peers[c];
  }

  // ---------- session IDs on the wire ----------

  predicate Request(p: Packet) { p.AuthReq? || p.KeyReq? || p.ChatSend? }

  /** Requests of client `c` in flight bear its session ID, which it had before it sent any. */
  ghost predicate UpIds(y: System, c: nat) {
    c in y.peers ==> forall f | f in y.peers[c].up && Request(f.pkt) :: y.peers[c].cl.phase != StHello && f.pkt.id == y.peers[c].cl.id
  }

  lemma TakeIds(k: Crypto.Suite, p: Peer, ok: bool)
    requires CanTake(p)
    ensures var p' := TakePeer(k, p, ok);
            && (p.cl.phase != StHello ==> p'.cl.phase != StHello && p'.cl.id == p.cl.id)
            && forall f | f in p'.up && Request(f.pkt) :: f in p.up
  {
    hide C.OnChatDeliver, Zeros;
  }

  lemma TellIds(k: Crypto.Suite, y: System, e: Event, c: nat)
    requires Enabled(k, y, e) && (e.Tell? || e.Login? || e.Ask? || e.Quit?) && UpIds(y, c) && c in y.peers
    requires e.c == c && !e.Quit? ==> y.peers[c].cl.phase != StHello
    ensures UpIds(Step(k, y, e), c)
  {
    hide Crypto.Encrypt, Zeros;
  }

  lemma UpIdsStep(k: Crypto.Suite, y: System, e: Event, c: nat)
    requires Enabled(k, y, e) && UpIds(y, c) && Accepted(y, c) && LoginReady(y, c) <= PastHello(y, c)
    ensures UpIds(Step(k, y, e), c)
  {
    hide ArriveStep, WorkStep, TakePeer, OnAir, Crypto.Encrypt, Zeros;
    match e
    case Take(d, ok) => if d == c { TakeIds(k, y.peers[d], ok); }
    case Arrive(d, ok, ok2) =>
      ArriveClients(y, d, ok, ok2, c);
      if c in y.peers { ArriveUps(y, d, ok, ok2, c); }
    case Work(junk, ok) =>
      WorkClients(y, junk, ok, c);
      if c in y.peers { WorkUps(y, junk, ok, c); }
    case Login(_, _, _, _, _) => if c in y.peers { TellIds(k, y, e, c); }
    case Ask(_, _, _, _) => if c in y.peers { TellIds(k, y, e, c); }
    case Tell(_, _, _, _, _) => if c in y.peers { TellIds(k, y, e, c); }
    case Quit(_, _) => if c in y.peers { TellIds(k, y, e, c); }
    case _ =>
  }

  /** Over every run, each AUTH_REQ, KEY_REQ and CHAT_SEND in flight bears the ID of the client's session. */
  lemma {:induction false} RequestsBearSessionId(k: Crypto.Suite, states: seq<System>, events: seq<Event>, i: nat, c: nat)
    requires Run(k, states, events) && i < |states|
    ensures UpIds(states[i], c)
  {
    hide Step, Enabled, UpIds, Accepted;
    if i > 0 {
      RequestsBearSessionId(k, states, events, i - 1, c);
      RunAccepted(k, states, events, i - 1, c);
      LoginSemaphoreAccount(k, states, events, i - 1, c);
      UpIdsStep(k, states[i - 1], events[i - 1], c);
    } else {
      NoRequestYet(k, states, events, c);
    }
  }

  lemma NoRequestYet(k: Crypto.Suite, states: seq<System>, events: seq<Event>, c: nat)
    requires Run(k, states, events)
    ensures UpIds(states[0], c)
  {
    hide Step, Enabled;
  }
}
