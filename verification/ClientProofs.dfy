/** What a client has become after any packets at all, from whatever server, as a history of those packets. */
module ClientProofs {
  import opened Bytes
  import opened Wire
  import opened Phases
  import opened ClientSpec
  import Crypto

  /** The packet handlers, one packet after the other. */
  function After(k: Crypto.Suite, ps: seq<Packet>): Client
    requires forall p | p in ps :: WellFormed(p)
    decreases |ps|
  {
    if ps == [] then Init() else OnRecv(k, After(k, ps[..|ps| - 1]), ps[|ps| - 1], true).client
  }

  function Count(ps: seq<Packet>, f: Packet -> bool): nat
    decreases |ps|
  {
    if ps == [] then 0 else Count(ps[..|ps| - 1], f) + if f(ps[|ps| - 1]) then 1 else 0
  }

  /** A HELLO_ACK for version 1. */
  predicate Welcome(p: Packet) { p.HelloAck? && p.selected == 1 }

  /** An answer to a key request: a KEY_RESP, or ERROR 0x01. */
  predicate Answer(p: Packet) { p.KeyResp? || (p.Error? && p.code == 0x01) }

  predicate Welcomed(ps: seq<Packet>) {
    exists i :: 0 <= i < |ps| && Welcome(ps[i])
  }

  /** Place `i` holds the first welcome. */
  predicate FirstWelcome(ps: seq<Packet>, i: nat) {
    i < |ps| && Welcome(ps[i]) && forall j | 0 <= j < i :: !Welcome(ps[j])
  }

  /** A successful AUTH_RESP after a welcome. */
  predicate LoggedIn(ps: seq<Packet>) {
    exists i, j :: 0 <= i < j < |ps| && Welcome(ps[i]) && ps[j].AuthResp? && ps[j].status == 0
  }

  /** The key in the last answer, all zeros if there is none, if it says "no such user" or if its key has another size. */
  predicate IsLastKey(ps: seq<Packet>, key: seq<byte>) {
    if exists i :: 0 <= i < |ps| && Answer(ps[i]) then
      exists i :: 0 <= i < |ps| && Answer(ps[i]) && (forall j | i < j < |ps| :: !Answer(ps[j]))
                  && key == if ps[i].KeyResp? && |ps[i].key| == 32 then ps[i].key else Zeros(32)
    else key == Zeros(32)
  }

  /** Version, session ID and state. */
  ghost predicate Greeting(ps: seq<Packet>, cl: Client) {
    && cl.phase != StClosing
    && (cl.phase != StHello <==> Welcomed(ps))
    && (forall i: nat | i < |ps| && FirstWelcome(ps, i) :: cl.id == ps[i].id)
    && (cl.phase == StEstablished <==> LoggedIn(ps))
    && (cl.authOk <==> LoggedIn(ps))
  }

  /** What each semaphore has been posted. */
  ghost predicate Posted(ps: seq<Packet>, cl: Client) {
    && cl.loginReady == (if Welcomed(ps) then 1 else 0)
    && cl.authDone == Count(ps, (p: Packet) => p.AuthResp?)
    && cl.keySem == Count(ps, (p: Packet) => Answer(p))
    && IsLastKey(ps, cl.keyResult)
  }

  lemma WelcomeGrows(ps: seq<Packet>, p: Packet)
    ensures Welcomed(ps + [p]) <==> Welcomed(ps) || Welcome(p)
    ensures forall i: nat | i <= |ps| && FirstWelcome(ps + [p], i) ::
              if i < |ps| then FirstWelcome(ps, i) && Welcomed(ps) else Welcome(p) && !Welcomed(ps)
  {
    var qs := ps + [p];
    assert forall i | 0 <= i < |ps| :: qs[i] == ps[i];
    assert qs[|ps|] == p;
    if Welcomed(ps) {
      var i :| 0 <= i < |ps| && Welcome(ps[i]);
      assert Welcome(qs[i]);
    }
  }

  lemma LoginGrows(ps: seq<Packet>, p: Packet)
    ensures LoggedIn(ps + [p]) <==>
            LoggedIn(ps) || (Welcomed(ps) && p.AuthResp? && p.status == 0)
  {
    var qs := ps + [p];
    assert forall i | 0 <= i < |ps| :: qs[i] == ps[i];
    if LoggedIn(ps) {
      var i, j :| 0 <= i < j < |ps| && Welcome(ps[i]) && ps[j].AuthResp? && ps[j].status == 0;
      assert Welcome(qs[i]) && qs[j].AuthResp? && qs[j].status == 0;
    }
    if i :| 0 <= i < |ps| && Welcome(ps[i]) {
      assert Welcome(qs[i]) && qs[|ps|] == p;
    }
  }

  lemma LastKeyGrows(ps: seq<Packet>, p: Packet, key: seq<byte>)
    requires IsLastKey(ps, key) && WellFormed(p)
    ensures !Answer(p) ==> IsLastKey(ps + [p], key)
    ensures Answer(p) ==> IsLastKey(ps + [p], if p.KeyResp? && p.keyLen == 32 then p.key else Zeros(32))
  {
    var qs := ps + [p];
    assert forall i | 0 <= i < |ps| :: qs[i] == ps[i];
    assert qs[|ps|] == p;
    if !Answer(p) && exists i :: 0 <= i < |ps| && Answer(ps[i]) {
      var i :| 0 <= i < |ps| && Answer(ps[i]) && (forall j | i < j < |ps| :: !Answer(ps[j]))
                && key == if ps[i].KeyResp? && |ps[i].key| == 32 then ps[i].key else Zeros(32);
      assert Answer(qs[i]);
    }
  }

  lemma GreetingStep(k: Crypto.Suite, ps: seq<Packet>, p: Packet, cl: Client)
    requires WellFormed(p) && Greeting(ps, cl)
    ensures Greeting(ps + [p], OnRecv(k, cl, p, true).client)
  {
    hide OnChatDeliver, LoggedIn, FirstWelcome, Welcomed, Zeros;
    WelcomeGrows(ps, p);
    LoginGrows(ps, p);
    LoginNeedsWelcome(ps);
    var qs, cl' := ps + [p], OnRecv(k, cl, p, true).client;
    forall i: nat | i < |qs| && FirstWelcome(qs, i)
      ensures cl'.id == qs[i].id
    {
      assert i < |ps| ==> qs[i] == ps[i];
    }
  }

  lemma LoginNeedsWelcome(ps: seq<Packet>)
    ensures LoggedIn(ps) ==> Welcomed(ps)
  {
  }

  /**
   Any packets: the client leaves HELLO with the first HELLO_ACK for version 1 and takes its ID, is accepted exactly
   if a successful AUTH_RESP followed one, and never goes back.
   */
  lemma {:induction false} GreetingExplained(k: Crypto.Suite, ps: seq<Packet>)
    requires forall p | p in ps :: WellFormed(p)
    ensures Greeting(ps, After(k, ps))
    decreases |ps|
  {
    if ps != [] {
      hide Greeting, OnRecv;
      var before, p := ps[..|ps| - 1], ps[|ps| - 1];
      assert ps == before + [p];
      GreetingExplained(k, before);
      GreetingStep(k, before, p, After(k, before));
    }
  }

  lemma PostsStep(k: Crypto.Suite, ps: seq<Packet>, p: Packet, cl: Client)
    requires WellFormed(p) && Greeting(ps, cl) && Posted(ps, cl)
    ensures Posted(ps + [p], OnRecv(k, cl, p, true).client)
  {
    hide OnChatDeliver, LoggedIn, FirstWelcome, Welcomed, IsLastKey;
    WelcomeGrows(ps, p);
    LastKeyGrows(ps, p, cl.keyResult);
    assert (ps + [p])[..|ps|] == ps;
  }

  /**
   Any packets: one post of login_ready, for the first welcome; one of auth_done for every AUTH_RESP, whatever it says
   and whenever it comes; one of key_fetch_sem for every answer, and the key is that of the last.
   */
  lemma {:induction false} PostsExplained(k: Crypto.Suite, ps: seq<Packet>)
    requires forall p | p in ps :: WellFormed(p)
    ensures Posted(ps, After(k, ps))
    decreases |ps|
  {
    if ps != [] {
      hide Greeting, Posted, OnRecv;
      var before, p := ps[..|ps| - 1], ps[|ps| - 1];
      assert ps == before + [p];
      PostsExplained(k, before);
      GreetingExplained(k, before);
      PostsStep(k, before, p, After(k, before));
    } else {
      assert IsLastKey(ps, Zeros(32));
    }
  }

  /** Nothing but a BYE is answered, and that with a BYE under the client's own ID. */
  lemma OnlyByeIsAnswered(k: Crypto.Suite, cl: Client, p: Packet, ok: bool)
    requires WellFormed(p)
    ensures OnRecv(k, cl, p, ok).sends != [] <==> p.Bye? && ok
    ensures OnRecv(k, cl, p, ok).sends != [] ==> OnRecv(k, cl, p, ok).sends == [Bye(cl.id)]
  {
  }

  /** What the user is shown, for any CHAT_DELIVER: a text only if it opens, and a reason otherwise. */
  lemma DisplayExplained(k: Crypto.Suite, cl: Client, p: Packet, text: seq<byte>)
    requires p.ChatDeliver? && WellFormed(p)
    ensures var d := OnChatDeliver(k, cl, p);
            var plain := k.open(k.kdf(k.shared(cl.priv, p.encKey[..32])), p.nonce, p.ct);
            var wellMade := p.encKeyLen == 32 && |p.ct| >= 16;
            && d != Quiet
            && (d == WrongState <==> cl.phase != StEstablished)
            && (d.CannotDecrypt? <==> cl.phase == StEstablished && !wellMade)
            && (d == Shows(p.name, text) <==> cl.phase == StEstablished && wellMade && plain == Some(text))
            && (d == DecryptFailed(p.name) <==> cl.phase == StEstablished && wellMade && plain == None)
            && (d.Shows? ==> d.sender == p.name) && (d.DecryptFailed? ==> d.sender == p.name) && (d.CannotDecrypt? ==> d.sender == p.name)
  {
  }
}
