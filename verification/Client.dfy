/**
 The client's session object in place. Each handler, and each part of the main thread between two waits, is
 proved to be the corresponding function of ClientSpec; what the main thread sends is proved byte by byte.
 */
module ClientImpl {
  import opened Bytes
  import opened Wire
  import opened Phases
  import Crypto
  import C = ClientSpec

  class Client {
    var phase: Phase
    var id: u32
    var name: seq<byte>
    var priv: seq<byte>
    var pub: seq<byte>
    var loginReady: nat
    var authDone: nat
    var authOk: bool
    var keySem: nat
    var keyResult: seq<byte>
    ghost var pc: C.Pc
    ghost var waitFailed: bool

    ghost function View(): C.Client
      reads this
    {
      C.Client(phase, id, name, priv, pub, loginReady, authDone, authOk, keySem, keyResult, pc, waitFailed)
    }

    constructor ()
      ensures View() == C.Init()
    {
      phase, id, name, priv, pub := StHello, 0, [], Zeros(KEY_LEN), Zeros(KEY_LEN);
      loginReady, authDone, authOk, keySem, keyResult := 0, 0, false, 0, Zeros(KEY_LEN);
      pc, waitFailed := C.WaitLogin, false;
    }

    // ---------- handlers ----------

    method ProcessHelloAck(p: Packet)
      requires p.HelloAck?
      modifies this
      ensures View() == C.OnHelloAck(old(View()), p)
    {
      if phase != StHello { return; }
      if p.selected != 1 { return; }
      id := p.id;
      phase := StAuth;
      loginReady := loginReady + 1;
    }

    method ProcessAuthResp(p: Packet)
      requires p.AuthResp?
      modifies this
      ensures View() == C.OnAuthResp(old(View()), p)
    {
      if phase == StAuth {
        if p.status == AUTH_OK {
          phase := StEstablished;
          authOk := true;
        } else {
          authOk := false;
        }
      }
      authDone := authDone + 1;
    }

    /** Records the answer to a key request and wakes send_chat. */
    method PostKey(key: seq<byte>)
      modifies this`keyResult, this`keySem
      ensures View() == old(View()).(keyResult := key, keySem := old(keySem) + 1)
    {
      keyResult := key;
      keySem := keySem + 1;
    }

    method ProcessKeyResp(p: Packet)
      requires p.KeyResp?
      modifies this
      ensures View() == C.OnKeyResp(old(View()), p)
    {
      if p.keyLen == 32 { PostKey(p.key); } else { PostKey(Zeros(KEY_LEN)); }
    }

    method ProcessError(p: Packet)
      requires p.Error?
      modifies this
      ensures View() == C.OnError(old(View()), p)
    {
      if p.code == E_USER_NOT_FOUND {
        PostKey(Zeros(KEY_LEN));
      }
    }

    method ProcessChatDeliver(k: Crypto.Suite, p: Packet) returns (display: C.Display)
      requires p.ChatDeliver? && |p.encKey| == ENC_KEY_FIELD
      ensures display == C.OnChatDeliver(k, View(), p)
    {
      if phase != StEstablished { return C.WrongState; }
      if p.encKeyLen != 32 || |p.ct| < TAG_LEN { return C.CannotDecrypt(p.name); }
      var text := Crypto.Decrypt(k, priv, p.encKey[..KEY_LEN], p.nonce, p.ct);
      if text.None? { return C.DecryptFailed(p.name); }
      return C.Shows(p.name, text.value);
    }

    method OnStreamRecv(k: Crypto.Suite, p: Packet, ok: bool) returns (sends: seq<Packet>, display: C.Display)
      requires WellFormed(p)
      modifies this
      ensures C.Reaction(View(), sends, display) == C.OnRecv(k, old(View()), p, ok)
    {
      hide C.OnHelloAck, C.OnAuthResp, C.OnKeyResp, C.OnError, C.OnChatDeliver;
      sends, display := [], C.Quiet;
      match p
      case HelloAck(_, _) => ProcessHelloAck(p);
      case AuthResp(_, _) => ProcessAuthResp(p);
      case KeyResp(_, _, _, _) => ProcessKeyResp(p);
      case Error(_, _, _) => ProcessError(p);
      case Bye(_) => sends := if ok then [Bye(id)] else [];
      case ChatDeliver(_, _, _, _, _, _) => display := ProcessChatDeliver(k, p);
      case _ =>
    }

    // ---------- main thread ----------

    /** sqmp_login after the wait for the HELLO_ACK: the AUTH_REQ it puts on the stream. */
    method Login(k: Crypto.Suite, who: seq<byte>, hash: seq<byte>, secret: seq<byte>) returns (buf: array<byte>)
      requires C.CanLogin(View(), who, hash) && |k.pub(secret)| == KEY_LEN
      modifies this`loginReady, this`name, this`priv, this`pub, this`pc
      ensures View() == C.Login(k, old(View()), who, secret)
      ensures fresh(buf) && buf[..] == Encode(C.LoginPacket(k, old(View()), who, hash, secret))
    {
      hide Encode;
      loginReady := loginReady - 1;
      pub := k.pub(secret);
      priv := secret;
      buf := PackAuthReq(id, who, hash, pub);
      name := who;
      pc := C.WaitAuth;
    }

    /** main after the wait for the AUTH_RESP. */
    method EnterChat() returns (entered: bool)
      requires authDone > 0
      modifies this`authDone, this`pc
      ensures View() == C.EnterChat(old(View())) && (entered <==> pc.Idle?)
    {
      authDone := authDone - 1;
      entered := authOk;
      pc := if authOk then C.Idle else C.Leaving;
    }

    /** send_chat up to the wait: the KEY_REQ. */
    method AskKey(recipient: seq<byte>, text: seq<byte>) returns (buf: array<byte>)
      requires |recipient| <= USERNAME_MAX
      modifies this`pc
      ensures View() == C.Ask(old(View()), recipient, text)
      ensures fresh(buf) && buf[..] == Encode(KeyReq(id, recipient))
    {
      buf := PackKeyReq(id, recipient);
      pc := C.Fetching(recipient, text);
    }

    /** send_chat from the wait on: nothing after a failed wait or an all-zero answer, else the CHAT_SEND. */
    method FinishSend(k: Crypto.Suite, waited: bool, recipient: seq<byte>, text: seq<byte>, eph: seq<byte>, nonce: seq<byte>)
      returns (buf: array?<byte>)
      requires pc == C.Fetching(recipient, text) && |recipient| <= USERNAME_MAX && |text| <= C.TEXT_MAX
      requires Crypto.Lawful(k) && |nonce| == NONCE_LEN && (waited ==> keySem > 0)
      modifies this`keySem, this`waitFailed, this`pc
      ensures View() == if waited then C.Resume(old(View())) else C.GiveUp(old(View()))
      ensures buf == null <==> !waited || C.ChatPacket(k, old(View()), eph, nonce).None?
      ensures buf != null ==> fresh(buf) && var p := C.ChatPacket(k, old(View()), eph, nonce);
                              WellFormed(p.value) && buf[..] == Encode(p.value)
    {
      hide Encode, Crypto.Encrypt, Crypto.Lawful, Pad, Zeros;
      Crypto.Sizes(k, keyResult, eph, nonce, text);
      buf := null;
      pc := C.Idle;
      if !waited {
        waitFailed := true;
        return;
      }
      keySem := keySem - 1;
      if keyResult == Zeros(KEY_LEN) { return; }
      var ct := Crypto.Encrypt(k, keyResult, eph, nonce, text);
      buf := PackChatSend(id, recipient, k.pub(eph), nonce, ct);
    }
  }
}
