/** The client: its packet handlers, and its main thread cut at the points where it waits. */
module ClientSpec {
  import opened Bytes
  import opened Wire
  import opened Phases
  import Crypto

  /** Where the main thread is. */
  datatype Pc =
    | WaitLogin                                            // for login_ready
    | WaitAuth                                             // for auth_done
    | Idle                                                 // at the prompt
    | Fetching(recipient: seq<byte>, text: seq<byte>)      // in send_chat, for key_fetch_sem
    | Leaving                                              // login refused
    | Done

  datatype Client = Client(
    phase: Phase,
    id: u32,
    name: seq<byte>,
    priv: seq<byte>,
    pub: seq<byte>,
    loginReady: nat,
    authDone: nat,
    authOk: bool,
    keySem: nat,
    keyResult: seq<byte>,
    pc: Pc,
    waitFailed: bool)      // some wait for key_fetch_sem timed out or was interrupted

  /** What the user sees of a CHAT_DELIVER. */
  datatype Display = Quiet | WrongState | CannotDecrypt(sender: seq<byte>) | DecryptFailed(sender: seq<byte>)
                   | Shows(sender: seq<byte>, text: seq<byte>)

  datatype Reaction = Reaction(client: Client, sends: seq<Packet>, display: Display)

  /** Longest text whose ciphertext length fits the int and uint32_t the code casts to. */
  const TEXT_MAX := 0x7fff_ffef

  function Init(): Client {
    Client(StHello, 0, [], Zeros(KEY_LEN), Zeros(KEY_LEN), 0, 0, false, 0, Zeros(KEY_LEN), WaitLogin, false)
  }

  function HelloPacket(): Packet {
    Hello(0, 1, [1] + Zeros(7))
  }

  // ---------- handlers ----------

  function OnHelloAck(cl: Client, p: Packet): Client
    requires p.HelloAck?
  {
    if cl.phase != StHello || p.selected != 1 then cl
    else cl.(id := p.id, phase := StAuth, loginReady := cl.loginReady + 1)
  }

  function OnAuthResp(cl: Client, p: Packet): Client
    requires p.AuthResp?
  {
    var cl1 :=
      if cl.phase != StAuth then cl
      else if p.status == AUTH_OK then cl.(phase := StEstablished, authOk := true)
      else cl.(authOk := false);
    cl1.(authDone := cl1.authDone + 1)
  }

  function OnKeyResp(cl: Client, p: Packet): Client
    requires p.KeyResp?
  {
    cl.(keyResult := if p.keyLen == 32 then p.key else Zeros(KEY_LEN), keySem := cl.keySem + 1)
  }

  function OnError(cl: Client, p: Packet): Client
    requires p.Error?
  {
    if p.code != E_USER_NOT_FOUND then cl
    else cl.(keyResult := Zeros(KEY_LEN), keySem := cl.keySem + 1)
  }

  function OnChatDeliver(k: Crypto.Suite, cl: Client, p: Packet): Display
    requires p.ChatDeliver? && |p.encKey| == ENC_KEY_FIELD
  {
    if cl.phase != StEstablished then WrongState
    else if p.encKeyLen != 32 || |p.ct| < TAG_LEN then CannotDecrypt(p.name)
    else match Crypto.Decrypt(k, cl.priv, p.encKey[..KEY_LEN], p.nonce, p.ct)
      case Some(text) => Shows(p.name, text)
      case None => DecryptFailed(p.name)
  }

  /** Dispatch; packets only the server handles are ignored. */
  function OnRecv(k: Crypto.Suite, cl: Client, p: Packet, ok: bool): Reaction
    requires WellFormed(p)
  {
    match p
    case HelloAck(_, _) => Reaction(OnHelloAck(cl, p), [], Quiet)
    case AuthResp(_, _) => Reaction(OnAuthResp(cl, p), [], Quiet)
    case KeyResp(_, _, _, _) => Reaction(OnKeyResp(cl, p), [], Quiet)
    case Error(_, _, _) => Reaction(OnError(cl, p), [], Quiet)
    case Bye(_) => Reaction(cl, if ok then [Bye(cl.id)] else [], Quiet)
    case ChatDeliver(_, _, _, _, _, _) => Reaction(cl, [], OnChatDeliver(k, cl, p))
    case _ => Reaction(cl, [], Quiet)
  }

  // ---------- main thread ----------

  predicate CanLogin(cl: Client, name: seq<byte>, hash: seq<byte>) {
    cl.pc.WaitLogin? && cl.loginReady > 0 && 1 <= |name| <= USERNAME_MAX && 0 !in name && |hash| == HASH_LEN
  }

  /** sqmp_login with the name read from the terminal, the password hash and the fresh private key. */
  function Login(k: Crypto.Suite, cl: Client, name: seq<byte>, priv: seq<byte>): Client {
    cl.(loginReady := if cl.loginReady > 0 then cl.loginReady - 1 else 0,
        name := name, priv := priv, pub := k.pub(priv), pc := WaitAuth)
  }

  function LoginPacket(k: Crypto.Suite, cl: Client, name: seq<byte>, hash: seq<byte>, priv: seq<byte>): Packet {
    AuthReq(cl.id, name, hash, 32, k.pub(priv))
  }

  function EnterChat(cl: Client): Client
    requires cl.authDone > 0
  {
    cl.(authDone := cl.authDone - 1, pc := if cl.authOk then Idle else Leaving)
  }

  /** send_chat up to the wait for the key. */
  function Ask(cl: Client, recipient: seq<byte>, text: seq<byte>): Client {
    cl.(pc := Fetching(recipient, text))
  }

  /** The wait failed. */
  function GiveUp(cl: Client): Client {
    cl.(pc := Idle, waitFailed := true)
  }

  /** The wait succeeded; the rest of send_chat ends at the prompt whatever it does. */
  function Resume(cl: Client): Client
    requires cl.keySem > 0
  {
    cl.(keySem := cl.keySem - 1, pc := Idle)
  }

  /** What send_chat sends after a successful wait: nothing when the answer was "no such user". */
  function ChatPacket(k: Crypto.Suite, cl: Client, eph: seq<byte>, nonce: seq<byte>): Option<Packet>
    requires cl.pc.Fetching? && |k.pub(eph)| == KEY_LEN
  {
    if cl.keyResult == Zeros(KEY_LEN) then None
    else Some(ChatSend(cl.id, cl.pc.recipient, 32, Pad(k.pub(eph), ENC_KEY_FIELD), nonce,
                       Crypto.Encrypt(k, cl.keyResult, eph, nonce, cl.pc.text)))
  }
}
