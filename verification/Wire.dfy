/**
 The packed, little-endian packet layouts, the dispatch on the message type, and the
 server's rewriting of CHAT_SEND into CHAT_DELIVER, all at byte level.
 */
module Wire {
  import opened Bytes

  const HEADER_LEN := 12
  const CHAT_LEN := 319

  const T_HELLO: byte := 0x01
  const T_HELLO_ACK: byte := 0x02
  const T_AUTH_REQ: byte := 0x03
  const T_AUTH_RESP: byte := 0x04
  const T_KEY_REQ: byte := 0x05
  const T_KEY_RESP: byte := 0x06
  const T_ERROR: byte := 0x07
  const T_BYE: byte := 0x08
  const T_CHAT_SEND: byte := 0x10
  const T_CHAT_DELIVER: byte := 0x11

  const E_USER_NOT_FOUND: byte := 0x01
  const E_COULD_NOT_SEND: byte := 0x02
  const E_VERSION_MISMATCH: byte := 0x03
  const E_UNEXPECTED_MSG: byte := 0x04

  const AUTH_OK: byte := 0x00
  const AUTH_INVALID: byte := 0x01

  const MAX_MESSAGE_SIZE: u32 := 65535

  /** The fields of a packet that some handler reads or writes. */
  datatype Packet =
    | Hello(id: u32, numVersions: byte, versions: seq<byte>)
    | HelloAck(id: u32, selected: byte)
    | AuthReq(id: u32, name: seq<byte>, hash: seq<byte>, keyLen: u16, key: seq<byte>)
    | AuthResp(id: u32, status: byte)
    | KeyReq(id: u32, name: seq<byte>)
    | KeyResp(id: u32, name: seq<byte>, keyLen: u16, key: seq<byte>)
    | Error(id: u32, code: byte, desc: seq<byte>)
    | Bye(id: u32)
    | ChatSend(id: u32, name: seq<byte>, encKeyLen: u16, encKey: seq<byte>, nonce: seq<byte>, ct: seq<byte>)
    | ChatDeliver(id: u32, name: seq<byte>, encKeyLen: u16, encKey: seq<byte>, nonce: seq<byte>, ct: seq<byte>)

  /** Field widths and name lengths that the packed structures can hold. */
  predicate WellFormed(p: Packet) {
    match p
    case Hello(_, _, versions) => |versions| == 8
    case HelloAck(_, _) => true
    case AuthReq(_, name, hash, keyLen, key) => |name| <= USERNAME_MAX && |hash| == HASH_LEN && |key| == keyLen
    case AuthResp(_, _) => true
    case KeyReq(_, name) => |name| <= USERNAME_MAX
    case KeyResp(_, name, keyLen, key) => |name| <= USERNAME_MAX && |key| == keyLen
    case Error(_, _, desc) => |desc| <= 128
    case Bye(_) => true
    case ChatSend(_, name, _, encKey, nonce, ct) => ChatFields(name, encKey, nonce, ct)
    case ChatDeliver(_, name, _, encKey, nonce, ct) => ChatFields(name, encKey, nonce, ct)
  }

  predicate ChatFields(name: seq<byte>, encKey: seq<byte>, nonce: seq<byte>, ct: seq<byte>) {
    |name| <= USERNAME_MAX && |encKey| == ENC_KEY_FIELD && |nonce| == NONCE_LEN && |ct| < 0x1_0000_0000
  }

  function Header(t: byte, id: u32): (h: seq<byte>)
    ensures |h| == HEADER_LEN
  {
    [1, t, 0] + LE32(id) + Zeros(5)
  }

  /** A length byte followed by the name in its zeroed 32-byte field. */
  function NameField(name: seq<byte>): (f: seq<byte>)
    requires |name| <= USERNAME_MAX
    ensures |f| == 33
  {
    [|name| as byte] + Pad(name, USERNAME_MAX)
  }

  function ChatTail(encKeyLen: u16, encKey: seq<byte>, nonce: seq<byte>, ct: seq<byte>): (f: seq<byte>)
    requires |encKey| == ENC_KEY_FIELD && |nonce| == NONCE_LEN && |ct| < 0x1_0000_0000
    ensures |f| == 274 + |ct|
  {
    LE16(encKeyLen) + encKey + nonce + LE32(|ct|) + ct
  }

  /** The bytes a sender puts on the stream: cleared buffer, then the fields. */
  function Encode(p: Packet): (b: seq<byte>)
    requires WellFormed(p)
    ensures |b| >= HEADER_LEN
  {
    match p
    case Hello(id, n, versions) => Header(T_HELLO, id) + [n] + versions + [1] + LE32(MAX_MESSAGE_SIZE) + Zeros(2)
    case HelloAck(id, selected) => Header(T_HELLO_ACK, id) + [selected] + LE32(MAX_MESSAGE_SIZE) + Zeros(2)
    case AuthReq(id, name, hash, keyLen, key) => Header(T_AUTH_REQ, id) + NameField(name) + hash + LE16(keyLen) + key
    case AuthResp(id, status) => Header(T_AUTH_RESP, id) + [status] + LE32(id) + Zeros(3)
    case KeyReq(id, name) => Header(T_KEY_REQ, id) + NameField(name)
    case KeyResp(id, name, keyLen, key) => Header(T_KEY_RESP, id) + NameField(name) + LE16(keyLen) + key
    case Error(id, code, desc) => Header(T_ERROR, id) + [code] + [|desc| as byte] + Pad(desc, 128)
    case Bye(id) => Header(T_BYE, id)
    case ChatSend(id, name, l, encKey, nonce, ct) =>
      Header(T_CHAT_SEND, id) + NameField(name) + ChatTail(l, encKey, nonce, ct)
    case ChatDeliver(id, name, l, encKey, nonce, ct) =>
      Header(T_CHAT_DELIVER, id) + NameField(name) + ChatTail(l, encKey, nonce, ct)
  }

  /** `len` bytes at offset `off`. */
  function At(b: seq<byte>, off: nat, len: nat): (r: seq<byte>)
    requires off + len <= |b|
    ensures |r| == len
  {
    b[off..off + len]
  }

  /** One RECEIVE event carries one complete packet: every byte the handler will read is there. */
  predicate Complete(b: seq<byte>) {
    |b| >= HEADER_LEN ==>
      var t := b[1];
      && (t == T_HELLO ==> |b| == 28)
      && (t == T_HELLO_ACK ==> |b| == 19)
      && (t == T_AUTH_REQ ==> |b| >= 79 && b[12] <= 32 && |b| == 79 + UnLE16(At(b, 77, 2)))
      && (t == T_AUTH_RESP ==> |b| == 20)
      && (t == T_KEY_REQ ==> |b| == 45 && b[12] <= 32)
      && (t == T_KEY_RESP ==> |b| >= 47 && b[12] <= 32 && |b| == 47 + UnLE16(At(b, 45, 2)))
      && (t == T_ERROR ==> |b| == 142 && b[13] <= 128)
      && (t == T_BYE ==> |b| == 12)
      && (t == T_CHAT_SEND || t == T_CHAT_DELIVER ==>
            |b| >= CHAT_LEN && b[12] <= 32 && |b| == CHAT_LEN + UnLE32(At(b, 315, 4)))
  }

  /** What the receiver sees of a packet; `None` when it is too short or of a type nobody handles. */
  function Decode(b: seq<byte>): (r: Option<Packet>)
    requires Complete(b)
    ensures |b| < HEADER_LEN ==> r == None
    ensures r.Some? ==> WellFormed(r.value)
  {
    if |b| < HEADER_LEN then None else
    var t := b[1];
    var id := UnLE32(At(b, 3, 4));
    if t == T_HELLO then Some(Hello(id, b[12], At(b, 13, 8)))
    else if t == T_HELLO_ACK then Some(HelloAck(id, b[12]))
    else if t == T_AUTH_REQ then
      Some(AuthReq(id, At(b, 13, b[12]), At(b, 45, 32), UnLE16(At(b, 77, 2)), b[79..]))
    else if t == T_AUTH_RESP then Some(AuthResp(id, b[12]))
    else if t == T_KEY_REQ then Some(KeyReq(id, At(b, 13, b[12])))
    else if t == T_KEY_RESP then Some(KeyResp(id, At(b, 13, b[12]), UnLE16(At(b, 45, 2)), b[47..]))
    else if t == T_ERROR then Some(Error(id, b[12], At(b, 14, b[13])))
    else if t == T_BYE then Some(Bye(id))
    else if t == T_CHAT_SEND then
      Some(ChatSend(id, At(b, 13, b[12]), UnLE16(At(b, 45, 2)), At(b, 47, 256), At(b, 303, 12), b[319..]))
    else if t == T_CHAT_DELIVER then
      Some(ChatDeliver(id, At(b, 13, b[12]), UnLE16(At(b, 45, 2)), At(b, 47, 256), At(b, 303, 12), b[319..]))
    else None
  }

  // ---------- round trip ----------

  lemma HeaderFields(t: byte, id: u32, rest: seq<byte>)
    ensures var b := Header(t, id) + rest;
            b[0] == 1 && b[1] == t && b[2] == 0 && UnLE32(At(b, 3, 4)) == id && b[12..] == rest
  {
    var b := Header(t, id) + rest;
    assert At(b, 3, 4) == LE32(id);
    LE32Inverse(id);
  }

  lemma NameFieldAt(h: seq<byte>, name: seq<byte>, rest: seq<byte>)
    requires |h| == 12 && |name| <= USERNAME_MAX
    ensures var b := h + NameField(name) + rest;
            b[12] == |name| && At(b, 13, b[12]) == name && b[45..] == rest
  {
    var b := h + NameField(name) + rest;
    assert b[13..45] == Pad(name, USERNAME_MAX);
    assert At(b, 13, b[12]) == b[13..45][..|name|];
  }

  lemma ChatTailFields(pre: seq<byte>, l: u16, encKey: seq<byte>, nonce: seq<byte>, ct: seq<byte>)
    requires |pre| == 45 && |encKey| == ENC_KEY_FIELD && |nonce| == NONCE_LEN && |ct| < 0x1_0000_0000
    ensures var b := pre + ChatTail(l, encKey, nonce, ct);
            && UnLE16(At(b, 45, 2)) == l && At(b, 47, 256) == encKey && At(b, 303, 12) == nonce
            && UnLE32(At(b, 315, 4)) == |ct| && b[319..] == ct
  {
    var b := pre + ChatTail(l, encKey, nonce, ct);
    assert At(b, 45, 2) == LE16(l);
    assert At(b, 315, 4) == LE32(|ct|);
    LE16Inverse(l);
    LE32Inverse(|ct|);
  }

  lemma ChatRoundTrip(t: byte, id: u32, name: seq<byte>, l: u16, encKey: seq<byte>, nonce: seq<byte>, ct: seq<byte>)
    requires ChatFields(name, encKey, nonce, ct)
    ensures var b := Header(t, id) + NameField(name) + ChatTail(l, encKey, nonce, ct);
            && |b| == CHAT_LEN + |ct|
            && b[1] == t && UnLE32(At(b, 3, 4)) == id && b[12] == |name| && At(b, 13, b[12]) == name
            && UnLE16(At(b, 45, 2)) == l && At(b, 47, 256) == encKey && At(b, 303, 12) == nonce
            && UnLE32(At(b, 315, 4)) == |ct| && b[319..] == ct
  {
    var tail := ChatTail(l, encKey, nonce, ct);
    HeaderFields(t, id, NameField(name) + tail);
    assert Header(t, id) + NameField(name) + tail == Header(t, id) + (NameField(name) + tail);
    NameFieldAt(Header(t, id), name, tail);
    ChatTailFields(Header(t, id) + NameField(name), l, encKey, nonce, ct);
  }

  /** The named and keyed packets: name field, then whatever follows it. */
  lemma NamedFields(t: byte, id: u32, name: seq<byte>, rest: seq<byte>)
    requires |name| <= USERNAME_MAX
    ensures var b := Header(t, id) + NameField(name) + rest;
            b[1] == t && UnLE32(At(b, 3, 4)) == id && b[12] == |name| && At(b, 13, b[12]) == name && b[45..] == rest
  {
    HeaderFields(t, id, NameField(name) + rest);
    assert Header(t, id) + NameField(name) + rest == Header(t, id) + (NameField(name) + rest);
    NameFieldAt(Header(t, id), name, rest);
  }

  lemma AuthReqRoundTrip(p: Packet)
    requires p.AuthReq? && WellFormed(p)
    ensures Complete(Encode(p)) && Decode(Encode(p)) == Some(p)
  {
    var b := Encode(p);
    var rest := p.hash + LE16(p.keyLen) + p.key;
    assert b == Header(T_AUTH_REQ, p.id) + NameField(p.name) + rest;
    NamedFields(T_AUTH_REQ, p.id, p.name, rest);
    assert At(b, 45, 32) == b[45..][..32] == p.hash;
    assert At(b, 77, 2) == b[45..][32..34] == LE16(p.keyLen);
    assert b[79..] == b[45..][34..] == p.key;
    LE16Inverse(p.keyLen);
  }

  lemma KeyRespRoundTrip(p: Packet)
    requires p.KeyResp? && WellFormed(p)
    ensures Complete(Encode(p)) && Decode(Encode(p)) == Some(p)
  {
    var b := Encode(p);
    var rest := LE16(p.keyLen) + p.key;
    assert b == Header(T_KEY_RESP, p.id) + NameField(p.name) + rest;
    NamedFields(T_KEY_RESP, p.id, p.name, rest);
    assert At(b, 45, 2) == b[45..][..2] == LE16(p.keyLen);
    assert b[47..] == b[45..][2..] == p.key;
    LE16Inverse(p.keyLen);
  }

  lemma HandshakeRoundTrip(p: Packet)
    requires WellFormed(p) && (p.Hello? || p.HelloAck? || p.AuthResp?)
    ensures Complete(Encode(p)) && Decode(Encode(p)) == Some(p)
  {
    var b := Encode(p);
    match p
    case Hello(id, n, versions) =>
      var rest := [n] + versions + [1] + LE32(MAX_MESSAGE_SIZE) + Zeros(2);
      assert b == Header(T_HELLO, id) + rest;
      HeaderFields(T_HELLO, id, rest);
      assert At(b, 13, 8) == b[12..][1..9] == versions;
    case HelloAck(id, selected) =>
      var rest := [selected] + LE32(MAX_MESSAGE_SIZE) + Zeros(2);
      assert b == Header(T_HELLO_ACK, id) + rest;
      HeaderFields(T_HELLO_ACK, id, rest);
    case AuthResp(id, status) =>
      var rest := [status] + LE32(id) + Zeros(3);
      assert b == Header(T_AUTH_RESP, id) + rest;
      HeaderFields(T_AUTH_RESP, id, rest);
  }

  lemma PlainRoundTrip(p: Packet)
    requires WellFormed(p) && (p.KeyReq? || p.Error? || p.Bye?)
    ensures Complete(Encode(p)) && Decode(Encode(p)) == Some(p)
  {
    var b := Encode(p);
    match p
    case KeyReq(id, name) =>
      assert b == Header(T_KEY_REQ, id) + NameField(name) + [];
      NamedFields(T_KEY_REQ, id, name, []);
    case Error(id, code, desc) =>
      var rest := [code] + [|desc| as byte] + Pad(desc, 128);
      assert b == Header(T_ERROR, id) + rest;
      HeaderFields(T_ERROR, id, rest);
      assert b[13] == rest[1];
      assert At(b, 14, |desc|) == b[12..][2..][..|desc|] == desc;
    case Bye(id) =>
      assert b == Header(T_BYE, id) + [];
      HeaderFields(T_BYE, id, []);
  }

  /** Every packet any side can send is read back by the other side field for field. */
  lemma RoundTrip(p: Packet)
    requires WellFormed(p)
    ensures Complete(Encode(p)) && Decode(Encode(p)) == Some(p)
  {
    match p
    case AuthReq(_, _, _, _, _) => AuthReqRoundTrip(p);
    case KeyResp(_, _, _, _) => KeyRespRoundTrip(p);
    case ChatSend(id, name, l, encKey, nonce, ct) => ChatRoundTrip(T_CHAT_SEND, id, name, l, encKey, nonce, ct);
    case ChatDeliver(id, name, l, encKey, nonce, ct) => ChatRoundTrip(T_CHAT_DELIVER, id, name, l, encKey, nonce, ct);
    case Hello(_, _, _) => HandshakeRoundTrip(p);
    case HelloAck(_, _) => HandshakeRoundTrip(p);
    case AuthResp(_, _) => HandshakeRoundTrip(p);
    case _ => PlainRoundTrip(p);
  }

  // ---------- the layouts, byte by byte ----------

  function Num2(b: seq<byte>, off: nat): int
    requires off + 2 <= |b|
  {
    (b[off] as int) + 256 * (b[off + 1] as int)
  }

  function Num4(b: seq<byte>, off: nat): int
    requires off + 4 <= |b|
  {
    (b[off] as int) + 256 * (b[off + 1] as int) + 65536 * (b[off + 2] as int) + 16777216 * (b[off + 3] as int)
  }

  /** The type byte and the size of each packet. */
  predicate TypeAndSize(p: Packet, t: byte, size: nat) {
    match p
    case Hello(_, _, _) => t == 0x01 && size == 28
    case HelloAck(_, _) => t == 0x02 && size == 19
    case AuthReq(_, _, _, _, key) => t == 0x03 && size == 79 + |key|
    case AuthResp(_, _) => t == 0x04 && size == 20
    case KeyReq(_, _) => t == 0x05 && size == 45
    case KeyResp(_, _, _, key) => t == 0x06 && size == 47 + |key|
    case Error(_, _, _) => t == 0x07 && size == 142
    case Bye(_) => t == 0x08 && size == 12
    case ChatSend(_, _, _, _, _, ct) => t == 0x10 && size == 319 + |ct|
    case ChatDeliver(_, _, _, _, _, ct) => t == 0x11 && size == 319 + |ct|
  }

  lemma Num4At(b: seq<byte>, off: nat, x: u32)
    requires off + 4 <= |b| && b[off..off + 4] == LE32(x)
    ensures Num4(b, off) == x
  {
    LE32Inverse(x);
    assert forall i | 0 <= i < 4 :: b[off + i] == LE32(x)[i];
  }

  lemma Num2At(b: seq<byte>, off: nat, x: u16)
    requires off + 2 <= |b| && b[off..off + 2] == LE16(x)
    ensures Num2(b, off) == x
  {
    LE16Inverse(x);
    assert forall i | 0 <= i < 2 :: b[off + i] == LE16(x)[i];
  }

  lemma HeaderAt(b: seq<byte>, t: byte, id: u32)
    requires |b| >= 12 && b[..12] == Header(t, id)
    ensures b[0] == 1 && b[1] == t && b[2] == 0 && Num4(b, 3) == id && b[7..12] == [0, 0, 0, 0, 0]
  {
    assert b[3..7] == b[..12][3..7] == LE32(id);
    Num4At(b, 3, id);
    assert b[7..12] == b[..12][7..12] == Zeros(5);
    assert b[0] == b[..12][0] && b[1] == b[..12][1] && b[2] == b[..12][2];
  }

  /** The twelve bytes every packet starts with. */
  lemma HeaderLayout(p: Packet)
    requires WellFormed(p)
    ensures var b := Encode(p);
            b[0] == 1 && b[2] == 0 && Num4(b, 3) == p.id && b[7..12] == [0, 0, 0, 0, 0] && TypeAndSize(p, b[1], |b|)
  {
    hide Header, LE32, LE16, NameField, ChatTail, Zeros, Pad, Num4;
    var b := Encode(p);
    match p
    case Hello(id, _, _) => HeaderAt(b, 0x01, id);
    case HelloAck(id, _) => HeaderAt(b, 0x02, id);
    case AuthReq(id, _, _, _, _) => HeaderAt(b, 0x03, id);
    case AuthResp(id, _) => HeaderAt(b, 0x04, id);
    case KeyReq(id, _) => HeaderAt(b, 0x05, id);
    case KeyResp(id, _, _, _) => HeaderAt(b, 0x06, id);
    case Error(id, _, _) => HeaderAt(b, 0x07, id);
    case Bye(id) => HeaderAt(b, 0x08, id);
    case ChatSend(id, _, _, _, _, _) => HeaderAt(b, 0x10, id);
    case ChatDeliver(id, _, _, _, _, _) => HeaderAt(b, 0x11, id);
  }

  /** The greeting and the answer to a login. */
  lemma HandshakeLayout(p: Packet)
    requires WellFormed(p) && (p.Hello? || p.HelloAck? || p.AuthResp?)
    ensures var b := Encode(p);
            && (p.Hello? ==> b[12] == p.numVersions && b[13..21] == p.versions && b[21] == 1 && Num4(b, 22) == 65535 && b[26..] == [0, 0])
            && (p.HelloAck? ==> b[12] == p.selected && Num4(b, 13) == 65535 && b[17..] == [0, 0])
            && (p.AuthResp? ==> b[12] == p.status && Num4(b, 13) == p.id && b[17..] == [0, 0, 0])
  {
    hide Header, LE32, Num4;
    var b := Encode(p);
    if p.Hello? {
      assert b[22..26] == LE32(MAX_MESSAGE_SIZE);
      Num4At(b, 22, MAX_MESSAGE_SIZE);
    } else if p.HelloAck? {
      assert b[13..17] == LE32(MAX_MESSAGE_SIZE);
      Num4At(b, 13, MAX_MESSAGE_SIZE);
    } else {
      assert b[13..17] == LE32(p.id);
      Num4At(b, 13, p.id);
    }
  }

  /** Names are preceded by their length and followed by zeros up to 32 bytes. */
  lemma NameLayout(p: Packet)
    requires WellFormed(p) && (p.AuthReq? || p.KeyReq? || p.KeyResp? || p.ChatSend? || p.ChatDeliver?)
    ensures var b := Encode(p);
            |b| >= 45 && b[12] == |p.name| && b[13..13 + |p.name|] == p.name && forall i | 13 + |p.name| <= i < 45 :: b[i] == 0
  {
    hide Header, LE16, LE32, NameField, ChatTail, Pad, Zeros;
    var b := Encode(p);
    assert b[12..45] == NameField(p.name);
    NameAt(b, p.name);
  }

  lemma NameAt(b: seq<byte>, name: seq<byte>)
    requires |b| >= 45 && |name| <= USERNAME_MAX && b[12..45] == NameField(name)
    ensures b[12] == |name| && b[13..13 + |name|] == name && forall i | 13 + |name| <= i < 45 :: b[i] == 0
  {
    var f := b[12..45];
    var padded := Pad(name, USERNAME_MAX);
    assert f == [|name| as byte] + padded;
    assert b[12] == f[0];
    assert f[1..] == padded;
    assert padded[..|name|] == name;
    forall i | 0 <= i < |name|
      ensures b[13 + i] == name[i]
    {
      assert b[13 + i] == f[1 + i] == padded[i] == padded[..|name|][i];
    }
    forall i | 13 + |name| <= i < 45
      ensures b[i] == 0
    {
      assert b[i] == f[i - 12] == padded[i - 13];
    }
  }

  /** Requests, keys and errors. */
  lemma BodyLayout(p: Packet)
    requires WellFormed(p) && (p.AuthReq? || p.KeyResp? || p.Error?)
    ensures var b := Encode(p);
            && (p.AuthReq? ==> b[45..77] == p.hash && Num2(b, 77) == p.keyLen && b[79..] == p.key)
            && (p.KeyResp? ==> Num2(b, 45) == p.keyLen && b[47..] == p.key)
            && (p.Error? ==> b[12] == p.code && b[13] == |p.desc| && b[14..14 + |p.desc|] == p.desc
                             && forall i | 14 + |p.desc| <= i < 142 :: b[i] == 0)
  {
    var b := Encode(p);
    match p
    case AuthReq(_, _, _, keyLen, _) =>
      assert b[77..79] == LE16(keyLen);
      Num2At(b, 77, keyLen);
    case KeyResp(_, _, keyLen, _) =>
      assert b[45..47] == LE16(keyLen);
      Num2At(b, 45, keyLen);
    case Error(_, _, desc) =>
      assert b[14..142] == Pad(desc, 128);
      assert forall i | 14 <= i < 142 :: b[i] == b[14..142][i - 14];
  }

  /** Chats, sent and delivered alike. */
  lemma ChatLayout(p: Packet)
    requires WellFormed(p) && (p.ChatSend? || p.ChatDeliver?)
    ensures var b := Encode(p);
            && |b| == 319 + |p.ct|
            && Num2(b, 45) == p.encKeyLen && b[47..303] == p.encKey && b[303..315] == p.nonce && Num4(b, 315) == |p.ct| && b[319..] == p.ct
  {
    hide Header, LE16, LE32, NameField, ChatTail, Num2, Num4;
    var b := Encode(p);
    var tail := ChatTail(p.encKeyLen, p.encKey, p.nonce, p.ct);
    assert b[45..] == tail;
    TailLayout(p.encKeyLen, p.encKey, p.nonce, p.ct);
    assert b[45..47] == tail[..2] && b[315..319] == tail[270..274];
    Num2At(b, 45, p.encKeyLen);
    Num4At(b, 315, |p.ct|);
    assert b[47..303] == tail[2..258] && b[303..315] == tail[258..270] && b[319..] == tail[274..];
  }

  lemma TailLayout(l: u16, encKey: seq<byte>, nonce: seq<byte>, ct: seq<byte>)
    requires |encKey| == ENC_KEY_FIELD && |nonce| == NONCE_LEN && |ct| < 0x1_0000_0000
    ensures var tail := ChatTail(l, encKey, nonce, ct);
            tail[..2] == LE16(l) && tail[2..258] == encKey && tail[258..270] == nonce && tail[270..274] == LE32(|ct|) && tail[274..] == ct
  {
    hide LE16, LE32;
  }

  // ---------- forwarding ----------

  /** The server's rewriting at packet level: same payload, the sender's name instead of the recipient's. */
  function Forward(p: Packet, sender: seq<byte>): (r: Packet)
    requires p.ChatSend?
  {
    ChatDeliver(p.id, sender, p.encKeyLen, p.encKey, p.nonce, p.ct)
  }

  predicate IsChatSend(b: seq<byte>) {
    |b| >= HEADER_LEN && b[1] == T_CHAT_SEND && Complete(b)
  }

  /** The bytes the rewriting must produce, for any complete CHAT_SEND, padded cleanly or not. */
  function ForwardBytes(b: seq<byte>, sender: seq<byte>): (r: seq<byte>)
    requires IsChatSend(b) && |sender| <= USERNAME_MAX
    ensures |r| == |b|
  {
    [1, T_CHAT_DELIVER, 0] + b[3..7] + Zeros(5) + NameField(sender) + b[45..]
  }

  /**
   Forwarding keeps the length, the session ID and every byte from offset 45 on, names the sender, and
   decodes to the rewriting of what the CHAT_SEND decodes to.
   */
  lemma ForwardPreserves(b: seq<byte>, sender: seq<byte>)
    requires IsChatSend(b) && |sender| <= USERNAME_MAX
    ensures var r := ForwardBytes(b, sender);
            && |r| == |b| && r[3..7] == b[3..7] && r[45..] == b[45..]
            && r[12] == |sender| && r[13..45] == Pad(sender, USERNAME_MAX)
            && Complete(r)
            && Decode(b).Some? && Decode(b).value.ChatSend?
            && Decode(r) == Some(Forward(Decode(b).value, sender))
  {
    var r := ForwardBytes(b, sender);
    var h := [1, T_CHAT_DELIVER, 0] + b[3..7] + Zeros(5);
    NameFieldAt(h, sender, b[45..]);
    assert r == h + NameField(sender) + b[45..];
    assert r[3..7] == b[3..7] == At(r, 3, 4) == At(b, 3, 4);
    assert r[13..45] == Pad(sender, USERNAME_MAX);
    assert At(r, 45, 2) == r[45..][..2] == At(b, 45, 2);
    assert At(r, 47, 256) == r[45..][2..258] == At(b, 47, 256);
    assert At(r, 303, 12) == r[45..][258..270] == At(b, 303, 12);
    assert At(r, 315, 4) == r[45..][270..274] == At(b, 315, 4);
    assert r[319..] == r[45..][274..] == b[319..];
  }

  /** Client packing, server rewriting, client parsing: the recipient reads the sender's payload. */
  lemma ChatPathRoundTrip(p: Packet, sender: seq<byte>)
    requires p.ChatSend? && WellFormed(p) && |sender| <= USERNAME_MAX
    ensures IsChatSend(Encode(p))
    ensures var r := ForwardBytes(Encode(p), sender);
            Complete(r) && Decode(r) == Some(Forward(p, sender)) && r == Encode(Forward(p, sender))
  {
    RoundTrip(p);
    var b := Encode(p);
    assert b[1] == T_CHAT_SEND;
    ForwardPreserves(b, sender);
    var tail := ChatTail(p.encKeyLen, p.encKey, p.nonce, p.ct);
    assert b[45..] == tail;
    assert b[3..7] == LE32(p.id);
  }

  // ---------- buffers ----------

  /** memcpy into a buffer. */
  method Blit(dst: array<byte>, off: nat, src: seq<byte>)
    requires off + |src| <= dst.Length
    modifies dst
    ensures dst[..] == old(dst[..off]) + src + old(dst[off + |src|..])
  {
    forall i | 0 <= i < |src| {
      dst[off + i] := src[i];
    }
  }

  /** memcpy into a buffer that is still zero from `|done|` on; `now` is what it then starts with. */
  method Fill(dst: array<byte>, off: nat, src: seq<byte>, ghost done: seq<byte>) returns (ghost now: seq<byte>)
    requires |done| <= off && off + |src| <= dst.Length
    requires dst[..] == Pad(done, dst.Length)
    modifies dst
    ensures now == Pad(done, off) + src
    ensures dst[..] == Pad(now, dst.Length)
  {
    Blit(dst, off, src);
    now := Pad(done, off) + src;
    assert dst[..] == Pad(now, dst.Length);
  }

  /** A zeroed buffer. */
  method Cleared(n: nat) returns (buf: array<byte>)
    ensures fresh(buf) && buf.Length == n && buf[..] == Zeros(n)
  {
    buf := new byte[n](_ => 0);
  }

  lemma PadNothing(n: nat)
    ensures Pad([], n) == Zeros(n) && Zeros(0) == [] && Zeros(1) == [0]
  {
  }

  lemma PadZeros(a: seq<byte>, n: nat)
    ensures Pad(a, |a| + n) == a + Zeros(n)
  {
  }

  /** The common prefix of the packets that carry a name: header, then length and name. */
  method PackHead(buf: array<byte>, t: byte, idBytes: seq<byte>, name: seq<byte>) returns (ghost done: seq<byte>)
    requires |idBytes| == 4 && |name| <= USERNAME_MAX && buf.Length >= 45
    requires buf[..] == Zeros(buf.Length)
    modifies buf
    ensures done == [1, t, 0] + idBytes + Zeros(5) + [|name| as byte] + name
    ensures |done| == 13 + |name| && buf[..] == Pad(done, buf.Length)
  {
    hide Pad, Zeros;
    PadNothing(buf.Length);
    done := Fill(buf, 0, [1, t], []);
    done := Fill(buf, 3, idBytes, done);
    done := Fill(buf, 12, [|name| as byte], done);
    done := Fill(buf, 13, name, done);
    PadNothing(0);
    PadZeros([1, t], 1);
    assert [] + [1, t] == [1, t] && [1, t] + [0] == [1, t, 0];
    PadZeros([1, t, 0] + idBytes, 5);
    PadWhole([1, t, 0] + idBytes + Zeros(5) + [|name| as byte]);
  }

  lemma PadHead(t: byte, idBytes: seq<byte>, name: seq<byte>)
    requires |idBytes| == 4 && |name| <= USERNAME_MAX
    ensures Pad([1, t, 0] + idBytes + Zeros(5) + [|name| as byte] + name, 45)
         == [1, t, 0] + idBytes + Zeros(5) + NameField(name)
  {
  }

  lemma PadMiddle(a: seq<byte>, b: seq<byte>, n: nat)
    requires |b| <= n
    ensures Pad(a + b, |a| + n) == a + Pad(b, n)
  {
  }

  lemma PadWhole(a: seq<byte>)
    ensures Pad(a, |a|) == a
  {
  }

  /** send_chat's packet: a zeroed buffer filled field by field. */
  method PackChatSend(id: u32, recipient: seq<byte>, ephemeral: seq<byte>, nonce: seq<byte>, ct: seq<byte>)
    returns (buf: array<byte>)
    requires |recipient| <= USERNAME_MAX && |ephemeral| == KEY_LEN && |nonce| == NONCE_LEN && |ct| < 0x1_0000_0000
    ensures fresh(buf)
    ensures buf[..] == Encode(ChatSend(id, recipient, 32, Pad(ephemeral, ENC_KEY_FIELD), nonce, ct))
  {
    hide Pad, Zeros, LE16, LE32, NameField;
    buf := Cleared(CHAT_LEN + |ct|);
    ghost var d0 := PackHead(buf, T_CHAT_SEND, LE32(id), recipient);
    ghost var d1 := Fill(buf, 45, LE16(32), d0);
    ghost var d2 := Fill(buf, 47, ephemeral, d1);
    ghost var d3 := Fill(buf, 303, nonce, d2);
    ghost var d4 := Fill(buf, 315, LE32(|ct|), d3);
    ghost var d5 := Fill(buf, 319, ct, d4);
    PadHead(T_CHAT_SEND, LE32(id), recipient);
    PadWhole(d1);
    PadMiddle(d1, ephemeral, ENC_KEY_FIELD);
    PadWhole(d3);
    PadWhole(d4);
    PadWhole(d5);
    assert d5 == Header(T_CHAT_SEND, id) + NameField(recipient) + ChatTail(32, Pad(ephemeral, ENC_KEY_FIELD), nonce, ct);
  }

  /** sqmp_process_chat_send's output buffer. */
  method PackDeliver(b: seq<byte>, sender: seq<byte>) returns (out: array<byte>)
    requires IsChatSend(b) && |sender| <= USERNAME_MAX
    ensures fresh(out)
    ensures out[..] == ForwardBytes(b, sender)
  {
    hide Pad, Zeros, NameField;
    var ctLen := UnLE32(At(b, 315, 4));
    out := Cleared(CHAT_LEN + ctLen);
    ghost var d0 := PackHead(out, T_CHAT_DELIVER, At(b, 3, 4), sender);
    ghost var d1 := Fill(out, 45, At(b, 45, 2), d0);
    ghost var d2 := Fill(out, 47, At(b, 47, 256), d1);
    ghost var d3 := Fill(out, 303, At(b, 303, 12), d2);
    ghost var d4 := Fill(out, 315, At(b, 315, 4), d3);
    ghost var d5 := Fill(out, 319, b[319..], d4);
    PadHead(T_CHAT_DELIVER, At(b, 3, 4), sender);
    PadWhole(d1);
    PadWhole(d2);
    PadWhole(d3);
    PadWhole(d4);
    PadWhole(d5);
    assert d5 == Pad(d0, 45) + b[45..];
  }

  /** sqmp_login's packet. */
  method PackAuthReq(id: u32, name: seq<byte>, hash: seq<byte>, key: seq<byte>) returns (buf: array<byte>)
    requires |name| <= USERNAME_MAX && |hash| == HASH_LEN && |key| == KEY_LEN
    ensures fresh(buf) && buf[..] == Encode(AuthReq(id, name, hash, 32, key))
  {
    hide Pad, Zeros, LE16, LE32, NameField;
    buf := Cleared(111);
    ghost var d0 := PackHead(buf, T_AUTH_REQ, LE32(id), name);
    ghost var d1 := Fill(buf, 45, hash, d0);
    ghost var d2 := Fill(buf, 77, LE16(32), d1);
    ghost var d3 := Fill(buf, 79, key, d2);
    PadHead(T_AUTH_REQ, LE32(id), name);
    PadWhole(d1);
    PadWhole(d2);
    PadWhole(d3);
    assert d3 == Header(T_AUTH_REQ, id) + NameField(name) + hash + LE16(32) + key;
  }

  /** send_chat's key request. */
  method PackKeyReq(id: u32, name: seq<byte>) returns (buf: array<byte>)
    requires |name| <= USERNAME_MAX
    ensures fresh(buf) && buf[..] == Encode(KeyReq(id, name))
  {
    hide Pad, Zeros, LE32, NameField;
    buf := Cleared(45);
    ghost var d0 := PackHead(buf, T_KEY_REQ, LE32(id), name);
    PadHead(T_KEY_REQ, LE32(id), name);
  }

  // ---------- reassembly ----------

  function Concat(bufs: seq<seq<byte>>): (r: seq<byte>)
  {
    if bufs == [] then [] else bufs[0] + Concat(bufs[1..])
  }

  lemma {:induction false} ConcatSplit(bufs: seq<seq<byte>>, i: nat)
    requires i < |bufs|
    ensures Concat(bufs[..i + 1]) == Concat(bufs[..i]) + bufs[i]
    ensures |Concat(bufs[..i + 1])| <= |Concat(bufs)|
  {
    if i == 0 {
      assert bufs[..1] == [bufs[0]] && bufs[..1][1..] == [];
    } else {
      ConcatSplit(bufs[1..], i - 1);
      assert bufs[..i + 1][1..] == bufs[1..][..i];
      assert bufs[..i][1..] == bufs[1..][..i - 1];
    }
  }

  /** The RECEIVE case of stream_cb: copies every buffer behind the previous one, then a zero byte. */
  method Reassemble(bufs: seq<seq<byte>>, total: nat) returns (flat: array<byte>)
    requires total == |Concat(bufs)|
    ensures fresh(flat) && flat.Length == total + 1
    ensures flat[..total] == Concat(bufs) && flat[total] == 0
  {
    flat := new byte[total + 1](_ => 0);
    var off := 0;
    for i := 0 to |bufs|
      invariant off == |Concat(bufs[..i])| <= total
      invariant flat[..off] == Concat(bufs[..i])
    {
      ConcatSplit(bufs, i);
      ghost var before := flat[..off];
      Blit(flat, off, bufs[i]);
      off := off + |bufs[i]|;
      assert flat[..off] == before + bufs[i];
    }
    assert bufs[..|bufs|] == bufs;
    flat[total] := 0;
  }

  /** Dispatch sees the packet the peer sent, however the transport cut it into buffers. */
  lemma ReassemblyDispatch(p: Packet, bufs: seq<seq<byte>>)
    requires WellFormed(p) && Concat(bufs) == Encode(p)
    ensures Complete(Concat(bufs)) && Decode(Concat(bufs)) == Some(p)
  {
    RoundTrip(p);
  }
}
