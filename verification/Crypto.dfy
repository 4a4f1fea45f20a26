/** Key agreement and authenticated encryption, by their algebraic laws only. */
module Crypto {
  import opened Bytes

  /** One choice of primitives: public half, shared secret, key derivation, seal and open. */
  datatype Suite = Suite(
    pub: seq<byte> -> seq<byte>,
    shared: (seq<byte>, seq<byte>) -> seq<byte>,
    kdf: seq<byte> -> seq<byte>,
    seal: (seq<byte>, seq<byte>, seq<byte>) -> seq<byte>,
    open: (seq<byte>, seq<byte>, seq<byte>) -> Option<seq<byte>>)

  /**
   Section 6.1 of RFC 7748 (both sides derive the same secret, public keys have 32 bytes; an honest public
   key is never all zero) and sections 7.1 and 7.2 of NIST SP 800-38D (opening undoes sealing, the tag adds
   16 bytes).
   */
  ghost predicate Lawful(k: Suite) {
    && (forall a: seq<byte> :: |k.pub(a)| == KEY_LEN && k.pub(a) != Zeros(KEY_LEN))
    && (forall a: seq<byte>, b: seq<byte> :: k.shared(a, k.pub(b)) == k.shared(b, k.pub(a)))
    && (forall x: seq<byte>, n: seq<byte>, m: seq<byte> ::
          |k.seal(x, n, m)| == |m| + TAG_LEN && k.open(x, n, k.seal(x, n, m)) == Some(m))
  }

  /** encrypt_chat's ciphertext, for the ephemeral private key `eph`. */
  function Encrypt(k: Suite, peerPub: seq<byte>, eph: seq<byte>, nonce: seq<byte>, text: seq<byte>): seq<byte> {
    k.seal(k.kdf(k.shared(eph, peerPub)), nonce, text)
  }

  /** decrypt_chat. */
  function Decrypt(k: Suite, priv: seq<byte>, ephPub: seq<byte>, nonce: seq<byte>, ct: seq<byte>): Option<seq<byte>> {
    if |ct| < TAG_LEN then None else k.open(k.kdf(k.shared(priv, ephPub)), nonce, ct)
  }

  /** What is encrypted to a public key is recovered by its private half, whole and with its length. */
  lemma DecryptEncrypt(k: Suite, priv: seq<byte>, eph: seq<byte>, nonce: seq<byte>, text: seq<byte>)
    requires Lawful(k)
    ensures var ct := Encrypt(k, k.pub(priv), eph, nonce, text);
            |ct| == |text| + TAG_LEN && Decrypt(k, priv, k.pub(eph), nonce, ct) == Some(text)
  {
    assert k.shared(eph, k.pub(priv)) == k.shared(priv, k.pub(eph));
  }

  lemma Sizes(k: Suite, peerPub: seq<byte>, eph: seq<byte>, nonce: seq<byte>, text: seq<byte>)
    requires Lawful(k)
    ensures |k.pub(eph)| == KEY_LEN && |Encrypt(k, peerPub, eph, nonce, text)| == |text| + TAG_LEN
  {
  }

  /** The ciphertext is what its recipient would make of the ephemeral public key: sealed under the secret both sides share. */
  lemma SealedToRecipient(k: Suite, priv: seq<byte>, eph: seq<byte>, nonce: seq<byte>, text: seq<byte>)
    requires Lawful(k)
    ensures Encrypt(k, k.pub(priv), eph, nonce, text) == k.seal(k.kdf(k.shared(priv, k.pub(eph))), nonce, text)
  {
    assert k.shared(eph, k.pub(priv)) == k.shared(priv, k.pub(eph));
  }

  /** The AEAD key that the holder of `priv` derives with the ephemeral public half of `eph`. */
  function SessionKey(k: Suite, priv: seq<byte>, eph: seq<byte>): seq<byte> {
    k.kdf(k.shared(priv, k.pub(eph)))
  }

  /**
   Idealised security of the key agreement, the key derivation and the authentication tag, for keys that come out of
   the protocol: users with different public keys derive different AEAD keys, and what is sealed under one of these
   does not open under another. (For arbitrary AEAD keys a tag of 16 bytes could not promise it.)
   */
  ghost predicate Separating(k: Suite) {
    && (forall a: seq<byte>, b: seq<byte>, e: seq<byte> ::
          k.pub(a) != k.pub(b) ==> SessionKey(k, a, e) != SessionKey(k, b, e))
    && (forall a: seq<byte>, b: seq<byte>, e: seq<byte>, n: seq<byte>, m: seq<byte> ::
          SessionKey(k, a, e) != SessionKey(k, b, e) ==> k.open(SessionKey(k, b, e), n, k.seal(SessionKey(k, a, e), n, m)) == None)
  }

  /**
   Who can read a chat: of all private keys exactly those whose public half it was encrypted to open it, and they get
   the text; with any other, opening fails.
   */
  lemma OnlyRecipientOpens(k: Suite, a: seq<byte>, b: seq<byte>, eph: seq<byte>, nonce: seq<byte>, text: seq<byte>)
    requires Lawful(k) && Separating(k)
    ensures Decrypt(k, b, k.pub(eph), nonce, Encrypt(k, k.pub(a), eph, nonce, text)) == if k.pub(a) == k.pub(b) then Some(text) else None
  {
    SealedToRecipient(k, a, eph, nonce, text);
    if k.pub(a) == k.pub(b) {
      DecryptEncrypt(k, b, eph, nonce, text);
    } else {
      assert SessionKey(k, a, eph) != SessionKey(k, b, eph);
    }
  }

  // ---------- the laws can be met ----------

  /** A toy suite with a hundred key pairs: the secret is the sum, the tag is the key. */
  function Index(a: seq<byte>): (i: byte)
    ensures i < 100
  {
    if a == [] then 0 else a[0] % 100
  }

  function ToyPub(a: seq<byte>): seq<byte> { [Index(a) + 1] + Zeros(31) }

  function ToyShared(a: seq<byte>, p: seq<byte>): seq<byte> {
    var q: int := if p == [] then 0 else p[0];
    [(Index(a) + 1 + q) % 256]
  }

  function ToyTag(x: seq<byte>): (t: seq<byte>)
    ensures |t| == TAG_LEN
  {
    if x == [] then Zeros(TAG_LEN) else [x[0]] + Zeros(15)
  }

  function ToyOpen(x: seq<byte>, n: seq<byte>, c: seq<byte>): Option<seq<byte>> {
    if |c| >= TAG_LEN && c[|c| - TAG_LEN..] == ToyTag(x) then Some(c[..|c| - TAG_LEN]) else None
  }

  function Toy(): Suite {
    Suite(a => ToyPub(a), (a, p) => ToyShared(a, p), s => s, (x, n, m) => m + ToyTag(x), (x, n, c) => ToyOpen(x, n, c))
  }

  lemma ToyAgrees(a: seq<byte>, b: seq<byte>)
    ensures ToyShared(a, ToyPub(b)) == [Index(a) + Index(b) + 2]
    ensures |ToyPub(a)| == KEY_LEN && ToyPub(a) != Zeros(KEY_LEN)
    ensures ToyPub(a) != ToyPub(b) ==> Index(a) != Index(b)
  {
    assert ToyPub(a)[0] == Index(a) + 1 && Zeros(KEY_LEN)[0] == 0;
  }

  lemma ToyOpens(x: seq<byte>, y: seq<byte>, n: seq<byte>, m: seq<byte>)
    ensures ToyOpen(y, n, m + ToyTag(x)) == if ToyTag(x) == ToyTag(y) then Some(m) else None
  {
    assert (m + ToyTag(x))[|m|..] == ToyTag(x) && (m + ToyTag(x))[..|m|] == m;
  }

  lemma ToyTags(v: byte, w: byte)
    requires v != w
    ensures ToyTag([v]) != ToyTag([w])
  {
    assert ToyTag([v])[0] == v && ToyTag([w])[0] == w;
  }

  lemma ToyLawful()
    ensures Lawful(Toy())
  {
    hide Index, ToyPub, ToyShared, ToyTag, ToyOpen, Zeros;
    forall a: seq<byte>, b: seq<byte>
      ensures |ToyPub(a)| == KEY_LEN && ToyPub(a) != Zeros(KEY_LEN) && ToyShared(a, ToyPub(b)) == ToyShared(b, ToyPub(a))
    {
      ToyAgrees(a, b);
      ToyAgrees(b, a);
    }
    forall x: seq<byte>, n: seq<byte>, m: seq<byte>
      ensures ToyOpen(x, n, m + ToyTag(x)) == Some(m)
    {
      ToyOpens(x, x, n, m);
    }
  }

  lemma ToySeparating()
    ensures Separating(Toy())
  {
    hide Index, ToyPub, ToyShared, ToyTag, ToyOpen, Zeros;
    forall a: seq<byte>, b: seq<byte>, e: seq<byte>
      ensures SessionKey(Toy(), a, e) == [Index(a) + Index(e) + 2]
      ensures ToyPub(a) != ToyPub(b) ==> Index(a) != Index(b)
    {
      ToyAgrees(a, e);
      ToyAgrees(a, b);
    }
    forall a: seq<byte>, b: seq<byte>, e: seq<byte>, n: seq<byte>, m: seq<byte>
      | SessionKey(Toy(), a, e) != SessionKey(Toy(), b, e)
      ensures ToyOpen(SessionKey(Toy(), b, e), n, m + ToyTag(SessionKey(Toy(), a, e))) == None
    {
      ToyTags(Index(a) + Index(e) + 2, Index(b) + Index(e) + 2);
      ToyOpens(SessionKey(Toy(), a, e), SessionKey(Toy(), b, e), n, m);
    }
  }

  /** All the laws at once can be met. */
  lemma LawsAreConsistent()
    ensures exists k :: Lawful(k) && Separating(k)
  {
    ToyLawful();
    ToySeparating();
  }
}
