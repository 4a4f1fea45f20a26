/** Bytes, fixed-width integers and the C string helpers the program uses. */
module Bytes {

  type byte = x: int | 0 <= x < 256
  type u16 = x: int | 0 <= x < 0x1_0000
  type u32 = x: int | 0 <= x < 0x1_0000_0000

  datatype Option<+T> = None | Some(value: T)

  predicate NoDup<T(==)>(s: seq<T>) {
    forall i, j | 0 <= i < j < |s| :: s[i] != s[j]
  }

  const USERNAME_MAX := 32
  const KEY_LEN := 32
  const HASH_LEN := 32
  const NONCE_LEN := 12
  const ENC_KEY_FIELD := 256
  const TAG_LEN := 16

  function Zeros(n: nat): (z: seq<byte>)
    ensures |z| == n
  {
    seq(n, _ => 0)
  }

  /** A C string's characters as bytes. */
  function Text(s: string): (b: seq<byte>)
    ensures |b| == |s|
  {
    seq(|s|, i requires 0 <= i < |s| => (s[i] as int) % 256)
  }

  /** A field of `n` bytes that was cleared and then received `s` at its start. */
  function Pad(s: seq<byte>, n: nat): (r: seq<byte>)
    requires |s| <= n
    ensures |r| == n && r[..|s|] == s
  {
    s + Zeros(n - |s|)
  }

  function LE16(x: u16): (r: seq<byte>)
    ensures |r| == 2
  {
    [x % 256, x / 256]
  }

  function UnLE16(b: seq<byte>): u16
    requires |b| == 2
  {
    (b[0] as int) + 256 * (b[1] as int)
  }

  function LE32(x: u32): (r: seq<byte>)
    ensures |r| == 4
  {
    [x % 256, x / 0x100 % 256, x / 0x1_0000 % 256, x / 0x100_0000]
  }

  function UnLE32(b: seq<byte>): u32
    requires |b| == 4
  {
    (b[0] as int) + 0x100 * (b[1] as int) + 0x1_0000 * (b[2] as int) + 0x100_0000 * (b[3] as int)
  }

  lemma LE16Inverse(x: u16)
    ensures UnLE16(LE16(x)) == x
  {
  }

  lemma LE32Inverse(x: u32)
    ensures UnLE32(LE32(x)) == x
  {
    var q := x / 0x100;
    assert q / 0x100 == x / 0x1_0000;
    assert q / 0x1_0000 == x / 0x100_0000;
  }

  /** The C string that starts at the beginning of `s`: everything before the first zero byte. */
  function CString(s: seq<byte>): (r: seq<byte>)
    ensures r <= s && 0 !in r
    ensures 0 !in s ==> r == s
    ensures |r| < |s| ==> s[|r|] == 0
  {
    if s == [] || s[0] == 0 then []
    else
      var rest := CString(s[1..]);
      assert [s[0]] + rest <= s;
      [s[0]] + rest
  }

  /** strchr: the index of the first `c`, or `|s|` when there is none. */
  function IndexOf(s: seq<byte>, c: byte): (i: nat)
    ensures i <= |s|
    ensures c !in s[..i]
    ensures i < |s| ==> s[i] == c
    ensures i == |s| <==> c !in s
  {
    if s == [] then 0
    else if s[0] == c then 0
    else
      var j := IndexOf(s[1..], c);
      assert s == [s[0]] + s[1..];
      assert s[..1 + j] == [s[0]] + s[1..][..j];
      1 + j
  }

  /** `s` splits at its first `c` in exactly one way. */
  lemma IndexOfAt(s: seq<byte>, c: byte, a: seq<byte>, b: seq<byte>)
    requires s == a + [c] + b && c !in a
    ensures IndexOf(s, c) == |a|
  {
    assert s[|a|] == c;
    assert forall k | 0 <= k < |a| :: s[k] == a[k];
  }
}
