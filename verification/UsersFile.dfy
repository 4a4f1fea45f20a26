/**
 The users file: sqmp-add-user appends records to it, the server's verify_credentials reads it line by
 line. Together they behave as a map from user names to password hashes.
 */
module UsersFile {
  import opened Bytes

  const COLON: byte := 58
  const NL: byte := 10
  const CR: byte := 13
  const LINE_MAX := 255
  const NAME_MAX := 190

  // ---------- reading ----------

  /** How many bytes fgets with a 256-byte buffer takes from a non-empty file. */
  function LineLen(f: seq<byte>): (n: nat)
    requires f != []
    ensures 0 < n <= |f| && n <= LINE_MAX
    ensures NL !in f[..n - 1]
    ensures n == |f| || n == LINE_MAX || f[n - 1] == NL
  {
    var i := IndexOf(f, NL);
    var n := if i < |f| then i + 1 else |f|;
    assert f[..n - 1] <= f[..i];
    if n <= LINE_MAX then n else
      assert f[..LINE_MAX - 1] <= f[..i]; LINE_MAX
  }

  function Line(f: seq<byte>): seq<byte>
    requires f != []
  {
    f[..LineLen(f)]
  }

  function Rest(f: seq<byte>): (r: seq<byte>)
    requires f != []
    ensures |r| < |f|
  {
    f[LineLen(f)..]
  }

  function HexVal(c: byte): Option<byte> {
    if 48 <= c <= 57 then Some(c - 48)
    else if 97 <= c <= 102 then Some(c - 87)
    else if 65 <= c <= 70 then Some(c - 55)
    else None
  }

  /** sscanf("%02x") on two characters; `junk` is what is left behind when they are not two hex digits. */
  function HexPair(a: byte, b: byte, junk: byte): byte {
    if HexVal(a).Some? && HexVal(b).Some? then
      var r: int := 16 * (HexVal(a).value as int) + HexVal(b).value;
      r % 256
    else junk
  }

  function Unhex(s: seq<byte>, junk: seq<byte>): (r: seq<byte>)
    requires |s| == 2 * |junk|
    ensures |r| == |junk|
    decreases |junk|
  {
    if junk == [] then []
    else
      var n := |junk| - 1;
      Unhex(s[..2 * n], junk[..n]) + [HexPair(s[2 * n], s[2 * n + 1], junk[n])]
  }

  /** Drops the line ending. */
  function TrimEol(s: seq<byte>): (r: seq<byte>)
    ensures r <= s
  {
    if s != [] && (s[|s| - 1] == NL || s[|s| - 1] == CR) then TrimEol(s[..|s| - 1]) else s
  }

  /** The trimmed field is the submitted hash in hexadecimal. */
  predicate Matches(field: seq<byte>, hash: seq<byte>, junk: seq<byte>)
    requires |junk| == HASH_LEN
  {
    |field| == 2 * HASH_LEN && hash == Unhex(field, junk)
  }

  predicate HashMatches(field: seq<byte>, hash: seq<byte>, junk: seq<byte>)
    requires |junk| == HASH_LEN
  {
    Matches(TrimEol(field), hash, junk)
  }

  /** The answer of verify_credentials: the first line keyed by `user` decides. */
  predicate Verify(file: seq<byte>, user: seq<byte>, hash: seq<byte>, junk: seq<byte>)
    requires |junk| == HASH_LEN
    decreases |file|
  {
    if file == [] then false
    else
      var c := CString(Line(file));
      var k := IndexOf(c, COLON);
      if k == |c| || c[..k] != user then Verify(Rest(file), user, hash, junk)
      else HashMatches(c[k + 1..], hash, junk)
  }

  /** Trims the field, checks its length and decodes it digit pair by digit pair. */
  method CompareHash(hex: seq<byte>, hash: seq<byte>, junk: seq<byte>) returns (result: bool)
    requires |junk| == HASH_LEN
    ensures result == HashMatches(hex, hash, junk)
  {
    var hlen := |hex|;
    assert hex[..hlen] == hex;
    while hlen > 0 && (hex[hlen - 1] == NL || hex[hlen - 1] == CR)
      invariant 0 <= hlen <= |hex|
      invariant TrimEol(hex) == TrimEol(hex[..hlen])
    {
      assert hex[..hlen][..hlen - 1] == hex[..hlen - 1];
      hlen := hlen - 1;
    }
    if hlen != 2 * HASH_LEN { return false; }
    var stored: seq<byte> := [];
    for i := 0 to HASH_LEN
      invariant stored == Unhex(hex[..2 * i], junk[..i])
    {
      assert hex[..2 * (i + 1)][..2 * i] == hex[..2 * i] && junk[..i + 1][..i] == junk[..i];
      stored := stored + [HexPair(hex[2 * i], hex[2 * i + 1], junk[i])];
    }
    assert junk[..HASH_LEN] == junk;
    return hash == stored;
  }

  method VerifyCredentials(file: seq<byte>, user: seq<byte>, hash: seq<byte>, junk: seq<byte>) returns (result: bool)
    requires |junk| == HASH_LEN
    ensures result == Verify(file, user, hash, junk)
  {
    var f := file;
    while f != []
      invariant Verify(file, user, hash, junk) == Verify(f, user, hash, junk)
      decreases |f|
    {
      var c := CString(Line(f));
      f := Rest(f);
      var colon := IndexOf(c, COLON);
      if colon == |c| { continue; }
      if c[..colon] != user { continue; }
      result := CompareHash(c[colon + 1..], hash, junk);
      return;
    }
    return false;
  }

  // ---------- writing ----------

  function Reserved(): set<seq<byte>> {
    { [101, 120, 105, 116], [113, 117, 105, 116], [114], [114, 101, 112, 108, 121] }  // exit, quit, r, reply
  }

  function HexDigit(n: byte): (c: byte)
    requires n < 16
    ensures HexVal(c) == Some(n) && c != COLON && c != NL && c != CR && c != 0
  {
    if n < 10 then 48 + n else 87 + n
  }

  function Hex(hash: seq<byte>): (s: seq<byte>)
    ensures |s| == 2 * |hash|
    ensures COLON !in s && NL !in s && CR !in s && 0 !in s
    decreases |hash|
  {
    if hash == [] then []
    else
      var n := |hash| - 1;
      Hex(hash[..n]) + [HexDigit(hash[n] / 16), HexDigit(hash[n] % 16)]
  }

  function Record(name: seq<byte>, hash: seq<byte>): seq<byte> {
    name + [COLON] + Hex(hash) + [NL]
  }

  /** Does the duplicate scan find a line keyed by `name`? */
  predicate Exists(file: seq<byte>, name: seq<byte>)
    decreases |file|
  {
    if file == [] then false
    else
      var c := CString(Line(file));
      var k := IndexOf(c, COLON);
      (k < |c| && c[..k] == name) || Exists(Rest(file), name)
  }

  function AddUser(file: seq<byte>, name: seq<byte>, hash: seq<byte>): Option<seq<byte>> {
    if name == [] || name in Reserved() || Exists(file, name) then None
    else Some(file + Record(name, hash))
  }

  method ScanForDuplicate(file: seq<byte>, name: seq<byte>) returns (found: bool)
    ensures found == Exists(file, name)
  {
    var f := file;
    while f != []
      invariant Exists(file, name) == Exists(f, name)
      decreases |f|
    {
      var c := CString(Line(f));
      f := Rest(f);
      var colon := IndexOf(c, COLON);
      if colon == |c| { continue; }
      if colon == |name| && c[..|name|] == name { return true; }
    }
    return false;
  }

  method WriteRecord(name: seq<byte>, hash: seq<byte>) returns (out: seq<byte>)
    ensures out == Record(name, hash)
  {
    out := name + [COLON];
    for i := 0 to |hash|
      invariant out == name + [COLON] + Hex(hash[..i])
    {
      assert hash[..i + 1][..i] == hash[..i];
      out := out + [HexDigit(hash[i] / 16), HexDigit(hash[i] % 16)];
    }
    assert hash[..|hash|] == hash;
    out := out + [NL];
  }

  method AddUserTool(file: seq<byte>, name: seq<byte>, hash: seq<byte>) returns (r: Option<seq<byte>>)
    ensures r == AddUser(file, name, hash)
  {
    if |name| == 0 || name in Reserved() { return None; }
    var found := ScanForDuplicate(file, name);
    if found { return None; }
    var record := WriteRecord(name, hash);
    r := Some(file + record);
  }

  // ---------- any file is a map ----------

  /** What the file says, whoever wrote it: each name's hash field is that of the first line keyed by it. */
  function Fields(file: seq<byte>): map<seq<byte>, seq<byte>>
    decreases |file|
  {
    if file == [] then map[]
    else
      var c := CString(Line(file));
      var k := IndexOf(c, COLON);
      if k == |c| then Fields(Rest(file)) else Fields(Rest(file))[c[..k] := TrimEol(c[k + 1..])]
  }

  /** A login verifies exactly when its name's field is its hash; the duplicate scan finds exactly the names. */
  lemma {:induction false} FileIsMap(file: seq<byte>, user: seq<byte>, hash: seq<byte>, junk: seq<byte>)
    requires |junk| == HASH_LEN
    ensures Verify(file, user, hash, junk) <==> user in Fields(file) && Matches(Fields(file)[user], hash, junk)
    ensures Exists(file, user) <==> user in Fields(file)
    decreases |file|
  {
    hide Matches, TrimEol;
    if file != [] {
      FileIsMap(Rest(file), user, hash, junk);
    }
  }

  /** Empty, or ending in a newline: what the tool leaves behind. */
  predicate Terminated(file: seq<byte>) {
    file == [] || file[|file| - 1] == NL
  }

  lemma LineAppend(f: seq<byte>, g: seq<byte>)
    requires f != [] && Terminated(f)
    ensures Line(f + g) == Line(f) && Rest(f + g) == Rest(f) + g && Terminated(Rest(f))
  {
    hide IndexOf, LineLen, Line, Rest;
    var i := IndexOf(f, NL);
    var a, b := f[..i], f[i + 1..];
    assert f == a + [NL] + b;
    assert f + g == a + [NL] + (b + g);
    LineOf(a, b);
    LineOf(a, b + g);
    if |a| >= LINE_MAX {
      assert a[LINE_MAX..] + [NL] + (b + g) == (a[LINE_MAX..] + [NL] + b) + g;
    }
  }

  /** Appending to a terminated file adds what the appended bytes say alone, and what was there already wins. */
  lemma {:induction false} FieldsAppend(f: seq<byte>, g: seq<byte>)
    requires Terminated(f)
    ensures Fields(f + g) == Fields(g) + Fields(f)
    decreases |f|
  {
    hide Line, Rest, CString, IndexOf, TrimEol;
    if f == [] {
      assert f + g == g;
    } else {
      LineAppend(f, g);
      FieldsAppend(Rest(f), g);
      var c := CString(Line(f));
      var k := IndexOf(c, COLON);
      if k < |c| {
        UpdateMerged(Fields(g), Fields(Rest(f)), c[..k], TrimEol(c[k + 1..]));
      }
    }
  }

  lemma UpdateMerged<K, V>(m: map<K, V>, n: map<K, V>, k: K, v: V)
    ensures (m + n)[k := v] == m + n[k := v]
  {
  }

  // ---------- one record ----------

  lemma PairBack(b: byte, junk: byte)
    ensures HexPair(HexDigit(b / 16), HexDigit(b % 16), junk) == b
  {
  }

  lemma {:induction false} UnhexHex(hash: seq<byte>, junk: seq<byte>)
    requires |hash| == |junk|
    ensures Unhex(Hex(hash), junk) == hash
    decreases |hash|
  {
    hide HexPair, HexDigit, HexVal;
    if hash == [] {
    } else {
      var n := |hash| - 1;
      UnhexHex(hash[..n], junk[..n]);
      PairBack(hash[n], junk[n]);
      var s := Hex(hash);
      assert s[..2 * n] == Hex(hash[..n]);
      assert s[2 * n] == HexDigit(hash[n] / 16) && s[2 * n + 1] == HexDigit(hash[n] % 16);
      assert hash == hash[..n] + [hash[n]];
    }
  }

  /** fgets on a newline-free stretch that ends in a newline. */
  lemma LineOf(body: seq<byte>, rest: seq<byte>)
    requires NL !in body
    ensures var f := body + [NL] + rest;
            && (|body| < LINE_MAX ==> Line(f) == body + [NL] && Rest(f) == rest)
            && (|body| >= LINE_MAX ==> Line(f) == body[..LINE_MAX] && Rest(f) == body[LINE_MAX..] + [NL] + rest)
  {
    IndexOfAt(body + [NL] + rest, NL, body, rest);
  }

  /** A zero-free line splits at its first colon. */
  lemma KeyOf(line: seq<byte>, name: seq<byte>, field: seq<byte>)
    requires line == name + [COLON] + field && 0 !in name && 0 !in field && COLON !in name
    ensures var c := CString(line);
            IndexOf(c, COLON) == |name| < |c| && c[..|name|] == name && c[|name| + 1..] == field
  {
    assert CString(line) == line;
    IndexOfAt(line, COLON, name, field);
  }

  lemma {:induction false} NoColonNoFields(file: seq<byte>)
    requires COLON !in file
    ensures Fields(file) == map[]
    decreases |file|
  {
    hide TrimEol;
    if file != [] {
      assert forall x | x in CString(Line(file)) :: x in Line(file);
      assert forall x | x in Line(file) :: x in file;
      NoColonNoFields(Rest(file));
    }
  }

  /** The key of the record's last line: what is left of the name after the lines and 255-byte pieces fgets takes first. */
  function LastPiece(name: seq<byte>): (t: seq<byte>)
    ensures |t| < LINE_MAX && NL !in t && |t| <= |name|
    ensures t == name <==> NL !in name && |name| < LINE_MAX
    ensures forall x | x in t :: x in name
    decreases |name|
  {
    var i := IndexOf(name, NL);
    if i == |name| && |name| < LINE_MAX then name
    else
      var cut := if i < |name| && i < LINE_MAX then i + 1 else LINE_MAX;
      LastPiece(name[cut..])
  }

  /** What the 255-byte line buffer leaves of the hash behind a key. */
  function Kept(key: seq<byte>, hash: seq<byte>): (r: seq<byte>)
    requires |key| < LINE_MAX && |hash| == HASH_LEN
    ensures |r| == 2 * HASH_LEN <==> |key| <= NAME_MAX
    ensures |key| <= NAME_MAX ==> r == Hex(hash)
  {
    if |key| <= NAME_MAX then Hex(hash) else Hex(hash)[..LINE_MAX - 1 - |key|]
  }

  lemma TrimHex(x: seq<byte>)
    requires NL !in x && CR !in x
    ensures TrimEol(x) == x && TrimEol(x + [NL]) == x
  {
    assert (x + [NL])[..|x|] == x;
    assert x != [] ==> x[|x| - 1] in x;
  }

  /** The last line of a record, when it fits the line buffer with its newline. */
  lemma ShortLine(t: seq<byte>, hash: seq<byte>)
    requires COLON !in t && NL !in t && 0 !in t && |t| < NAME_MAX && |hash| == HASH_LEN
    ensures Fields(Record(t, hash)) == map[t := Hex(hash)]
  {
    hide Hex, LineLen, CString, IndexOf, TrimEol;
    var x := Hex(hash);
    var body := t + [COLON] + x;
    assert Record(t, hash) == body + [NL] + [];
    LineOf(body, []);
    TrimHex(x);
    assert body + [NL] == t + [COLON] + (x + [NL]);
    KeyOf(body + [NL], t, x + [NL]);
    assert Fields([]) == map[];
  }

  /** The last line of a record, when it fills the line buffer. */
  lemma FullLine(t: seq<byte>, hash: seq<byte>)
    requires COLON !in t && NL !in t && 0 !in t && NAME_MAX <= |t| < LINE_MAX && |hash| == HASH_LEN
    ensures Fields(Record(t, hash)) == map[t := Hex(hash)[..LINE_MAX - 1 - |t|]]
  {
    hide Hex, LineLen, CString, IndexOf, TrimEol;
    var x := Hex(hash);
    var body := t + [COLON] + x;
    var part := x[..LINE_MAX - 1 - |t|];
    assert Record(t, hash) == body + [NL] + [];
    LineOf(body, []);
    assert body[..LINE_MAX] == t + [COLON] + part;
    KeyOf(body[..LINE_MAX], t, part);
    TrimHex(part);
    var rest := body[LINE_MAX..] + [NL] + [];
    assert body[LINE_MAX..] == x[LINE_MAX - 1 - |t|..];
    NoColonNoFields(rest);
  }

  lemma LastLine(t: seq<byte>, hash: seq<byte>)
    requires COLON !in t && NL !in t && 0 !in t && |t| < LINE_MAX && |hash| == HASH_LEN
    ensures Fields(Record(t, hash)) == map[t := Kept(t, hash)]
  {
    hide Hex, Fields, Record;
    if |t| < NAME_MAX {
      ShortLine(t, hash);
    } else {
      FullLine(t, hash);
      assert Hex(hash)[..2 * HASH_LEN] == Hex(hash);
    }
  }

  /** A first line without a colon says nothing. */
  lemma SkipLine(f: seq<byte>, line: seq<byte>, rest: seq<byte>)
    requires f != [] && Line(f) == line && Rest(f) == rest && COLON !in line
    ensures Fields(f) == Fields(rest)
  {
    hide TrimEol;
    assert forall b | b in CString(line) :: b in line;
  }

  /** A record whose name has no colon says one thing: the hash, or what is left of it, under the name's last piece. */
  lemma {:induction false} RecordFields(name: seq<byte>, hash: seq<byte>)
    requires COLON !in name && 0 !in name && |hash| == HASH_LEN
    ensures Fields(Record(name, hash)) == map[LastPiece(name) := Kept(LastPiece(name), hash)]
    decreases |name|
  {
    hide Hex, Kept, Fields, Line, Rest, Record, IndexOf;
    var i, f := IndexOf(name, NL), Record(name, hash);
    RecordNotEmpty(name, hash);
    if i == |name| {
      if |name| < LINE_MAX {
        LastLine(name, hash);
      } else {
        CutAtLimit(name, hash);
        SkipLine(f, name[..LINE_MAX], Record(name[LINE_MAX..], hash));
        RecordFields(name[LINE_MAX..], hash);
      }
    } else {
      var a, b := name[..i], name[i + 1..];
      assert name == a + [NL] + b;
      CutWithNewline(a, b, hash);
      if i < LINE_MAX {
        SkipLine(f, a + [NL], Record(b, hash));
        RecordFields(b, hash);
      } else {
        assert a[LINE_MAX..] + [NL] + b == name[LINE_MAX..];
        SkipLine(f, a[..LINE_MAX], Record(name[LINE_MAX..], hash));
        RecordFields(name[LINE_MAX..], hash);
      }
    }
  }

  lemma RecordNotEmpty(name: seq<byte>, hash: seq<byte>)
    ensures Record(name, hash) != [] && Terminated(Record(name, hash))
  {
  }

  /** The first line of a record, when it does not reach the colon. */
  lemma CutWithNewline(a: seq<byte>, b: seq<byte>, hash: seq<byte>)
    requires NL !in a
    ensures var f := Record(a + [NL] + b, hash);
            if |a| < LINE_MAX then Line(f) == a + [NL] && Rest(f) == Record(b, hash)
            else Line(f) == a[..LINE_MAX] && Rest(f) == Record(a[LINE_MAX..] + [NL] + b, hash)
  {
    hide Hex, LineLen, Line, Rest;
    var rest := b + [COLON] + Hex(hash) + [NL];
    assert Record(a + [NL] + b, hash) == a + [NL] + rest;
    LineOf(a, rest);
    assert |a| >= LINE_MAX ==> a[LINE_MAX..] + [NL] + rest == Record(a[LINE_MAX..] + [NL] + b, hash);
  }

  lemma CutAtLimit(name: seq<byte>, hash: seq<byte>)
    requires NL !in name && |name| >= LINE_MAX
    ensures var f := Record(name, hash);
            Line(f) == name[..LINE_MAX] && Rest(f) == Record(name[LINE_MAX..], hash)
  {
    hide Hex, LineLen, Line, Rest;
    var tail := [COLON] + Hex(hash);
    assert Record(name, hash) == (name + tail) + [NL] + [];
    LineOf(name + tail, []);
    assert (name + tail)[LINE_MAX..] == name[LINE_MAX..] + tail;
    assert (name + tail)[..LINE_MAX] == name[..LINE_MAX];
    assert name[LINE_MAX..] + tail + [NL] + [] == Record(name[LINE_MAX..], hash);
  }

  lemma KeptMatches(key: seq<byte>, hash: seq<byte>, other: seq<byte>, junk: seq<byte>)
    requires |key| < LINE_MAX && |hash| == |junk| == HASH_LEN
    ensures Matches(Kept(key, hash), other, junk) <==> |key| <= NAME_MAX && other == hash
  {
    hide Hex, Unhex;
    UnhexHex(hash, junk);
  }

  // ---------- one request ----------

  /** Refused exactly for empty, reserved and existing names; else the file says what it said and what the record says. */
  lemma AddExtends(file: seq<byte>, name: seq<byte>, hash: seq<byte>)
    requires Terminated(file)
    ensures AddUser(file, name, hash).None? <==> name == [] || name in Reserved() || name in Fields(file)
    ensures AddUser(file, name, hash).Some? ==>
              var after := AddUser(file, name, hash).value;
              Terminated(after) && file <= after && Fields(after) == Fields(Record(name, hash)) + Fields(file)
  {
    hide Fields, Exists;
    FileIsMap(file, name, [], Zeros(HASH_LEN));
    FieldsAppend(file, Record(name, hash));
  }

  /** Any accepted name: earlier lines decide as before, and only for names that have none does the record count. */
  lemma AddReadsRecord(file: seq<byte>, name: seq<byte>, hash: seq<byte>, user: seq<byte>, other: seq<byte>, junk: seq<byte>)
    requires Terminated(file) && AddUser(file, name, hash).Some? && |junk| == HASH_LEN
    ensures Verify(AddUser(file, name, hash).value, user, other, junk) <==>
            if user in Fields(file) then Verify(file, user, other, junk) else Verify(Record(name, hash), user, other, junk)
  {
    hide Fields, Exists, Verify, Record, Matches;
    AddExtends(file, name, hash);
    FileIsMap(file, user, other, junk);
    FileIsMap(Record(name, hash), user, other, junk);
    FileIsMap(AddUser(file, name, hash).value, user, other, junk);
  }

  /** Whoever verifies still does after any request: an earlier line decides. */
  lemma AddKeepsVerified(file: seq<byte>, name: seq<byte>, hash: seq<byte>, user: seq<byte>, other: seq<byte>, junk: seq<byte>)
    requires Terminated(file) && AddUser(file, name, hash).Some? && |junk| == HASH_LEN && user in Fields(file)
    ensures Verify(AddUser(file, name, hash).value, user, other, junk) <==> Verify(file, user, other, junk)
  {
    hide Fields, Exists, Verify;
    AddReadsRecord(file, name, hash, user, other, junk);
  }

  /**
   What an accepted name without a colon really adds: a login under its last piece, if that has at most 190
   bytes and is new. Every other result is unchanged.
   */
  lemma AddedLogin(file: seq<byte>, name: seq<byte>, hash: seq<byte>, user: seq<byte>, other: seq<byte>, junk: seq<byte>)
    requires Terminated(file) && COLON !in name && 0 !in name && |hash| == |junk| == HASH_LEN
    requires AddUser(file, name, hash).Some?
    ensures var t := LastPiece(name);
            Verify(AddUser(file, name, hash).value, user, other, junk) <==>
            if user == t && |t| <= 190 && t !in Fields(file) then other == hash else Verify(file, user, other, junk)
  {
    hide Fields, Exists, Verify, Kept, Matches, LastPiece;
    AddExtends(file, name, hash);
    RecordFields(name, hash);
    FileIsMap(file, user, other, junk);
    FileIsMap(AddUser(file, name, hash).value, user, other, junk);
    KeptMatches(LastPiece(name), hash, other, junk);
  }

  /** Somebody other than `name` verifies differently after the request. */
  ghost predicate ChangesOthers(file: seq<byte>, name: seq<byte>, hash: seq<byte>, junk: seq<byte>)
    requires AddUser(file, name, hash).Some? && |junk| == HASH_LEN
  {
    exists user, other :: user != name &&
      Verify(AddUser(file, name, hash).value, user, other, junk) != Verify(file, user, other, junk)
  }

  /** A login the record alone makes possible: a name whose field has the length of a hash. */
  predicate RecordAdds(name: seq<byte>, hash: seq<byte>, user: seq<byte>) {
    user in Fields(Record(name, hash)) && |Fields(Record(name, hash))[user]| == 64
  }

  /** Some submitted hash verifies for `user` as the record says exactly when the field has the right length. */
  lemma SomeHashVerifies(file: seq<byte>, user: seq<byte>, junk: seq<byte>) returns (other: seq<byte>)
    requires |junk| == HASH_LEN && user in Fields(file) && |Fields(file)[user]| == 2 * HASH_LEN
    ensures |other| == HASH_LEN && Verify(file, user, other, junk)
  {
    hide Fields, Verify;
    other := Unhex(Fields(file)[user], junk);
    FileIsMap(file, user, other, junk);
  }

  /**
   Whatever the name, colons included: a request changes somebody else's result exactly when its record, read
   alone, keys a hash-sized field by another name that the file does not have.
   */
  lemma ChangesOthersIff(file: seq<byte>, name: seq<byte>, hash: seq<byte>, junk: seq<byte>)
    requires Terminated(file) && AddUser(file, name, hash).Some? && |junk| == HASH_LEN
    ensures ChangesOthers(file, name, hash, junk) <==>
            exists user :: RecordAdds(name, hash, user) && user != name && user !in Fields(file)
  {
    hide Fields, Exists, Verify, Record;
    if ChangesOthers(file, name, hash, junk) {
      var user, other :| user != name &&
        Verify(AddUser(file, name, hash).value, user, other, junk) != Verify(file, user, other, junk);
      AddReadsRecord(file, name, hash, user, other, junk);
      FileIsMap(file, user, other, junk);
      FileIsMap(Record(name, hash), user, other, junk);
      assert RecordAdds(name, hash, user);
    }
    if user :| RecordAdds(name, hash, user) && user != name && user !in Fields(file) {
      var other := SomeHashVerifies(Record(name, hash), user, junk);
      AddReadsRecord(file, name, hash, user, other, junk);
      FileIsMap(file, user, other, junk);
      assert Verify(AddUser(file, name, hash).value, user, other, junk) != Verify(file, user, other, junk);
    }
  }

  /** In closed form for a name without a colon: exactly when its last piece is another, new, name that fits. */
  lemma ChangesOthersColonFree(file: seq<byte>, name: seq<byte>, hash: seq<byte>, junk: seq<byte>)
    requires Terminated(file) && COLON !in name && 0 !in name && |hash| == |junk| == HASH_LEN
    requires AddUser(file, name, hash).Some?
    ensures var t := LastPiece(name);
            ChangesOthers(file, name, hash, junk) <==> t != name && |t| <= 190 && t !in Fields(file)
  {
    hide Fields, Exists, Verify, Record, LastPiece, Kept, ChangesOthers;
    ChangesOthersIff(file, name, hash, junk);
    RecordFields(name, hash);
    var t := LastPiece(name);
    if t != name && |t| <= NAME_MAX && t !in Fields(file) {
      assert RecordAdds(name, hash, t);
    }
  }

  /** Some reserved name verifies with some hash. */
  ghost predicate ReservedVerifies(file: seq<byte>, junk: seq<byte>)
    requires |junk| == HASH_LEN
  {
    exists r, h :: r in Reserved() && Verify(file, r, h, junk)
  }

  /** Whatever the name: while no reserved name is in the file, a request makes one verify exactly when its record adds one. */
  lemma ReservedVerifiesIff(file: seq<byte>, name: seq<byte>, hash: seq<byte>, junk: seq<byte>)
    requires Terminated(file) && AddUser(file, name, hash).Some? && |junk| == HASH_LEN && Fields(file).Keys !! Reserved()
    ensures ReservedVerifies(AddUser(file, name, hash).value, junk) <==> exists r :: r in Reserved() && RecordAdds(name, hash, r)
  {
    hide Fields, Exists, Verify, Record, Reserved;
    var after := AddUser(file, name, hash).value;
    if ReservedVerifies(after, junk) {
      var r, h :| r in Reserved() && Verify(after, r, h, junk);
      AddReadsRecord(file, name, hash, r, h, junk);
      FileIsMap(Record(name, hash), r, h, junk);
      assert RecordAdds(name, hash, r);
    }
    if r :| r in Reserved() && RecordAdds(name, hash, r) {
      var h := SomeHashVerifies(Record(name, hash), r, junk);
      AddReadsRecord(file, name, hash, r, h, junk);
    }
  }

  /** In closed form for a name without a colon: exactly when its last piece is reserved. */
  lemma ReservedColonFree(file: seq<byte>, name: seq<byte>, hash: seq<byte>, junk: seq<byte>)
    requires Terminated(file) && COLON !in name && 0 !in name && |hash| == |junk| == HASH_LEN
    requires AddUser(file, name, hash).Some? && Fields(file).Keys !! Reserved()
    ensures ReservedVerifies(AddUser(file, name, hash).value, junk) <==> LastPiece(name) in Reserved()
  {
    hide Fields, Exists, Verify, Record, LastPiece, Kept, ReservedVerifies;
    ReservedVerifiesIff(file, name, hash, junk);
    RecordFields(name, hash);
    if LastPiece(name) in Reserved() {
      assert RecordAdds(name, hash, LastPiece(name));
    }
  }

  /** The witness: "x", a newline and "exit" is one accepted name, and then the reserved name exit verifies. */
  lemma NewlineAddsReserved(hash: seq<byte>, junk: seq<byte>)
    requires |hash| == |junk| == HASH_LEN
    ensures var name: seq<byte> := [120, NL, 101, 120, 105, 116];
            && AddUser([], name, hash).Some?
            && [101, 120, 105, 116] in Reserved()
            && Verify(AddUser([], name, hash).value, [101, 120, 105, 116], hash, junk)
  {
    hide Fields, Verify;
    var name: seq<byte> := [120, NL, 101, 120, 105, 116];
    var exit: seq<byte> := [101, 120, 105, 116];
    assert |name| == 6;
    assert IndexOf(name, NL) == 1 by { IndexOfAt(name, NL, [120], exit); }
    assert name[2..] == exit;
    assert NL !in exit;
    assert LastPiece(name) == exit;
    AddExtends([], name, hash);
    FileIsMap([], exit, hash, junk);
    assert Fields([]) == map[] by { NoColonNoFields([]); }
    AddedLogin([], name, hash, exit, hash, junk);
  }

  /**
   The witness with a colon: bob, a colon, any 64 hexadecimal digits, a newline and "x" is one accepted name. Then
   bob verifies with the hash written in the name, whatever the request's own hash.
   */
  lemma ColonAddsChosenLogin(chosen: seq<byte>, hash: seq<byte>, junk: seq<byte>)
    requires |chosen| == |hash| == |junk| == HASH_LEN
    ensures var bob: seq<byte> := [98, 111, 98]; var name := bob + [COLON] + Hex(chosen) + [NL, 120];
            && AddUser([], name, hash).Some? && name != bob
            && Verify(AddUser([], name, hash).value, bob, chosen, junk)
            && ChangesOthers([], name, hash, junk)
  {
    hide Fields, Verify, Record, Hex;
    var bob: seq<byte> := [98, 111, 98];
    var name := bob + [COLON] + Hex(chosen) + [NL, 120];
    assert |name| == 70 && name[3] == COLON;
    assert forall r | r in Reserved() :: |r| < 70;
    NoColonNoFields([]);
    AddExtends([], name, hash);
    BobsLine(bob, chosen, hash);
    FileIsMap(Record(name, hash), bob, chosen, junk);
    UnhexHex(chosen, junk);
    AddReadsRecord([], name, hash, bob, chosen, junk);
    assert RecordAdds(name, hash, bob);
    ChangesOthersIff([], name, hash, junk);
  }

  /** The first line of such a record is a record of its own. */
  lemma BobsLine(user: seq<byte>, chosen: seq<byte>, hash: seq<byte>)
    requires COLON !in user && NL !in user && 0 !in user && |user| < NAME_MAX && |chosen| == HASH_LEN
    ensures var name := user + [COLON] + Hex(chosen) + [NL, 120];
            user in Fields(Record(name, hash)) && Fields(Record(name, hash))[user] == Hex(chosen)
  {
    hide Hex, Fields;
    var name := user + [COLON] + Hex(chosen) + [NL, 120];
    assert Record(name, hash) == Record(user, chosen) + Record([120], hash);
    ShortLine(user, chosen);
    FieldsAppend(Record(user, chosen), Record([120], hash));
  }

  // ---------- any sequence of requests ----------

  datatype User = User(name: seq<byte>, hash: seq<byte>)

  /** The file after running the tool once per request on it, a refused request leaving it as it was. */
  function AddAll(file: seq<byte>, requests: seq<User>): seq<byte>
    decreases |requests|
  {
    if requests == [] then file
    else
      var before := AddAll(file, requests[..|requests| - 1]);
      var u := requests[|requests| - 1];
      match AddUser(before, u.name, u.hash)
      case None => before
      case Some(after) => after
  }

  /** The same on the map of fields. */
  function AddAllFields(requests: seq<User>): map<seq<byte>, seq<byte>>
    decreases |requests|
  {
    if requests == [] then map[]
    else
      var m := AddAllFields(requests[..|requests| - 1]);
      var u := requests[|requests| - 1];
      if u.name == [] || u.name in Reserved() || u.name in m then m else Fields(Record(u.name, u.hash)) + m
  }

  /** Whatever the names, the file stays terminated and is the map that the records make one by one. */
  lemma {:induction false} AnyRequestsRefineMap(requests: seq<User>)
    ensures Terminated(AddAll([], requests)) && Fields(AddAll([], requests)) == AddAllFields(requests)
    decreases |requests|
  {
    hide Exists, Record, Reserved;
    if requests != [] {
      var before, u := requests[..|requests| - 1], requests[|requests| - 1];
      AnyRequestsRefineMap(before);
      AddExtends(AddAll([], before), u.name, u.hash);
    }
  }

  /**
   Names without a colon, as a map to hashes: each accepted request adds its last piece unless that is there
   already, with its hash, or with nothing when the hash does not fit the line.
   */
  function AddAllToMap(requests: seq<User>): map<seq<byte>, Option<seq<byte>>>
    decreases |requests|
  {
    if requests == [] then map[]
    else
      var m := AddAllToMap(requests[..|requests| - 1]);
      var u := requests[|requests| - 1];
      var t := LastPiece(u.name);
      if u.name == [] || u.name in Reserved() || u.name in m || t in m then m
      else m[t := if |t| <= NAME_MAX then Some(u.hash) else None]
  }

  /** A request the closed form covers. */
  predicate ColonFree(u: User) {
    COLON !in u.name && 0 !in u.name && |u.hash| == HASH_LEN
  }

  /** The two maps agree. */
  ghost predicate SameLogins(fields: map<seq<byte>, seq<byte>>, m: map<seq<byte>, Option<seq<byte>>>) {
    && fields.Keys == m.Keys
    && forall n | n in m :: if m[n].Some? then |m[n].value| == HASH_LEN && fields[n] == Hex(m[n].value)
                            else |fields[n]| != 2 * HASH_LEN
  }

  lemma {:induction false} ClosedForm(requests: seq<User>)
    requires forall u | u in requests :: ColonFree(u)
    ensures SameLogins(AddAllFields(requests), AddAllToMap(requests))
    decreases |requests|
  {
    hide Fields, Record, Reserved, Kept, Hex, LastPiece;
    if requests != [] {
      var before, u := requests[..|requests| - 1], requests[|requests| - 1];
      assert u in requests && forall v | v in before :: v in requests;
      ClosedForm(before);
      RecordFields(u.name, u.hash);
    }
  }

  /**
   The users file refines a map, whatever the names requested: a login verifies exactly when the field the map has
   for its name is its hash, and the tool refuses exactly the empty, reserved and existing names.
   */
  lemma UsersFileRefinesMap(requests: seq<User>, user: seq<byte>, hash: seq<byte>, junk: seq<byte>)
    requires |junk| == HASH_LEN
    ensures var file := AddAll([], requests);
            var m := AddAllFields(requests);
            && (Verify(file, user, hash, junk) <==> user in m && Matches(m[user], hash, junk))
            && (AddUser(file, user, hash).None? <==> user == [] || user in Reserved() || user in m)
  {
    hide Fields, Verify, Exists, AddAll, AddAllFields, Record, Reserved, Matches;
    AnyRequestsRefineMap(requests);
    FileIsMap(AddAll([], requests), user, hash, junk);
    AddExtends(AddAll([], requests), user, hash);
  }

  /**
   In closed form for requests without a colon: a login verifies exactly when the map sends its name to its hash.
   */
  lemma ColonFreeRefinesMap(requests: seq<User>, user: seq<byte>, hash: seq<byte>, junk: seq<byte>)
    requires (forall u | u in requests :: ColonFree(u)) && |junk| == HASH_LEN
    ensures var file := AddAll([], requests);
            var m := AddAllToMap(requests);
            && (Verify(file, user, hash, junk) <==> user in m && m[user] == Some(hash))
            && (AddUser(file, user, hash).None? <==> user == [] || user in Reserved() || user in m)
  {
    hide Fields, Verify, Exists, AddAll, AddAllToMap, AddAllFields, Hex, Unhex, Record, Reserved;
    var file, m := AddAll([], requests), AddAllToMap(requests);
    AnyRequestsRefineMap(requests);
    ClosedForm(requests);
    FileIsMap(file, user, hash, junk);
    AddExtends(file, user, hash);
    if user in m && m[user].Some? {
      UnhexHex(m[user].value, junk);
    }
  }

  predicate GoodName(n: seq<byte>) {
    n != [] && COLON !in n && NL !in n && 0 !in n && |n| <= NAME_MAX
  }

  /** When also no name has a newline or more than 190 bytes, names are kept as given and none is empty or reserved. */
  lemma {:induction false} GoodRequests(requests: seq<User>)
    requires forall u | u in requests :: u.name == [] || GoodName(u.name)
    ensures AddAllToMap(requests).Keys == set u | u in requests && u.name != [] && u.name !in Reserved() :: u.name
    decreases |requests|
  {
    hide Reserved;
    if requests != [] {
      var before, u := requests[..|requests| - 1], requests[|requests| - 1];
      GoodRequests(before);
      assert requests == before + [u];
    }
  }

  // ---------- which names survive being written and read ----------

  /** A name that verifies was the key of some line: no colon, no newline, shorter than a line. */
  lemma {:induction false} VerifiedName(file: seq<byte>, user: seq<byte>, hash: seq<byte>, junk: seq<byte>)
    requires |junk| == HASH_LEN && Verify(file, user, hash, junk)
    ensures COLON !in user && NL !in user && |user| < LINE_MAX
    decreases |file|
  {
    var line := Line(file);
    var c := CString(line);
    var k := IndexOf(c, COLON);
    if k == |c| || c[..k] != user {
      VerifiedName(Rest(file), user, hash, junk);
    } else {
      assert user == line[..k] <= line[..|line| - 1];
      assert line[..|line| - 1] == file[..LineLen(file) - 1];
    }
  }

  /** An accepted name verifies with its own hash exactly when it has no colon, no newline and at most 190 bytes. */
  lemma AddedNameVerifiesIff(file: seq<byte>, name: seq<byte>, hash: seq<byte>, junk: seq<byte>)
    requires Terminated(file) && 0 !in name && |hash| == |junk| == HASH_LEN
    requires AddUser(file, name, hash).Some?
    ensures Verify(AddUser(file, name, hash).value, name, hash, junk)
       <==> COLON !in name && NL !in name && |name| <= 190
  {
    hide Fields, Verify, Exists, Record, LastPiece, Reserved;
    var after := AddUser(file, name, hash).value;
    if COLON !in name {
      AddExtends(file, name, hash);
      AddedLogin(file, name, hash, name, hash, junk);
      FileIsMap(file, name, hash, junk);
    } else if Verify(after, name, hash, junk) {
      VerifiedName(after, name, hash, junk);
    }
  }

  /** The shortest witness: "a:b" is accepted and verifies with no hash. */
  lemma ColonNameIsAcceptedButFails(hash: seq<byte>, other: seq<byte>, junk: seq<byte>)
    requires |junk| == HASH_LEN
    ensures AddUser([], [97, COLON, 98], hash).Some?
    ensures !Verify(AddUser([], [97, COLON, 98], hash).value, [97, COLON, 98], other, junk)
  {
    hide Verify;
    var name: seq<byte> := [97, COLON, 98];
    assert name[1] == COLON && |name| == 3;
    assert AddUser([], name, hash).Some? by {
      assert forall r | r in Reserved() :: COLON !in r;
    }
    if Verify(AddUser([], name, hash).value, name, other, junk) {
      VerifiedName(AddUser([], name, hash).value, name, other, junk);
    }
  }

  /** What can be the name of a line. */
  lemma {:induction false} FieldNames(file: seq<byte>, n: seq<byte>)
    requires n in Fields(file)
    ensures COLON !in n && NL !in n && 0 !in n
    decreases |file|
  {
    hide TrimEol;
    var line := Line(file);
    var c := CString(line);
    var k := IndexOf(c, COLON);
    if k < |c| && c[..k] == n {
      assert n == line[..k] <= line[..|line| - 1];
      assert line[..|line| - 1] == file[..LineLen(file) - 1];
    } else {
      FieldNames(Rest(file), n);
    }
  }

  lemma BehindNewline(n: seq<byte>)
    requires NL !in n && |n| < LINE_MAX
    ensures LastPiece([120, NL] + n) == n
  {
    hide IndexOf;
    var name := [120, NL] + n;
    assert name == [120] + [NL] + n;
    IndexOfAt(name, NL, [120], n);
    assert name[2..] == n;
    assert LastPiece(n) == n;
  }

  lemma ReservedHasNoNewline(n: seq<byte>)
    requires NL in n
    ensures n !in Reserved()
  {
    assert forall r | r in Reserved() :: NL !in r;
  }

  /** Any name that fits a line and is not in the file can be put there, if need be behind a newline. */
  lemma CanBeAdded(file: seq<byte>, n: seq<byte>, hash: seq<byte>, junk: seq<byte>)
    requires Terminated(file) && GoodName(n) && n !in Fields(file) && |hash| == |junk| == HASH_LEN
    ensures 0 !in [120, NL] + n && AddUser(file, [120, NL] + n, hash).Some?
    ensures Verify(AddUser(file, [120, NL] + n, hash).value, n, hash, junk)
  {
    hide Fields, Verify, Exists, AddUser, LastPiece, Reserved, Terminated;
    var name := [120, NL] + n;
    assert name[1] == NL;
    ReservedHasNoNewline(name);
    AddExtends(file, name, hash);
    if name in Fields(file) {
      FieldNames(file, name);
    }
    BehindNewline(n);
    AddedLogin(file, name, hash, n, hash, junk);
  }

  // ---------- the characters ----------

  /** The names nobody can have: on an empty file the tool refuses these and the empty one, and accepts every other. */
  lemma ReservedNames(name: seq<byte>, hash: seq<byte>)
    ensures AddUser([], name, hash).None? <==> name in {Text(""), Text("exit"), Text("quit"), Text("r"), Text("reply")}
  {
    hide Record;
    assert Text("exit") == [101, 120, 105, 116] && Text("quit") == [113, 117, 105, 116];
    assert Text("r") == [114] && Text("reply") == [114, 101, 112, 108, 121] && Text("") == [];
  }

  /** The hash as text: two lower-case hexadecimal digits for each byte, high half first. */
  lemma {:induction false} HexText(hash: seq<byte>, i: nat)
    requires i < |hash|
    ensures |Text("0123456789abcdef")| == 16
    ensures Hex(hash)[2 * i] == Text("0123456789abcdef")[hash[i] / 16] && Hex(hash)[2 * i + 1] == Text("0123456789abcdef")[hash[i] % 16]
    decreases |hash|
  {
    hide HexDigit, HexVal, Text;
    var n := |hash| - 1;
    Digits(hash[i] / 16);
    Digits(hash[i] % 16);
    if i < n {
      HexText(hash[..n], i);
    }
  }

  /** A record as text: name, colon, hash, newline. */
  lemma RecordText(name: seq<byte>, hash: seq<byte>)
    ensures Record(name, hash) == name + Text(":") + Hex(hash) + Text("\n")
  {
    assert Text(":") == [COLON] && Text("\n") == [NL];
  }

  lemma Digits(n: byte)
    requires n < 16
    ensures |Text("0123456789abcdef")| == |Text("0123456789ABCDEF")| == 16
    ensures HexDigit(n) == Text("0123456789abcdef")[n]
    ensures HexVal(Text("0123456789abcdef")[n]) == Some(n) && HexVal(Text("0123456789ABCDEF")[n]) == Some(n)
  {
  }

  /** Whatever line ending the file has been given since, a stored hash is the same hash. */
  lemma AnyLineEnding(stored: seq<byte>, hash: seq<byte>, junk: seq<byte>, eol: seq<byte>)
    requires |stored| == |junk| == HASH_LEN && eol in {Text(""), Text("\n"), Text("\r\n"), Text("\r"), Text("\n\n")}
    ensures HashMatches(Hex(stored) + eol, hash, junk) <==> hash == stored
  {
    hide Hex, Unhex, TrimEol;
    var x := Hex(stored);
    UnhexHex(stored, junk);
    assert Text("") == [] && Text("\n") == [NL] && Text("\r\n") == [CR, NL] && Text("\r") == [CR] && Text("\n\n") == [NL, NL];
    TrimHex(x);
    TrimOne(x, CR);
    TrimOne(x + [CR], NL);
    TrimOne(x + [NL], NL);
    assert x + [] == x && (x + [CR]) + [NL] == x + [CR, NL] && (x + [NL]) + [NL] == x + [NL, NL];
  }

  lemma TrimOne(x: seq<byte>, c: byte)
    requires c == NL || c == CR
    ensures TrimEol(x + [c]) == TrimEol(x)
  {
    assert (x + [c])[..|x|] == x;
  }
}
