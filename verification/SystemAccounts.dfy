/** Who can ever log in. */
module SystemAccounts {
  import opened Bytes
  import opened Phases
  import opened SystemSpec
  import opened SystemLinks
  import opened SystemProofs
  import opened SystemPaths
  import opened SystemLogin
  import T = SystemTheorems
  import U = UsersFile
  import Registry
  import S = ServerSpec
  import SP = ServerProofs
  import Crypto

  /** Some steps from here end with `n` in the registry. */
  ghost predicate CanGetListed(k: Crypto.Suite, y: System, n: seq<byte>) {
    exists ys: seq<System>, es: seq<Event> :: Path(k, ys, es) && ys[0] == y && n in ys[|es|].server.registry
  }

  /** A name that the client's prompt, the AUTH_REQ and the users file can all hold. */
  predicate Typable(n: seq<byte>) {
    1 <= |n| <= 32 && U.COLON !in n && U.NL !in n && 0 !in n
  }

  /** Registered; or the server is up, and the users file has a field of a hash's length for the name or none at all. */
  predicate Obtainable(y: System, n: seq<byte>) {
    || n in y.server.registry
    || (!y.server.stopped && Typable(n) && (n in U.Fields(y.users) ==> |U.Fields(y.users)[n]| == 64))
  }

  // ---------- what is out of reach stays out of reach ----------

  lemma ListedTypable(k: Crypto.Suite, y: System, n: seq<byte>)
    requires n in y.server.registry
    requires Inv(k, y)
    ensures Typable(n)
    ensures n in U.Fields(y.users) && |U.Fields(y.users)[n]| == 2 * HASH_LEN
  {
    hide Inv, U.Verify, U.Fields;
    T.ListedName(k, y, n);
    var hash, junk := ListedVerifies(k, y, n);
    U.FileIsMap(y.users, n, hash, junk);
  }

  lemma ListedVerifies(k: Crypto.Suite, y: System, n: seq<byte>) returns (hash: seq<byte>, junk: seq<byte>)
    requires n in y.server.registry
    requires Inv(k, y)
    ensures |junk| == HASH_LEN && U.Verify(y.users, CString(n), hash, junk)
  {
    hide SP.QueueInv, SP.LifeInv, SP.IdInv, LogInv, Link, U.Verify, U.Terminated;
    assert SP.Listed(y.server, n);
    var ss := y.server.sessions[y.server.registry[n].owner];
    assert CredOk(y.users, ss);
    hash := ss.authHash;
    junk :| |junk| == HASH_LEN && U.Verify(y.users, CString(ss.authName), ss.authHash, junk);
  }

  /** A step that lists a new name is the worker's, on the users file as it is. */
  lemma NewListing(k: Crypto.Suite, y: System, e: Event, n: seq<byte>)
    requires Enabled(k, y, e) && n !in y.server.registry && n in Step(k, y, e).server.registry
    requires Inv(k, y)
    ensures !y.server.stopped && Step(k, y, e).users == y.users
  {
    hide Inv, Step, SystemSpec.Post, S.OnRecv, S.Work, S.Next, S.Enabled;
    T.StepProjects(k, y, e);
    SP.StepAdds(y.server, T.ServerEvent(y, e).value, n);
    T.UsersStep(k, y, e);
  }

  lemma UsersFieldStays(k: Crypto.Suite, y: System, e: Event, n: seq<byte>)
    requires Enabled(k, y, e) && U.Terminated(y.users) && n in U.Fields(y.users)
    ensures n in U.Fields(Step(k, y, e).users) && U.Fields(Step(k, y, e).users)[n] == U.Fields(y.users)[n]
  {
    hide Step, Enabled, U.Fields, U.AddUser;
    T.UsersStep(k, y, e);
    if e.AddAccount? {
      U.AddExtends(y.users, e.u.name, e.u.hash);
    }
  }

  lemma StoppedStays(k: Crypto.Suite, y: System, e: Event)
    requires Enabled(k, y, e) && y.server.stopped
    ensures Step(k, y, e).server.stopped
  {
    hide SystemSpec.Post, S.Answer, U.Verify, Text, S.OffersV1;
  }

  lemma StaysTerminated(k: Crypto.Suite, y: System)
    requires Inv(k, y)
    ensures U.Terminated(y.users)
  {
    hide SP.Inv, Link, LogInv, CredOk;
  }

  /** No step brings a name within reach. */
  lemma UnobtainableStays(k: Crypto.Suite, y: System, e: Event, n: seq<byte>)
    requires Crypto.Lawful(k) && Enabled(k, y, e) && !Obtainable(y, n)
    requires Inv(k, y)
    ensures !Obtainable(Step(k, y, e), n)
  {
    hide Inv, Step, Enabled, U.Fields, Typable, Crypto.Lawful, U.Terminated;
    var y' := Step(k, y, e);
    StepKeeps(k, y, e);
    StaysTerminated(k, y);
    if n in y'.server.registry {
      NewListing(k, y, e, n);
      ListedTypable(k, y', n);
    } else if y.server.stopped {
      StoppedStays(k, y, e);
    } else if n in U.Fields(y.users) {
      UsersFieldStays(k, y, e, n);
    }
  }

  lemma {:induction false} UnobtainableAlong(k: Crypto.Suite, ys: seq<System>, es: seq<Event>, i: nat, n: seq<byte>)
    requires Crypto.Lawful(k) && Path(k, ys, es) && i < |ys| && !Obtainable(ys[0], n)
    requires Inv(k, ys[0])
    ensures !Obtainable(ys[i], n)
  {
    hide Inv, Step, Enabled, Obtainable, Crypto.Lawful;
    if i > 0 {
      UnobtainableAlong(k, ys, es, i - 1, n);
      PathKeeps(k, ys, es, i - 1);
      UnobtainableStays(k, ys[i - 1], es[i - 1], n);
    }
  }

  // ---------- what is within reach can be reached, beside a client that stays as it is ----------

  /** Client `x` is past its login. */
  predicate Bystander(y: System, x: nat) {
    x in y.peers && x in y.server.sessions && y.server.sessions[x].phase.Rank() >= 3
  }

  lemma WorkShortens(k: Crypto.Suite, y: System, junk: seq<byte>)
    requires y.server.queue != [] && !y.server.stopped && |junk| == HASH_LEN
    ensures Enabled(k, y, Work(junk, true))
    ensures var y' := Step(k, y, Work(junk, true));
            y'.server.queue == y.server.queue[1..] && !y'.server.stopped && y'.users == y.users
  {
    hide SystemSpec.Post, S.Answer, U.Verify;
  }

  /** The worker touches only the session it takes off the queue. */
  lemma WorkBeside(k: Crypto.Suite, y: System, junk: seq<byte>, x: nat)
    requires Enabled(k, y, Work(junk, true)) && Bystander(y, x)
    requires Inv(k, y)
    ensures Same(y, Step(k, y, Work(junk, true)), x)
  {
    hide SP.QueueInv, SP.LifeInv, SP.RegistryInv, SP.IdInv, Link, LogInv, CredOk, S.Work, U.Terminated;
    var d := y.server.queue[0];
    SP.InvHead(y.server);
    SP.WorkMoves(y.server, y.users, junk, true);
    if !y.server.sessions[d].closed {
      OwnStream(k, y, d);
      WorkShape(y, junk, true, d);
    }
  }

  /** The worker empties the queue. */
  lemma {:induction false} Drains(k: Crypto.Suite, y: System, x: nat) returns (ys: seq<System>, es: seq<Event>)
    requires Crypto.Lawful(k) && !y.server.stopped
    requires Inv(k, y)
    ensures Path(k, ys, es) && ys[0] == y
    ensures ys[|es|].server.queue == [] && !ys[|es|].server.stopped && ys[|es|].users == y.users
    ensures Bystander(y, x) ==> Undisturbed(y, ys, x)
    decreases |y.server.queue|
  {
    hide Inv, Step, Enabled, Crypto.Lawful;
    if y.server.queue == [] {
      ys, es := [y], [];
    } else {
      var e := Work(Zeros(HASH_LEN), true);
      WorkShortens(k, y, e.junk);
      StepKeeps(k, y, e);
      var y1 := Step(k, y, e);
      ys, es := Drains(k, y1, x);
      PathJoins(k, [y, y1], [e], ys, es);
      if Bystander(y, x) {
        WorkBeside(k, y, e.junk, x);
        StillUndisturbed(y, [y, y1], ys, x);
      }
      ys, es := [y, y1] + ys[1..], [e] + es;
    }
  }

  /** In a full table somebody other than `x` is listed. */
  lemma SomebodyElse(k: Crypto.Suite, y: System, x: nat) returns (n: seq<byte>)
    requires |y.server.registry| >= Registry.CAPACITY
    requires Inv(k, y)
    ensures n in y.server.registry && y.server.registry[n].owner != x && |y.server.registry| == Registry.CAPACITY
  {
    hide SP.QueueInv, SP.LifeInv, SP.IdInv, Link, LogInv, CredOk, U.Terminated;
    var keys := y.server.registry.Keys;
    var a :| a in keys;
    assert |keys - {a}| == |keys| - 1;
    var b :| b in keys - {a};
    assert SP.Listed(y.server, a) && SP.Listed(y.server, b);
    n := if y.server.registry[a].owner != x then a else b;
  }

  /** The connection of a listed user other than `x` ends. */
  lemma Leaves(k: Crypto.Suite, y: System, n: seq<byte>, x: nat) returns (ys: seq<System>, es: seq<Event>)
    requires n in y.server.registry && y.server.registry[n].owner != x
    requires Inv(k, y)
    ensures Path(k, ys, es) && ys[0] == y && |es| == 1
    ensures ys[1].server.queue == y.server.queue && ys[1].server.stopped == y.server.stopped && ys[1].users == y.users
    ensures ys[1].server.registry == y.server.registry - {n} && ys[1].peers == y.peers
    ensures Bystander(y, x) ==> Undisturbed(y, ys, x)
  {
    hide Inv, Step, Enabled;
    var d := y.server.registry[n].owner;
    NotQueued(k, y, d, n);
    Drops(k, y, d, n);
    ys, es := [y, Step(k, y, Drop(d))], [Drop(d)];
  }

  lemma Smaller<K, V>(m: map<K, V>, n: K)
    requires n in m
    ensures |m - {n}| == |m| - 1
  {
    assert (m - {n}).Keys == m.Keys - {n};
  }

  /** If the table is full, one user goes. */
  lemma MakesRoom(k: Crypto.Suite, y: System, x: nat) returns (ys: seq<System>, es: seq<Event>)
    requires !y.server.stopped && y.server.queue == []
    requires Inv(k, y)
    ensures Path(k, ys, es) && ys[0] == y
    ensures ys[|es|].server.queue == [] && !ys[|es|].server.stopped && ys[|es|].users == y.users
    ensures |ys[|es|].server.registry| < Registry.CAPACITY && ys[|es|].server.registry.Keys <= y.server.registry.Keys
    ensures Bystander(y, x) ==> Undisturbed(y, ys, x)
  {
    hide Inv, Step, Enabled;
    if |y.server.registry| < Registry.CAPACITY {
      ys, es := [y], [];
    } else {
      var n := SomebodyElse(k, y, x);
      ys, es := Leaves(k, y, n, x);
      Smaller(y.server.registry, n);
    }
  }

  lemma {:induction false} Unused(s: set<nat>) returns (c: nat)
    ensures forall x | x in s :: x < c
    decreases |s|
  {
    if s == {} {
      c := 0;
    } else {
      var x :| x in s;
      var b := Unused(s - {x});
      c := if b <= x then x + 1 else b;
      assert forall z | z in s :: z == x || z in s - {x};
    }
  }

  /** The name gets credentials, if it has none. */
  lemma GetsAccount(k: Crypto.Suite, y: System, n: seq<byte>, x: nat)
    returns (ys: seq<System>, es: seq<Event>, hash: seq<byte>)
    requires Typable(n) && (n in U.Fields(y.users) ==> |U.Fields(y.users)[n]| == 2 * HASH_LEN)
    requires Inv(k, y)
    ensures Path(k, ys, es) && ys[0] == y
    ensures ys[|es|].server == y.server && ys[|es|].peers == y.peers
    ensures |hash| == HASH_LEN && U.Verify(ys[|es|].users, n, hash, Zeros(HASH_LEN))
    ensures Bystander(y, x) ==> Undisturbed(y, ys, x)
  {
    hide Inv, Step, U.Fields, U.Verify, U.AddUser;
    StaysTerminated(k, y);
    if n in U.Fields(y.users) {
      hash := U.SomeHashVerifies(y.users, n, Zeros(HASH_LEN));
      ys, es := [y], [];
    } else {
      hash := Zeros(HASH_LEN);
      U.CanBeAdded(y.users, n, hash, Zeros(HASH_LEN));
      var u := U.User([120, U.NL] + n, hash);
      Adds(k, y, u);
      ys, es := [y, Step(k, y, AddAccount(u))], [AddAccount(u)];
    }
  }

  lemma Adds(k: Crypto.Suite, y: System, u: U.User)
    requires 0 !in u.name && |u.hash| == HASH_LEN && U.AddUser(y.users, u.name, u.hash).Some?
    ensures Enabled(k, y, AddAccount(u))
    ensures Step(k, y, AddAccount(u)) == y.(users := U.AddUser(y.users, u.name, u.hash).value)
  {
    hide U.AddUser;
  }

  /** Whatever is within reach gets listed while a bystander stays as it is. */
  lemma ListedBeside(k: Crypto.Suite, y: System, n: seq<byte>, x: nat) returns (ys: seq<System>, es: seq<Event>)
    requires Crypto.Lawful(k) && Obtainable(y, n)
    requires Inv(k, y)
    ensures Path(k, ys, es) && ys[0] == y && n in ys[|es|].server.registry
    ensures Bystander(y, x) ==> Undisturbed(y, ys, x)
  {
    hide Inv, Step, Enabled, Crypto.Lawful, U.Fields;
    if n in y.server.registry {
      ys, es := [y], [];
    } else {
      ys, es := Drains(k, y, x);
      PathKeeps(k, ys, es, |es|);
      if n !in ys[|es|].server.registry {
        var zs, fs := MakesRoom(k, ys[|es|], x);
        ys, es := Onwards(k, y, ys, es, zs, fs, x);
        zs, fs := ListedNow(k, ys[|es|], n, x);
        ys, es := Onwards(k, y, ys, es, zs, fs, x);
      }
    }
  }

  lemma Onwards(k: Crypto.Suite, y: System, xs: seq<System>, ds: seq<Event>, ys: seq<System>, es: seq<Event>, x: nat)
    returns (zs: seq<System>, fs: seq<Event>)
    requires Crypto.Lawful(k) && Path(k, xs, ds) && Path(k, ys, es) && xs[0] == y && xs[|ds|] == ys[0]
    requires Bystander(y, x) ==> Undisturbed(y, xs, x)
    requires Bystander(ys[0], x) ==> Undisturbed(ys[0], ys, x)
    requires Inv(k, y)
    ensures Path(k, zs, fs) && zs[0] == y && zs[|fs|] == ys[|es|]
    ensures Bystander(y, x) ==> Undisturbed(y, zs, x)
    ensures Inv(k, ys[|es|])
  {
    hide Inv, Step, Enabled, Crypto.Lawful;
    PathJoins(k, xs, ds, ys, es);
    zs, fs := xs + ys[1..], ds + es;
    PathKeeps(k, zs, fs, |fs|);
    if Bystander(y, x) {
      assert Same(y, ys[0], x);
      StillUndisturbed(y, xs, ys, x);
    }
  }

  /** With an empty queue and room in the table: account, connection, login. */
  lemma ListedNow(k: Crypto.Suite, y: System, n: seq<byte>, x: nat) returns (ys: seq<System>, es: seq<Event>)
    requires Crypto.Lawful(k) && !y.server.stopped && y.server.queue == [] && |y.server.registry| < Registry.CAPACITY
    requires n !in y.server.registry && Typable(n) && (n in U.Fields(y.users) ==> |U.Fields(y.users)[n]| == 2 * HASH_LEN)
    requires Inv(k, y)
    ensures Path(k, ys, es) && ys[0] == y && n in ys[|es|].server.registry
    ensures Bystander(y, x) ==> Undisturbed(y, ys, x)
  {
    hide Inv, Step, Enabled, Crypto.Lawful, U.Fields, U.Verify;
    var hash;
    ys, es, hash := GetsAccount(k, y, n, x);
    PathKeeps(k, ys, es, |es|);
    var c := Unused(ys[|es|].peers.Keys);
    var zs, fs := CanBeListed(k, ys[|es|], c, n, hash, Zeros(HASH_LEN), [], true);
    ys, es := Onwards(k, y, ys, es, zs, fs, x);
  }

  /**
   Who can ever be registered, at any point of any run: exactly the names that are, and, while the server is up,
   the names of 1 to 32 bytes without colon, newline and zero byte for which the users file has no line yet or one
   with a field of 64 characters.
   */
  lemma CanGetListedIff(k: Crypto.Suite, states: seq<System>, events: seq<Event>, n: seq<byte>)
    requires Crypto.Lawful(k) && Run(k, states, events)
    ensures CanGetListed(k, states[|events|], n) <==> Obtainable(states[|events|], n)
  {
    hide Inv, Step, Enabled, Crypto.Lawful, U.Fields;
    var y := states[|events|];
    RunInv(k, states, events, |events|);
    if CanGetListed(k, y, n) {
      var ys: seq<System>, es: seq<Event> :| Path(k, ys, es) && ys[0] == y && n in ys[|es|].server.registry;
      if !Obtainable(y, n) {
        UnobtainableAlong(k, ys, es, |es|, n);
      }
    }
    if Obtainable(y, n) {
      var ys, es := ListedBeside(k, y, n, 0);
    }
  }

  // ---------- all the way to the prompt ----------

  /** Client `c` is at the prompt, logged in as `name` with the key pair of `priv`. */
  ghost predicate AtPrompt(k: Crypto.Suite, y: System, c: nat, name: seq<byte>, priv: seq<byte>) {
    && c in y.peers && y.peers[c].cl.pc.Idle? && y.peers[c].cl.phase == StEstablished
    && y.peers[c].cl.name == name && y.peers[c].cl.priv == priv
    && S.Live(y.server, c) && y.server.sessions[c].phase == StEstablished
    && name in y.server.registry && y.server.registry[name] == S.Entry(k.pub(priv), Some(c), c)
  }

  /**
   While the server is up, from any state of the invariant, whatever is queued, however full the table and even if
   the name is logged in elsewhere: credentials that verify and can be typed lead to the prompt, with any key pair.
   */
  lemma VerifiedReachesPrompt(k: Crypto.Suite, y: System, name: seq<byte>, hash: seq<byte>, junk: seq<byte>, priv: seq<byte>)
    returns (ys: seq<System>, es: seq<Event>, c: nat)
    requires Crypto.Lawful(k) && !y.server.stopped && |junk| == HASH_LEN && U.Verify(y.users, name, hash, junk)
    requires 1 <= |name| <= USERNAME_MAX && 0 !in name && |hash| == HASH_LEN
    requires Inv(k, y)
    ensures Path(k, ys, es) && ys[0] == y && c !in y.peers && AtPrompt(k, ys[|es|], c, name, priv)
  {
    hide Inv, Step, Enabled, U.Verify, Crypto.Lawful;
    ys, es := Clears(k, y, name);
    PathKeeps(k, ys, es, |es|);
    c := Unused(ys[|es|].peers.Keys + y.peers.Keys);
    var zs, fs := AccountCanLogIn(k, ys[|es|], c, name, hash, junk, priv);
    PathJoins(k, ys, es, zs, fs);
    ys, es := ys + zs[1..], es + fs;
  }

  /** The queue is emptied, the name is free and there is room. */
  lemma Clears(k: Crypto.Suite, y: System, name: seq<byte>) returns (ys: seq<System>, es: seq<Event>)
    requires Crypto.Lawful(k) && !y.server.stopped
    requires Inv(k, y)
    ensures Path(k, ys, es) && ys[0] == y
    ensures ys[|es|].server.queue == [] && !ys[|es|].server.stopped && ys[|es|].users == y.users
    ensures name !in ys[|es|].server.registry && |ys[|es|].server.registry| < Registry.CAPACITY
  {
    hide Inv, Step, Enabled, Crypto.Lawful;
    ys, es := Drains(k, y, 0);
    PathKeeps(k, ys, es, |es|);
    var y1 := ys[|es|];
    var zs, fs;
    if name in y1.server.registry {
      zs, fs := Leaves(k, y1, name, y1.server.registry[name].owner + 1);
      Smaller(y1.server.registry, name);
      AtMostFull(k, y1);
    } else {
      zs, fs := MakesRoom(k, y1, 0);
    }
    PathJoins(k, ys, es, zs, fs);
    ys, es := ys + zs[1..], es + fs;
  }

  lemma AtMostFull(k: Crypto.Suite, y: System)
    requires Inv(k, y)
    ensures |y.server.registry| <= Registry.CAPACITY
  {
    hide SP.QueueInv, SP.LifeInv, SP.IdInv, Link, LogInv, CredOk, U.Terminated;
  }

  /**
   Which names accepted by sqmp-add-user can log in: at any point of any run, while the server is up, the name can
   ever get into the registry if and only if it has no colon, no newline and at most 32 bytes.
   */
  lemma AddedNameCanLogInIff(k: Crypto.Suite, states: seq<System>, events: seq<Event>, u: U.User)
    requires Crypto.Lawful(k) && Run(k, states, events) && !states[|events|].server.stopped
    requires 0 !in u.name && |u.hash| == HASH_LEN && U.AddUser(states[|events|].users, u.name, u.hash).Some?
    ensures Enabled(k, states[|events|], AddAccount(u))
    ensures CanGetListed(k, Step(k, states[|events|], AddAccount(u)), u.name)
       <==> U.COLON !in u.name && U.NL !in u.name && |u.name| <= 32
  {
    hide Inv, Step, U.Verify, U.AddUser, U.Fields, Crypto.Lawful, CanGetListed, Path;
    var y, e := states[|events|], AddAccount(u);
    RunInv(k, states, events, |events|);
    Adds(k, y, u);
    var y' := Step(k, y, e);
    StepKeeps(k, y, e);
    OneStep(k, y, e);
    RunGoesOn(k, states, events, [y, y'], [e]);
    CanGetListedIff(k, states + [y, y'][1..], events + [e], u.name);
    StaysTerminated(k, y);
    U.AddedNameVerifiesIff(y.users, u.name, u.hash, Zeros(HASH_LEN));
    U.AddExtends(y.users, u.name, u.hash);
    U.FileIsMap(y'.users, u.name, u.hash, Zeros(HASH_LEN));
    if u.name in y'.server.registry {
      ListedTypable(k, y', u.name);
    }
  }

  lemma OneStep(k: Crypto.Suite, y: System, e: Event)
    requires Enabled(k, y, e)
    ensures Path(k, [y, Step(k, y, e)], [e])
  {
    hide Step, Enabled;
  }

  /** The name of 33 letters a. */
  function LongName(): (n: seq<byte>)
    ensures |n| == 33 && forall x | x in n :: x == 97
  {
    seq(33, i => 97)
  }

  /** The witness: it is accepted, it verifies with its hash, and in no run that follows does it get listed. */
  lemma LongNameVerifiesButNeverLogsIn(k: Crypto.Suite, hash: seq<byte>, junk: seq<byte>)
    requires Crypto.Lawful(k) && |hash| == |junk| == HASH_LEN
    ensures var u := U.User(LongName(), hash);
            && U.AddUser([], u.name, hash).Some?
            && Enabled(k, Init([]), AddAccount(u))
            && U.Verify(Step(k, Init([]), AddAccount(u)).users, u.name, hash, junk)
            && !CanGetListed(k, Step(k, Init([]), AddAccount(u)), u.name)
  {
    hide Path, U.Verify, Crypto.Lawful, U.Fields;
    var u := U.User(LongName(), hash);
    assert forall r | r in U.Reserved() :: |r| != 33;
    U.AddExtends([], u.name, hash);
    assert U.Fields([]) == map[] by { U.NoColonNoFields([]); }
    U.AddedNameVerifiesIff([], u.name, hash, junk);
    EmptyRun(k);
    AddedNameCanLogInIff(k, [Init([])], [], u);
  }

  lemma EmptyRun(k: Crypto.Suite)
    ensures Run(k, [Init([])], [])
  {
  }
}
