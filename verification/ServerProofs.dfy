/** What every reachable server state satisfies, and what whole runs of the server guarantee. */
module ServerProofs {
  import opened Bytes
  import opened Wire
  import opened Phases
  import opened ServerSpec
  import UsersFile
  import Registry

  // ---------- the invariant ----------

  /** The queue holds exactly the sessions flagged as queued, once each, all allocated and in AUTH. */
  ghost predicate QueueInv(s: Server) {
    && NoDup(s.queue)
    && (forall sid | sid in s.queue :: sid in s.sessions)
    && (forall sid | sid in s.sessions ::
          var ss := s.sessions[sid];
          && (ss.queued <==> sid in s.queue)
          && (ss.queued ==> ss.phase == StAuth && !ss.life.Freed?))
  }

  /** Every session is connected, closed but queued, or freed; freed exactly once. */
  ghost predicate LifeInv(s: Server) {
    && !s.fault
    && NoDup(s.freed)
    && (forall sid :: sid in s.freed <==> sid in s.sessions && s.sessions[sid].life.Freed?)
    && (forall sid | sid in s.sessions ::
          var ss := s.sessions[sid];
          && (ss.life.Connected? ==> !ss.closed)
          && (ss.life.ClosedQueued? ==> ss.closed && ss.queued))
  }

  /** Registry entries and connected established sessions correspond one to one. */
  ghost predicate RegistryInv(s: Server) {
    && |s.registry| <= Registry.CAPACITY
    && (forall n | n in s.registry :: Listed(s, n))
    && (forall sid | sid in s.sessions && Established(s.sessions[sid]) ::
          s.sessions[sid].name in s.registry && s.registry[s.sessions[sid].name].owner == sid)
  }

  predicate Established(ss: Session) {
    ss.life.Connected? && ss.phase == StEstablished
  }

  predicate Listed(s: Server, n: seq<byte>)
    requires n in s.registry
  {
    var e := s.registry[n];
    && e.owner in s.sessions
    && var ss := s.sessions[e.owner];
       Established(ss) && ss.name == n && ss.authName == n && e.key == ss.authKey && e.stream == ss.loginStream
  }

  /** The k-th accepted HELLO got ID 1 + k, wrapped to 32 bits, and no session was accepted twice. */
  ghost predicate IdInv(s: Server) {
    && s.nextId == (1 + |s.accepted|) % ID_SPACE
    && (forall k | 0 <= k < |s.accepted| ::
          var sid := s.accepted[k];
          sid in s.sessions && s.sessions[sid].phase != StHello && s.sessions[sid].serial == k)
    && (forall sid | sid in s.sessions && s.sessions[sid].phase != StHello ::
          var ss := s.sessions[sid];
          ss.serial < |s.accepted| && s.accepted[ss.serial] == sid && ss.id == (1 + ss.serial) % ID_SPACE)
  }

  ghost predicate Inv(s: Server) {
    QueueInv(s) && LifeInv(s) && RegistryInv(s) && IdInv(s)
  }

  lemma InitInv()
    ensures Inv(Init())
  {
    var s := Init();
    assert s.sessions == map[] && s.registry == map[] && s.queue == [] && s.freed == [] && s.accepted == [];
  }

  // ---------- replacing one session ----------

  predicate Replaces(s: Server, s': Server, sid: nat) {
    sid in s.sessions && sid in s'.sessions && s'.sessions == s.sessions[sid := s'.sessions[sid]]
  }

  lemma QueueReplace(s: Server, s': Server, sid: nat)
    requires QueueInv(s) && Replaces(s, s', sid) && s'.queue == s.queue
    requires s'.sessions[sid].queued == s.sessions[sid].queued
    requires s'.sessions[sid].queued ==> s'.sessions[sid].phase == StAuth && !s'.sessions[sid].life.Freed?
    ensures QueueInv(s')
  {
  }

  lemma LifeReplace(s: Server, s': Server, sid: nat)
    requires LifeInv(s) && Replaces(s, s', sid) && s'.freed == s.freed && !s'.fault
    requires s'.sessions[sid].life == s.sessions[sid].life
    requires s'.sessions[sid].closed == s.sessions[sid].closed
    requires s.sessions[sid].life.Connected? || s'.sessions[sid].queued == s.sessions[sid].queued
    ensures LifeInv(s')
  {
  }

  lemma RegistryReplace(s: Server, s': Server, sid: nat)
    requires RegistryInv(s) && Replaces(s, s', sid) && s'.registry == s.registry
    requires Established(s'.sessions[sid]) == Established(s.sessions[sid])
    requires Established(s.sessions[sid]) ==>
               var a, b := s.sessions[sid], s'.sessions[sid];
               b.name == a.name && b.authName == a.authName && b.authKey == a.authKey && b.loginStream == a.loginStream
    ensures RegistryInv(s')
  {
    forall n | n in s.registry
      ensures Listed(s', n)
    {
      assert Listed(s, n);
    }
  }

  /** The session leaves the established ones and its entry leaves the registry. */
  lemma RegistryLeave(s: Server, s': Server, sid: nat)
    requires RegistryInv(s) && Replaces(s, s', sid)
    requires Established(s.sessions[sid]) && !Established(s'.sessions[sid])
    requires s'.registry == s.registry - {s.sessions[sid].name}
    ensures RegistryInv(s')
  {
    var name := s.sessions[sid].name;
    assert s'.registry.Keys == s.registry.Keys - {name};
    forall n | n in s'.registry
      ensures Listed(s', n)
    {
      assert Listed(s, n);
    }
    forall x | x in s'.sessions && Established(s'.sessions[x])
      ensures s'.sessions[x].name in s'.registry && s'.registry[s'.sessions[x].name].owner == x
    {
      assert x != sid;
      assert s.registry[s.sessions[x].name].owner == x;
      assert s.registry[name].owner == sid;
    }
  }

  /** The session joins the established ones under a name nobody holds. */
  lemma RegistryJoin(s: Server, s': Server, sid: nat, e: Entry)
    requires RegistryInv(s) && Replaces(s, s', sid)
    requires !Established(s.sessions[sid]) && Established(s'.sessions[sid])
    requires s'.sessions[sid].name !in s.registry && |s.registry| < Registry.CAPACITY
    requires s'.registry == s.registry[s'.sessions[sid].name := e] && e.owner == sid
    requires Listed(s', s'.sessions[sid].name)
    ensures RegistryInv(s')
  {
    forall n | n in s.registry
      ensures Listed(s', n)
    {
      assert Listed(s, n);
    }
  }

  lemma IdReplace(s: Server, s': Server, sid: nat)
    requires IdInv(s) && Replaces(s, s', sid) && s'.accepted == s.accepted && s'.nextId == s.nextId
    requires var a, b := s.sessions[sid], s'.sessions[sid];
             (a.phase == StHello) == (b.phase == StHello) && b.id == a.id && b.serial == a.serial
    ensures IdInv(s')
  {
  }

  // ---------- one step keeps the invariant ----------

  lemma ConnectOwnership(s: Server, sid: nat)
    requires QueueInv(s) && LifeInv(s) && sid !in s.sessions
    ensures QueueInv(OnConnected(s, sid)) && LifeInv(OnConnected(s, sid))
  {
  }

  lemma ConnectTables(s: Server, sid: nat)
    requires RegistryInv(s) && IdInv(s) && sid !in s.sessions
    ensures RegistryInv(OnConnected(s, sid)) && IdInv(OnConnected(s, sid))
  {
    forall n | n in s.registry
      ensures Listed(OnConnected(s, sid), n)
    {
      assert Listed(s, n);
    }
  }

  lemma ConnectKeeps(s: Server, sid: nat)
    requires Inv(s) && sid !in s.sessions
    ensures Inv(OnConnected(s, sid))
  {
    hide QueueInv, LifeInv, RegistryInv, IdInv;
    ConnectOwnership(s, sid);
    ConnectTables(s, sid);
  }

  lemma HelloIds(s: Server, s': Server, sid: nat)
    requires IdInv(s) && Replaces(s, s', sid) && s.sessions[sid].phase == StHello
    requires s'.accepted == s.accepted + [sid] && s'.nextId == (s.nextId + 1) % ID_SPACE
    requires var ss := s'.sessions[sid]; ss.phase == StAuth && ss.id == s.nextId && ss.serial == |s.accepted|
    ensures IdInv(s')
  {
    var n := |s.accepted|;
    NextWraps(1 + n);
    forall k | 0 <= k < |s'.accepted|
      ensures var x := s'.accepted[k]; x in s'.sessions && s'.sessions[x].phase != StHello && s'.sessions[x].serial == k
    {
      assert k < n ==> s'.accepted[k] == s.accepted[k] && s.accepted[k] != sid;
    }
  }

  lemma NextWraps(x: nat)
    ensures (x % ID_SPACE + 1) % ID_SPACE == (x + 1) % ID_SPACE
  {
  }

  lemma HelloKeeps(s: Server, sid: nat, stream: nat, p: Packet, ok: bool, ok2: bool)
    requires Inv(s) && Live(s, sid) && p.Hello? && |p.versions| == 8
    ensures Inv(OnHello(s, sid, stream, p, ok, ok2).server)
  {
    var s' := OnHello(s, sid, stream, p, ok, ok2).server;
    if s' != s {
      assert !s.sessions[sid].queued;
      QueueReplace(s, s', sid);
      LifeReplace(s, s', sid);
      RegistryReplace(s, s', sid);
      HelloIds(s, s', sid);
    }
  }

  lemma AuthReqKeeps(s: Server, sid: nat, stream: nat, p: Packet, ok: bool)
    requires Inv(s) && Live(s, sid) && p.AuthReq? && !s.sessions[sid].queued
    ensures Inv(OnAuthReq(s, sid, stream, p, ok).server)
  {
    var s' := OnAuthReq(s, sid, stream, p, ok).server;
    if s' != s {
      assert QueueInv(s') by {
        assert sid !in s.queue;
      }
      LifeReplace(s, s', sid);
      RegistryReplace(s, s', sid);
      IdReplace(s, s', sid);
    }
  }

  lemma ChatSendKeeps(s: Server, sid: nat, stream: nat, p: Packet, ok: bool, ok2: bool)
    requires Inv(s) && Live(s, sid) && p.ChatSend?
    ensures Inv(OnChatSend(s, sid, stream, p, ok, ok2).server)
  {
    var s' := OnChatSend(s, sid, stream, p, ok, ok2).server;
    if s' != s {
      SameButGhost(s, s', sid);
    }
  }

  /** The session keeps everything the invariant speaks about. */
  lemma SameButGhost(s: Server, s': Server, sid: nat)
    requires Inv(s) && Live(s, sid) && Replaces(s, s', sid)
    requires s' == s.(sessions := s'.sessions)
    requires var a, b := s.sessions[sid], s'.sessions[sid];
             b == a.(authStream := b.authStream, chatRefused := b.chatRefused)
    ensures Inv(s')
  {
    QueueReplace(s, s', sid);
    LifeReplace(s, s', sid);
    RegistryReplace(s, s', sid);
    IdReplace(s, s', sid);
  }

  lemma ByeKeeps(s: Server, sid: nat)
    requires Inv(s) && Live(s, sid)
    ensures Inv(OnBye(s, sid))
  {
    var s' := OnBye(s, sid);
    if s' != s {
      QueueReplace(s, s', sid);
      LifeReplace(s, s', sid);
      RegistryLeave(s, s', sid);
      IdReplace(s, s', sid);
    }
  }

  lemma FreeLife(s: Server, s': Server, sid: nat)
    requires LifeInv(s) && Replaces(s, s', sid) && !s.sessions[sid].life.Freed?
    requires s'.sessions[sid].life.Freed? && s'.freed == s.freed + [sid] && !s'.fault
    ensures LifeInv(s')
  {
  }

  lemma InvQueued(s: Server, sid: nat)
    requires QueueInv(s) && sid in s.sessions
    ensures s.sessions[sid].queued ==> s.sessions[sid].phase == StAuth
  {
  }

  lemma DisconnectKeeps(s: Server, sid: nat)
    requires Inv(s) && Live(s, sid)
    ensures Inv(OnDisconnected(s, sid))
  {
    hide QueueInv, RegistryInv, IdInv;
    InvQueued(s, sid);
    var ss := s.sessions[sid];
    var s' := OnDisconnected(s, sid);
    assert s'.sessions[sid].life == if ss.queued then ClosedQueued else Freed;
    QueueReplace(s, s', sid);
    IdReplace(s, s', sid);
    if ss.queued {
      assert LifeInv(s');
      RegistryReplace(s, s', sid);
    } else {
      FreeLife(s, s', sid);
      if Established(ss) {
        RegistryLeave(s, s', sid);
      } else {
        RegistryReplace(s, s', sid);
      }
    }
  }

  lemma WorkQueue(s: Server, s': Server, sid: nat)
    requires QueueInv(s) && s.queue != [] && sid == s.queue[0] && s'.queue == s.queue[1..]
    requires Replaces(s, s', sid) && !s'.sessions[sid].queued
    ensures QueueInv(s')
  {
    assert forall x :: x in s'.queue <==> x in s.queue && x != sid by {
      assert s.queue == [sid] + s.queue[1..];
    }
  }

  lemma WorkFreeKeeps(s: Server, s': Server, sid: nat)
    requires Inv(s) && s.queue != [] && sid == s.queue[0] && HeadOk(s) && s.sessions[sid].closed
    requires s' == s.(queue := s.queue[1..], freed := s.freed + [sid],
                      sessions := s.sessions[sid := s.sessions[sid].(queued := false, life := Freed)])
    ensures Inv(s')
  {
    assert !s'.fault;
    hide QueueInv, LifeInv, RegistryInv, IdInv;
    WorkQueue(s, s', sid);
    IdReplace(s, s', sid);
    FreeLife(s, s', sid);
    RegistryReplace(s, s', sid);
  }

  lemma WorkAnswerKeeps(s: Server, s': Server, sid: nat, admitted: bool)
    requires Inv(s) && s.queue != [] && sid == s.queue[0] && HeadOk(s) && !s.sessions[sid].closed
    requires Replaces(s, s', sid)
    requires var ss, ss' := s.sessions[sid], s'.sessions[sid];
             && s' == s.(queue := s.queue[1..], sessions := s'.sessions, registry := s'.registry)
             && ss' == ss.(queued := false, name := ss'.name, phase := ss'.phase, loginStream := ss'.loginStream, respLost := ss'.respLost)
             && if admitted then
                  && ss'.name == ss.authName && ss'.phase == StEstablished && ss'.loginStream == ss.authStream
                  && ss.authName !in s.registry && |s.registry| < Registry.CAPACITY
                  && s'.registry == s.registry[ss.authName := Entry(ss.authKey, ss.authStream, sid)]
                else ss'.phase == ss.phase && s'.registry == s.registry
    ensures Inv(s')
  {
    assert !s'.fault;
    hide QueueInv, LifeInv, RegistryInv, IdInv;
    WorkQueue(s, s', sid);
    IdReplace(s, s', sid);
    LifeReplace(s, s', sid);
    if admitted {
      RegistryJoin(s, s', sid, s'.registry[s.sessions[sid].authName]);
    } else {
      RegistryReplace(s, s', sid);
    }
  }

  lemma WorkKeeps(s: Server, users: seq<byte>, junk: seq<byte>, ok: bool)
    requires Inv(s) && s.queue != [] && |junk| == HASH_LEN
    ensures Inv(Work(s, users, junk, ok).server)
  {
    hide Inv, Answer, UsersFile.Verify, CString;
    InvHead(s);
    var sid := s.queue[0];
    var ss := s.sessions[sid];
    var s' := Work(s, users, junk, ok).server;
    if ss.closed {
      WorkFreeKeeps(s, s', sid);
    } else {
      WorkAnswerKeeps(s, s', sid, Admits(s, ss, users, junk));
    }
  }

  lemma RecvKeeps(s: Server, sid: nat, stream: nat, p: Packet, ok: bool, ok2: bool)
    requires Inv(s) && Live(s, sid) && WellFormed(p) && (p.AuthReq? ==> !s.sessions[sid].queued)
    ensures Inv(OnRecv(s, sid, stream, p, ok, ok2).server)
  {
    match p
    case Hello(_, _, _) => HelloKeeps(s, sid, stream, p, ok, ok2);
    case AuthReq(_, _, _, _, _) => AuthReqKeeps(s, sid, stream, p, ok);
    case ChatSend(_, _, _, _, _, _) => ChatSendKeeps(s, sid, stream, p, ok, ok2);
    case Bye(_) => ByeKeeps(s, sid);
    case _ =>
  }

  lemma StopKeeps(s: Server)
    requires Inv(s)
    ensures Inv(s.(stopped := true))
  {
    var s' := s.(stopped := true);
    forall n | n in s.registry
      ensures Listed(s', n)
    {
      assert Listed(s, n);
    }
  }

  /** Every step keeps the invariant. */
  lemma StepKeeps(s: Server, e: Event)
    requires Inv(s) && Enabled(s, e)
    ensures Inv(Next(s, e).server)
  {
    match e
    case EvConnect(sid) => ConnectKeeps(s, sid);
    case EvRecv(sid, stream, p, ok, ok2) => RecvKeeps(s, sid, stream, p, ok, ok2);
    case EvStreamClosed(sid) => SameButGhost(s, OnStreamClosed(s, sid), sid);
    case EvDisconnect(sid) => DisconnectKeeps(s, sid);
    case EvWork(users, junk, ok) => WorkKeeps(s, users, junk, ok);
    case EvStop => StopKeeps(s);
  }

  lemma {:induction false} RunInv(states: seq<Server>, events: seq<Event>, i: nat)
    requires Run(states, events) && i < |states|
    ensures Inv(states[i])
  {
    if i == 0 {
      InitInv();
    } else {
      RunInv(states, events, i - 1);
      StepKeeps(states[i - 1], events[i - 1]);
    }
  }

  // ---------- what a step does to the sessions ----------

  /** Phases never go back, an ID is assigned once, a closed connection stays closed. */
  predicate Moves(a: Session, b: Session) {
    && a.phase.Rank() <= b.phase.Rank()
    && (a.phase != StHello ==> b.id == a.id)
    && (!a.life.Connected? ==> !b.life.Connected?)
  }

  predicate OnlyMoves(s: Server, s': Server, sid: nat) {
    Replaces(s, s', sid) && Moves(s.sessions[sid], s'.sessions[sid])
  }

  /** What the worker relies on when it dequeues. */
  predicate HeadOk(s: Server) {
    s.queue != [] ==>
      var sid := s.queue[0];
      && sid in s.sessions
      && var ss := s.sessions[sid];
         ss.queued && ss.phase == StAuth && !ss.life.Freed? && (ss.life.ClosedQueued? <==> ss.closed)
  }

  lemma InvHead(s: Server)
    requires Inv(s)
    ensures HeadOk(s)
  {
    if s.queue != [] {
      assert s.queue[0] in s.queue;
    }
  }

  lemma RecvMoves(s: Server, sid: nat, stream: nat, p: Packet, ok: bool, ok2: bool)
    requires Live(s, sid) && WellFormed(p)
    ensures OnlyMoves(s, OnRecv(s, sid, stream, p, ok, ok2).server, sid)
  {
    assert s.sessions == s.sessions[sid := s.sessions[sid]];
  }

  lemma WorkMoves(s: Server, users: seq<byte>, junk: seq<byte>, ok: bool)
    requires HeadOk(s) && s.queue != [] && |junk| == HASH_LEN
    ensures OnlyMoves(s, Work(s, users, junk, ok).server, s.queue[0])
    ensures Gone(s, s.queue[0]) ==> Work(s, users, junk, ok).sends == []
  {
  }

  /** Every session is kept, and none moves back. */
  lemma StepMoves(s: Server, e: Event, sid: nat)
    requires HeadOk(s) && Enabled(s, e) && sid in s.sessions
    ensures sid in Next(s, e).server.sessions && Moves(s.sessions[sid], Next(s, e).server.sessions[sid])
  {
    match e
    case EvRecv(x, stream, p, ok, ok2) => RecvMoves(s, x, stream, p, ok, ok2);
    case EvWork(users, junk, ok) => WorkMoves(s, users, junk, ok);
    case _ =>
  }

  // ---------- runs: phases and session IDs ----------

  /** A session's phase never goes back, and its ID is assigned once. */
  lemma {:induction false} PhaseMonotone(states: seq<Server>, events: seq<Event>, i: nat, j: nat, sid: nat)
    requires Run(states, events) && i <= j < |states| && sid in states[i].sessions
    ensures sid in states[j].sessions
    ensures states[i].sessions[sid].phase.Rank() <= states[j].sessions[sid].phase.Rank()
    ensures states[i].sessions[sid].phase != StHello ==> states[j].sessions[sid].id == states[i].sessions[sid].id
    decreases j - i
  {
    if i == j {
    } else {
      RunInv(states, events, i);
      InvHead(states[i]);
      StepMoves(states[i], events[i], sid);
      PhaseMonotone(states, events, i + 1, j, sid);
    }
  }

  predicate PastHello(s: Server, sid: nat) {
    sid in s.sessions && s.sessions[sid].phase != StHello
  }

  ghost predicate IdsDistinctNonZero(s: Server) {
    && (forall a | PastHello(s, a) :: s.sessions[a].id != 0)
    && (forall a, b | PastHello(s, a) && PastHello(s, b) && a != b :: s.sessions[a].id != s.sessions[b].id)
  }

  lemma IdsUniqueIff(s: Server)
    requires IdInv(s)
    ensures IdsDistinctNonZero(s) <==> |s.accepted| <= ID_SPACE - 1
  {
    if |s.accepted| >= ID_SPACE {
      var sid := s.accepted[ID_SPACE - 1];
      assert PastHello(s, sid) && s.sessions[sid].id == 0;
    } else {
      forall a | PastHello(s, a)
        ensures s.sessions[a].id == 1 + s.sessions[a].serial && s.accepted[s.sessions[a].serial] == a
      {
      }
    }
  }

  /**
   Over every run, all sessions that ever got an ID hold distinct non-zero ones exactly as long as at most
   2^32 - 1 HELLOs were accepted: the next one gets ID 0.
   */
  lemma {:induction false} SessionIdsUniqueIff(states: seq<Server>, events: seq<Event>, i: nat)
    requires Run(states, events) && i < |states|
    ensures IdsDistinctNonZero(states[i]) <==> |states[i].accepted| <= 4294967295
  {
    RunInv(states, events, i);
    IdsUniqueIff(states[i]);
  }

  // ---------- runs: who may remove an entry ----------

  lemma RecvRegistry(s: Server, sid: nat, stream: nat, p: Packet, ok: bool, ok2: bool)
    requires Live(s, sid) && WellFormed(p)
    ensures OnRecv(s, sid, stream, p, ok, ok2).server.registry ==
            if p.Bye? && Established(s.sessions[sid]) then s.registry - {s.sessions[sid].name} else s.registry
  {
  }

  lemma WorkRegistry(s: Server, users: seq<byte>, junk: seq<byte>, ok: bool, n: seq<byte>)
    requires s.queue != [] && |junk| == HASH_LEN && n in s.registry
    ensures n in Work(s, users, junk, ok).server.registry && Work(s, users, junk, ok).server.registry[n] == s.registry[n]
  {
  }

  /** An entry changes or goes only by its owner's BYE or disconnect. */
  lemma StepEntry(s: Server, e: Event, n: seq<byte>)
    requires RegistryInv(s) && Enabled(s, e) && n in s.registry
    requires !RemovesOwn(e, s.registry[n].owner)
    ensures n in Next(s, e).server.registry && Next(s, e).server.registry[n] == s.registry[n]
  {
    match e
    case EvRecv(sid, stream, p, ok, ok2) => RecvRegistry(s, sid, stream, p, ok, ok2);
    case EvWork(users, junk, ok) => WorkRegistry(s, users, junk, ok, n);
    case _ =>
  }

  predicate RemovesOwn(e: Event, owner: nat) {
    || (e.EvRecv? && e.sid == owner && e.pkt.Bye?)
    || (e.EvDisconnect? && e.sid == owner)
  }

  /**
   Removal is by name only, yet over every run an entry survives until its own session says BYE or
   disconnects: no repeated BYE or late disconnect of an older connection evicts a later login.
   */
  lemma {:induction false} EntrySurvivesOthers(states: seq<Server>, events: seq<Event>, i: nat, j: nat, n: seq<byte>)
    requires Run(states, events) && i <= j < |states| && n in states[i].registry
    requires forall k | i <= k < j :: !RemovesOwn(events[k], states[i].registry[n].owner)
    ensures n in states[j].registry && states[j].registry[n] == states[i].registry[n]
    decreases j - i
  {
    if i == j {
    } else {
      RunInv(states, events, i);
      StepEntry(states[i], events[i], n);
      EntrySurvivesOthers(states, events, i + 1, j, n);
    }
  }

  // ---------- runs: the registry and the established sessions ----------

  ghost function EstablishedSet(s: Server): set<nat> {
    set sid | sid in s.sessions && Established(s.sessions[sid])
  }

  ghost function Owners(names: set<seq<byte>>, m: map<seq<byte>, Entry>): set<nat>
    requires names <= m.Keys
  {
    set n | n in names :: m[n].owner
  }

  lemma {:induction false} OwnersCount(names: set<seq<byte>>, m: map<seq<byte>, Entry>)
    requires names <= m.Keys
    requires forall a, b | a in names && b in names && a != b :: m[a].owner != m[b].owner
    ensures |Owners(names, m)| == |names|
    decreases |names|
  {
    if names == {} {
      assert Owners(names, m) == {};
    } else {
      var n :| n in names;
      OwnersCount(names - {n}, m);
      assert Owners(names, m) == Owners(names - {n}, m) + {m[n].owner};
    }
  }

  /**
   In every reachable state the entries are in one-to-one correspondence with the connected established
   sessions: names, keys and login streams agree, nobody is missing, and there are at most 64.
   */
  lemma RegistryBijection(states: seq<Server>, events: seq<Event>, i: nat)
    requires Run(states, events) && i < |states|
    ensures var s := states[i];
            && (forall n | n in s.registry ::
                  var e := s.registry[n];
                  && e.owner in EstablishedSet(s) && s.sessions[e.owner].name == n
                  && e.key == s.sessions[e.owner].authKey && e.stream == s.sessions[e.owner].loginStream)
            && Owners(s.registry.Keys, s.registry) == EstablishedSet(s)
            && |EstablishedSet(s)| == |s.registry| <= 64
  {
    RunInv(states, events, i);
    var s := states[i];
    assert forall n | n in s.registry :: Listed(s, n);
    forall sid | sid in EstablishedSet(s)
      ensures sid in Owners(s.registry.Keys, s.registry)
    {
      assert s.sessions[sid].name in s.registry.Keys;
    }
    OwnersCount(s.registry.Keys, s.registry);
  }

  // ---------- runs: ownership of sessions ----------

  /** Exactly one of the three; frees are never repeated; nothing freed is queued or touched. */
  lemma OwnershipConserved(states: seq<Server>, events: seq<Event>, i: nat, sid: nat)
    requires Run(states, events) && i < |states| && sid in states[i].sessions
    ensures var s := states[i];
            && !s.fault && NoDup(s.freed) && NoDup(s.queue)
            && (Live(s, sid) || (sid in s.queue && s.sessions[sid].closed) || sid in s.freed)
            && !(Live(s, sid) && (s.sessions[sid].closed || sid in s.freed))
            && !(sid in s.queue && sid in s.freed)
            && (sid in s.queue ==> s.sessions[sid].phase == StAuth)
  {
    RunInv(states, events, i);
  }

  predicate Gone(s: Server, sid: nat) {
    sid in s.sessions && !s.sessions[sid].life.Connected?
  }

  lemma WorkSilent(s: Server, e: Event, sid: nat)
    requires HeadOk(s) && Enabled(s, e) && Gone(s, sid)
    ensures e.EvWork? && s.queue[0] == sid ==> Next(s, e).sends == []
  {
    if e.EvWork? {
      WorkMoves(s, e.users, e.junk, e.ok);
    }
  }

  /** A session whose connection closed while queued is never registered and never answered. */
  lemma {:induction false} ClosedNeverServed(states: seq<Server>, events: seq<Event>, i: nat, j: nat, sid: nat)
    requires Run(states, events) && i <= j < |states| && Gone(states[i], sid)
    ensures Gone(states[j], sid)
    ensures forall n | n in states[j].registry :: states[j].registry[n].owner != sid
    ensures j < |events| && events[j].EvWork? && states[j].queue[0] == sid ==> Next(states[j], events[j]).sends == []
    decreases j - i
  {
    RunInv(states, events, i);
    InvHead(states[i]);
    if i == j {
      assert forall n | n in states[j].registry :: Listed(states[j], n);
      if j < |events| {
        WorkSilent(states[j], events[j], sid);
      }
    } else {
      StepMoves(states[i], events[i], sid);
      ClosedNeverServed(states, events, i + 1, j, sid);
    }
  }

  // ---------- runs: every login is backed by a credential check ----------

  /** Event `e` is the request that the session's pending credentials came from. */
  predicate Requested(e: Event, ss: Session, sid: nat) {
    && e.EvRecv? && e.sid == sid && e.pkt.AuthReq?
    && e.pkt.name == ss.authName && e.pkt.hash == ss.authHash
    && (e.pkt.keyLen == 32 ==> e.pkt.key == ss.authKey)
  }

  predicate SameRequest(a: Session, b: Session) {
    a.queued && a.authName == b.authName && a.authHash == b.authHash && a.authKey == b.authKey
  }

  /** Only an AUTH_REQ changes what a session has pending. */
  lemma RecvQueued(s: Server, sid: nat, stream: nat, p: Packet, ok: bool, ok2: bool, x: nat)
    requires Live(s, sid) && WellFormed(p) && x in s.sessions
    ensures var s' := OnRecv(s, sid, stream, p, ok, ok2).server;
            && x in s'.sessions
            && (s'.sessions[x].queued ==>
                  || SameRequest(s.sessions[x], s'.sessions[x])
                  || Requested(EvRecv(sid, stream, p, ok, ok2), s'.sessions[x], x))
  {
    hide OnHello, OnAuthReq, OnKeyReq, OnChatSend, OnBye;
    match p
    case Hello(_, _, _) => HelloPending(s, sid, stream, p, ok, ok2, x);
    case AuthReq(_, _, _, _, _) => AuthReqPending(s, sid, stream, p, ok, ok2, x);
    case KeyReq(_, _) => KeyReqPending(s, sid, stream, p, ok);
    case ChatSend(_, _, _, _, _, _) => ChatPending(s, sid, stream, p, ok, ok2, x);
    case Bye(_) => ByePending(s, sid, x);
    case _ =>
  }

  predicate SamePending(s: Server, s': Server, x: nat)
    requires x in s.sessions
  {
    && x in s'.sessions
    && s'.sessions[x].queued == s.sessions[x].queued
    && (s.sessions[x].queued ==> SameRequest(s.sessions[x], s'.sessions[x]))
  }

  lemma HelloPending(s: Server, sid: nat, stream: nat, p: Packet, ok: bool, ok2: bool, x: nat)
    requires sid in s.sessions && x in s.sessions && p.Hello? && |p.versions| == 8
    ensures SamePending(s, OnHello(s, sid, stream, p, ok, ok2).server, x)
  {
    hide Text, Try, Complain, OffersV1;
  }

  lemma KeyReqPending(s: Server, sid: nat, stream: nat, p: Packet, ok: bool)
    requires sid in s.sessions && p.KeyReq?
    ensures OnKeyReq(s, sid, stream, p, ok).server == s
  {
    hide Text, Try, Complain;
  }

  lemma ChatPending(s: Server, sid: nat, stream: nat, p: Packet, ok: bool, ok2: bool, x: nat)
    requires sid in s.sessions && x in s.sessions && p.ChatSend?
    ensures SamePending(s, OnChatSend(s, sid, stream, p, ok, ok2).server, x)
  {
    hide Text, Try, Complain, Forward;
  }

  lemma ByePending(s: Server, sid: nat, x: nat)
    requires sid in s.sessions && x in s.sessions
    ensures SamePending(s, OnBye(s, sid), x)
  {
  }

  lemma AuthReqPending(s: Server, sid: nat, stream: nat, p: Packet, ok: bool, ok2: bool, x: nat)
    requires sid in s.sessions && x in s.sessions && p.AuthReq?
    ensures var s' := OnAuthReq(s, sid, stream, p, ok).server;
            && x in s'.sessions
            && (SamePending(s, s', x) || Requested(EvRecv(sid, stream, p, ok, ok2), s'.sessions[x], x))
  {
    hide Text, Try, Complain;
  }

  lemma WorkPending(s: Server, users: seq<byte>, junk: seq<byte>, ok: bool, x: nat)
    requires s.queue != [] && |junk| == HASH_LEN && x in Work(s, users, junk, ok).server.sessions
    ensures x in s.sessions
    ensures var ss' := Work(s, users, junk, ok).server.sessions[x]; ss'.queued ==> SameRequest(s.sessions[x], ss')
  {
    hide Answer, UsersFile.Verify, CString, Admits;
  }

  lemma StepQueued(s: Server, e: Event, sid: nat)
    requires Enabled(s, e) && sid in Next(s, e).server.sessions && Next(s, e).server.sessions[sid].queued
    ensures || (sid in s.sessions && SameRequest(s.sessions[sid], Next(s, e).server.sessions[sid]))
            || Requested(e, Next(s, e).server.sessions[sid], sid)
  {
    hide OnRecv, Work;
    match e
    case EvRecv(x, stream, p, ok, ok2) =>
      RecvMoves(s, x, stream, p, ok, ok2);
      RecvQueued(s, x, stream, p, ok, ok2, sid);
    case EvWork(users, junk, ok) => WorkPending(s, users, junk, ok, sid);
    case _ =>
  }

  lemma {:induction false} QueuedWasRequested(states: seq<Server>, events: seq<Event>, i: nat, sid: nat) returns (k: nat)
    requires Run(states, events) && i < |states|
    requires sid in states[i].sessions && states[i].sessions[sid].queued
    ensures k < i && Requested(events[k], states[i].sessions[sid], sid)
  {
    StepQueued(states[i - 1], events[i - 1], sid);
    if Requested(events[i - 1], states[i].sessions[sid], sid) {
      k := i - 1;
    } else {
      k := QueuedWasRequested(states, events, i - 1, sid);
    }
  }

  /** The worker's step `w` admitted `sid` under `n`, on the credentials of the request received at step `r`. */
  predicate Admission(states: seq<Server>, events: seq<Event>, r: nat, w: nat, n: seq<byte>, e: Entry)
    requires r < w < |events| && |states| == |events| + 1
  {
    && events[w].EvWork? && |events[w].junk| == HASH_LEN && states[w].queue != [] && states[w].queue[0] == e.owner
    && events[r].EvRecv? && events[r].sid == e.owner && events[r].pkt.AuthReq?
    && events[r].pkt.name == n
    && UsersFile.Verify(events[w].users, CString(n), events[r].pkt.hash, events[w].junk)
    && (events[r].pkt.keyLen == 32 ==> e.key == events[r].pkt.key)
  }

  lemma WorkAdmits(s: Server, users: seq<byte>, junk: seq<byte>, ok: bool, n: seq<byte>)
    requires HeadOk(s) && s.queue != [] && |junk| == HASH_LEN
    requires n in Work(s, users, junk, ok).server.registry && n !in s.registry
    ensures var e := Work(s, users, junk, ok).server.registry[n];
            && e.owner == s.queue[0] && s.sessions[e.owner].authName == n && e.key == s.sessions[e.owner].authKey
            && UsersFile.Verify(users, CString(n), s.sessions[e.owner].authHash, junk)
  {
    hide Answer, UsersFile.Verify, CString;
  }

  /** Only the worker puts a new entry into the registry. */
  lemma StepAdds(s: Server, e: Event, n: seq<byte>)
    requires Enabled(s, e) && n in Next(s, e).server.registry
    requires !(n in s.registry && s.registry[n] == Next(s, e).server.registry[n])
    ensures e.EvWork? && n !in s.registry
  {
    match e
    case EvRecv(x, stream, p, ok, ok2) => RecvRegistry(s, x, stream, p, ok, ok2);
    case EvWork(users, junk, ok) =>
      if n in s.registry {
        WorkRegistry(s, users, junk, ok, n);
      }
    case _ =>
  }

  /**
   Over every run, each entry goes back to an AUTH_REQ of its own session whose name, cut at its first zero
   byte, matched the users file with the submitted hash when the worker admitted it.
   */
  lemma {:induction false} LoginBacked(states: seq<Server>, events: seq<Event>, j: nat, n: seq<byte>)
    returns (r: nat, w: nat)
    requires Run(states, events) && j < |states| && n in states[j].registry
    ensures r < w < j && Admission(states, events, r, w, n, states[j].registry[n])
  {
    hide QueueInv, LifeInv, RegistryInv, IdInv, UsersFile.Verify, CString, Work, OnRecv;
    var s := states[j - 1];
    if n in s.registry && s.registry[n] == states[j].registry[n] {
      r, w := LoginBacked(states, events, j - 1, n);
    } else {
      w := j - 1;
      RunInv(states, events, w);
      InvHead(s);
      StepAdds(s, events[w], n);
      WorkAdmits(s, events[w].users, events[w].junk, events[w].ok, n);
      r := QueuedWasRequested(states, events, w, s.queue[0]);
    }
  }

  lemma RecvDelivers(s: Server, sid: nat, stream: nat, p: Packet, ok: bool, ok2: bool, x: Send)
    requires Live(s, sid) && WellFormed(p)
    requires x in OnRecv(s, sid, stream, p, ok, ok2).sends && x.pkt.ChatDeliver?
    ensures p.ChatSend? && Established(s.sessions[sid]) && x.pkt == Forward(p, s.sessions[sid].name)
  {
    hide Text, OffersV1;
  }

  /** Every CHAT_DELIVER names as sender the name that is registered, at that moment, to the sending session. */
  lemma {:induction false} DeliverNamesSender(states: seq<Server>, events: seq<Event>, i: nat, x: Send)
    requires Run(states, events) && i < |events|
    requires x in Next(states[i], events[i]).sends && x.pkt.ChatDeliver?
    ensures events[i].EvRecv? && events[i].pkt.ChatSend? && x.pkt == Forward(events[i].pkt, x.pkt.name)
    ensures x.pkt.name in states[i].registry && states[i].registry[x.pkt.name].owner == events[i].sid
  {
    hide QueueInv, LifeInv, IdInv, UsersFile.Verify, CString, OnRecv, Free;
    RunInv(states, events, i);
    match events[i]
    case EvRecv(sid, stream, p, ok, ok2) => RecvDelivers(states[i], sid, stream, p, ok, ok2, x);
    case _ =>
  }
}
