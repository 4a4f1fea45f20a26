/**
 The server in place: allocated sessions, the linked queue and the slot table, updated by the callbacks and
 the worker as the program does it. Each method is proved to be the corresponding step of ServerSpec; packet
 dispatch, disconnect and the worker keep the invariant that every reachable server state satisfies.
 */
module ServerImpl {
  import opened Bytes
  import opened Wire
  import opened Phases
  import opened AuthQueue
  import Registry
  import UsersFile
  import S = ServerSpec
  import SP = ServerProofs

  /** What a disconnect comes to, field by field. */
  lemma DisconnectIs(a: S.Server, b: S.Server, sid: nat)
    requires sid in a.sessions && a.sessions[sid].life == S.Connected
    requires var ss := a.sessions[sid];
             && b.sessions == a.sessions[sid := if ss.queued then ss.(closed := true, life := S.ClosedQueued)
                                                else ss.(life := S.Freed)]
             && b.registry == (if !ss.queued && ss.phase == StEstablished then a.registry - {ss.name} else a.registry)
             && b == a.(sessions := b.sessions, registry := b.registry,
                        freed := if ss.queued then a.freed else a.freed + [sid])
    ensures b == S.OnDisconnected(a, sid)
  {
  }

  /** The server once the worker has taken the head off the queue and cleared its flag. */
  ghost function Popped(a: S.Server): S.Server
    requires a.queue != [] && a.queue[0] in a.sessions
  {
    var sid := a.queue[0];
    a.(queue := a.queue[1..], sessions := a.sessions[sid := a.sessions[sid].(queued := false)])
  }

  /** The login attempt of `sid` and its answer. */
  ghost function Settled(a: S.Server, sid: nat, users: seq<byte>, junk: seq<byte>, ok: bool): S.Outcome
    requires sid in a.sessions && |junk| == HASH_LEN
  {
    var ss := a.sessions[sid];
    if S.Admits(a, ss, users, junk) then
      S.Outcome(a.(registry := a.registry[ss.authName := S.Entry(ss.authKey, ss.authStream, sid)],
                   sessions := a.sessions[sid := ss.(name := ss.authName, phase := StEstablished, loginStream := ss.authStream,
                                                     respLost := ss.authStream.None? || !ok)]),
                S.Answer(ss, AUTH_OK, ok))
    else S.Outcome(a, S.Answer(ss, AUTH_INVALID, ok))
  }

  /** A worker iteration, as its two parts. */
  lemma WorkIs(a: S.Server, users: seq<byte>, junk: seq<byte>, ok: bool)
    requires SP.HeadOk(a) && a.queue != [] && |junk| == HASH_LEN
    ensures var sid := a.queue[0];
            S.Work(a, users, junk, ok) == if a.sessions[sid].closed then S.Outcome(S.Free(Popped(a), sid), [])
                                          else Settled(Popped(a), sid, users, junk, ok)
  {
    hide UsersFile.Verify, S.Answer, CString;
    if a.sessions[a.queue[0]].closed {
      return;
    }
    var ss := Popped(a).sessions[a.queue[0]];
    assert S.Admits(a, ss, users, junk) == S.Admits(Popped(a), ss, users, junk);
  }

  class Server {
    const table: Registry.Table
    const queue: Queue
    var nextId: u32
    var stopped: bool
    ghost var heap: map<nat, Session>             // every session ever allocated
    ghost var owners: map<seq<byte>, nat>         // which session created a listing
    ghost var accepted: seq<nat>
    ghost var freed: seq<nat>
    ghost var fault: bool

    ghost function Sessions(): map<nat, S.Session>
      reads this`heap, heap.Values
    {
      map sid | sid in heap :: heap[sid].View()
    }

    ghost function Waiting(): seq<nat>
      reads queue`nodes
    {
      var nodes := queue.nodes;
      seq(|nodes|, i requires 0 <= i < |nodes| => nodes[i].sid)
    }

    ghost function Entries(): map<seq<byte>, S.Entry>
      requires TableShape()
      reads this`owners, table.slots
    {
      map n | n in owners :: S.Entry(table.Contents()[n].key, table.Contents()[n].stream, owners[n])
    }

    ghost predicate TableShape()
      reads this`owners, table.slots
    {
      table.Valid() && owners.Keys == table.Contents().Keys
    }

    ghost predicate QueueShape()
      reads this`heap, queue, queue.nodes`next
    {
      && queue.Valid()
      && (forall i | 0 <= i < |queue.nodes| :: queue.nodes[i].sid in heap && heap[queue.nodes[i].sid] == queue.nodes[i])
    }

    /** Sessions are kept under their own numbers. */
    ghost predicate Numbered()
      reads this`heap
    {
      forall sid | sid in heap :: heap[sid].sid == sid
    }

    ghost function Abs(): S.Server
      requires TableShape()
      reads this, table.slots, queue`nodes, heap.Values
    {
      S.Server(Sessions(), Waiting(), Entries(), nextId, accepted, freed, stopped, fault)
    }

    /** The parts fit together. */
    ghost predicate Valid()
      reads this`owners, this`heap, table.slots, queue, queue.nodes`next
    {
      TableShape() && QueueShape() && Numbered()
    }

    /** `s` is an allocated session. */
    ghost predicate Has(s: Session)
      reads this`heap
    {
      s.sid in heap && heap[s.sid] == s
    }

    /** `s` is the session of a connection that is up. */
    ghost predicate Owns(s: Session)
      reads this`heap, s`life
    {
      Has(s) && s.life == S.Connected
    }

    constructor ()
      ensures Valid() && fresh(table) && fresh(table.slots) && fresh(queue) && Abs() == S.Init()
    {
      table := new Registry.Table();
      queue := new Queue();
      nextId, stopped := 1, false;
      heap, owners, accepted, freed, fault := map[], map[], [], [], false;
      new;
      assert Abs() == S.Init();
    }

    // ---------- parts ----------

    /** Only `s` changed among the sessions. */
    twostate lemma OnlySession(s: Session)
      requires Numbered() && Has(s) && heap == old(heap)
      requires forall sid | sid in heap && heap[sid] != s :: heap[sid].View() == old(heap[sid].View())
      ensures Sessions() == old(Sessions())[s.sid := s.View()]
    {
    }

    /** sqmp_registry_remove, and with it the record of who created the listing. */
    method Unlist(n: seq<byte>)
      requires TableShape()
      modifies this`owners, table.slots
      ensures TableShape() && Entries() == old(Entries()) - {n}
    {
      hide Registry.ViewOf, Registry.Distinct;
      table.Remove(n);
      owners := owners - {n};
    }

    /** sqmp_registry_add. */
    method Enlist(n: seq<byte>, key: seq<byte>, stream: Option<nat>, ghost sid: nat) returns (ok: bool)
      requires TableShape()
      modifies this`owners, table.slots
      ensures TableShape()
      ensures ok <==> n !in old(Entries()) && |old(Entries())| < Registry.CAPACITY
      ensures Entries() == if ok then old(Entries())[n := S.Entry(key, stream, sid)] else old(Entries())
    {
      hide Registry.ViewOf, Registry.Distinct;
      assert Entries().Keys == table.Contents().Keys;
      ok := table.Add(n, key, stream);
      if ok {
        owners := owners[n := sid];
      }
    }

    /** sqmp_registry_find. */
    method FindStream(n: seq<byte>) returns (stream: Option<nat>)
      requires TableShape()
      ensures stream == if n in Entries() then Entries()[n].stream else None
    {
      hide Registry.ViewOf, Registry.Distinct;
      stream := table.Find(n);
    }

    /** auth_queue_enqueue. */
    method Link(s: Session)
      requires QueueShape() && Has(s) && s !in queue.nodes
      modifies queue, s`next, queue.nodes`next
      ensures QueueShape()
      ensures Waiting() == old(Waiting()) + [s.sid]
    {
      queue.Enqueue(s);
    }

    /** Takes the first waiting session off the queue. */
    method TakeWaiting() returns (s: Session)
      requires QueueShape() && queue.nodes != []
      modifies queue, queue.nodes`next
      ensures QueueShape() && Has(s) && s == old(queue.nodes)[0]
      ensures old(Waiting()) == [s.sid] + Waiting()
    {
      s := queue.Dequeue();
    }

    /** free(session). */
    ghost method Free(s: Session)
      requires Has(s)
      modifies this`fault, this`freed, s`life
      ensures old(s.View()).life != S.Freed ==>
                s.View() == old(s.View()).(life := S.Freed) && freed == old(freed) + [s.sid] && fault == old(fault)
      ensures old(s.View()).life == S.Freed ==> fault && s.View() == old(s.View()) && freed == old(freed)
    {
      if s.life == S.Freed {
        fault := true;
      } else {
        s.Release();
        freed := freed + [s.sid];
      }
    }

    /** What a field read yields. */
    lemma Reads(s: Session)
      requires Has(s)
      ensures Sessions().Keys == heap.Keys && Sessions()[s.sid] == s.View()
      ensures var v := s.View();
              && v.phase == s.phase && v.id == s.id && v.name == s.name && v.queued == s.queued && v.closed == s.closed
              && v.authName == s.authName && v.authHash == s.authHash && v.authKey == s.authKey
              && v.authStream == s.authStream && v.life == s.life && v.chatRefused == s.chatRefused
    {
    }

    // ---------- callbacks ----------

    method OnConnected(ghost sid: nat) returns (s: Session)
      requires Valid() && sid !in heap
      modifies this`heap
      ensures Valid() && fresh(s) && Owns(s) && s.sid == sid
      ensures Abs() == S.OnConnected(old(Abs()), sid)
    {
      hide Registry.ViewOf, Registry.Distinct;
      s := new Session(sid);
      heap := heap[sid := s];
      assert Sessions() == old(Sessions())[sid := S.FreshSession()];
      assert Abs() == S.OnConnected(old(Abs()), sid);
    }

    /** The version loop: at most eight entries, stops at the first 1. */
    method OffersV1(p: Packet) returns (has: bool)
      requires p.Hello? && |p.versions| == 8
      ensures has == S.OffersV1(p)
    {
      var i := 0;
      while i < p.numVersions && i < 8
        invariant 0 <= i <= 8
        invariant forall j | 0 <= j < i :: p.versions[j] != 1
      {
        if p.versions[i] == 1 { return true; }
        i := i + 1;
      }
      return false;
    }

    method ProcessHello(stream: nat, s: Session, p: Packet, ok: bool, ok2: bool) returns (sends: seq<S.Send>)
      requires Valid() && Owns(s) && p.Hello? && |p.versions| == 8
      modifies this`nextId, this`accepted, s`phase, s`id, s`serial
      ensures Valid() && Owns(s)
      ensures S.Outcome(Abs(), sends) == S.OnHello(old(Abs()), s.sid, stream, p, ok, ok2)
    {
      hide Text, S.OffersV1, TableShape, QueueShape, Numbered, Sessions, Waiting, Entries, Session.View;
      Reads(s);
      if s.phase != StHello {
        return S.Complain(ok, stream, s.id, E_UNEXPECTED_MSG, "unexpected HELLO");
      }
      var has := OffersV1(p);
      if !has {
        sends := S.Complain(ok, stream, s.id, E_VERSION_MISMATCH, "no supported protocol version");
        sends := sends + S.Try(ok2, stream, Bye(s.id));
        return;
      }
      sends := Accept(stream, s, ok);
    }

    /** The accepting part of the handler: the next ID, the HELLO_ACK, the new phase. */
    method Accept(stream: nat, s: Session, ok: bool) returns (sends: seq<S.Send>)
      requires TableShape() && Numbered() && Has(s)
      modifies this`nextId, this`accepted, s`phase, s`id, s`serial
      ensures TableShape()
      ensures var a := old(Abs());
              Abs() == a.(sessions := a.sessions[s.sid := a.sessions[s.sid].(id := a.nextId, phase := StAuth, serial := |a.accepted|)],
                          nextId := (a.nextId + 1) % S.ID_SPACE, accepted := a.accepted + [s.sid])
      ensures sends == S.Try(ok, stream, HelloAck(old(nextId), 1))
    {
      hide TableShape, QueueShape, Numbered, Sessions, Waiting, Entries, Session.View;
      Reads(s);
      var newId := nextId;
      nextId := (nextId + 1) % S.ID_SPACE;
      sends := S.Try(ok, stream, HelloAck(newId, 1));
      s.Accept(newId, |accepted|);
      accepted := accepted + [s.sid];
      OnlySession(s);
    }

    method ProcessAuthReq(stream: nat, s: Session, p: Packet, ok: bool) returns (sends: seq<S.Send>)
      requires Valid() && SP.QueueInv(Abs()) && Owns(s) && p.AuthReq? && !s.queued
      modifies queue, s`next, queue.nodes`next, s`authName, s`authHash, s`authKey, s`authStream, s`queued
      ensures Valid() && Owns(s)
      ensures S.Outcome(Abs(), sends) == S.OnAuthReq(old(Abs()), s.sid, stream, p, ok)
    {
      hide Text, TableShape, QueueShape, Numbered, Sessions, Waiting, Entries, Session.View;
      Reads(s);
      if s.phase != StAuth {
        return S.Complain(ok, stream, s.id, E_UNEXPECTED_MSG, "unexpected AUTH_REQ");
      }
      NotWaiting(s);
      s.Request(stream, p);
      Link(s);
      sends := [];
      OnlySession(s);
      assert S.Outcome(Abs(), sends) == S.OnAuthReq(old(Abs()), s.sid, stream, p, ok);
    }

    /** The flag and the links agree. */
    lemma NotWaiting(s: Session)
      requires Valid() && SP.QueueInv(Abs()) && Has(s) && !s.queued
      ensures s !in queue.nodes
    {
      forall i | 0 <= i < |queue.nodes|
        ensures queue.nodes[i].queued
      {
        assert Waiting()[i] in Abs().queue;
      }
    }

    method ProcessKeyReq(stream: nat, s: Session, p: Packet, ok: bool) returns (sends: seq<S.Send>)
      requires Valid() && Owns(s) && p.KeyReq?
      ensures S.Outcome(Abs(), sends) == S.OnKeyReq(Abs(), s.sid, stream, p, ok)
    {
      hide Text, Registry.ViewOf, Registry.Distinct;
      if s.phase != StEstablished {
        return S.Complain(ok, stream, s.id, E_UNEXPECTED_MSG, "unexpected KEY_REQ");
      }
      var key := table.GetPubkey(p.name);
      if key.None? {
        return S.Complain(ok, stream, s.id, E_USER_NOT_FOUND, "user not found");
      }
      sends := S.Try(ok, stream, KeyResp(p.id, p.name, 32, key.value));
    }

    method ProcessChatSend(stream: nat, s: Session, p: Packet, ok: bool, ok2: bool) returns (sends: seq<S.Send>)
      requires Valid() && Owns(s) && p.ChatSend?
      modifies s`chatRefused
      ensures Valid() && Owns(s)
      ensures S.Outcome(Abs(), sends) == S.OnChatSend(old(Abs()), s.sid, stream, p, ok, ok2)
    {
      hide Text, TableShape, QueueShape, Numbered, Sessions, Waiting, Entries, Session.View;
      Reads(s);
      if s.phase != StEstablished {
        return S.Complain(ok, stream, s.id, E_UNEXPECTED_MSG, "unexpected CHAT_SEND");
      }
      var recipient := FindStream(p.name);
      if recipient.None? {
        sends := S.Complain(ok, stream, s.id, E_USER_NOT_FOUND, "recipient not online");
        s.Refuse(ok);
        OnlySession(s);
        assert S.Outcome(Abs(), sends) == S.OnChatSend(old(Abs()), s.sid, stream, p, ok, ok2);
        return;
      }
      if ok {
        sends := [S.Send(recipient.value, Forward(p, s.name))];
      } else {
        sends := S.Complain(ok2, stream, s.id, E_COULD_NOT_SEND, "could not deliver message");
      }
    }

    method ProcessBye(s: Session)
      requires Valid() && Owns(s)
      modifies this`owners, s`phase, table.slots
      ensures Valid() && Owns(s)
      ensures Abs() == S.OnBye(old(Abs()), s.sid)
    {
      hide TableShape, QueueShape, Numbered, Sessions, Waiting, Entries, Session.View;
      Reads(s);
      if s.phase == StEstablished {
        Unlist(s.name);
        s.CloseChat();
        OnlySession(s);
        assert Abs() == S.OnBye(old(Abs()), s.sid);
      }
    }

    /** The dispatch: every packet keeps the invariant of all reachable states. */
    method OnStreamRecv(stream: nat, s: Session, p: Packet, ok: bool, ok2: bool) returns (sends: seq<S.Send>)
      requires Valid() && SP.Inv(Abs()) && Owns(s) && WellFormed(p) && (p.AuthReq? ==> !s.queued)
      modifies this, table.slots, queue, queue.nodes, s
      ensures Valid()
      ensures S.Outcome(Abs(), sends) == S.OnRecv(old(Abs()), s.sid, stream, p, ok, ok2)
      ensures SP.Inv(Abs())
    {
      hide TableShape, QueueShape, Numbered, Sessions, Waiting, Entries, Session.View,
           SP.QueueInv, SP.LifeInv, SP.RegistryInv, SP.IdInv,
           S.OnHello, S.OnAuthReq, S.OnKeyReq, S.OnChatSend, S.OnBye;
      Reads(s);
      SP.RecvKeeps(Abs(), s.sid, stream, p, ok, ok2);
      match p
      case Hello(_, _, _) => sends := ProcessHello(stream, s, p, ok, ok2);
      case AuthReq(_, _, _, _, _) => sends := ProcessAuthReq(stream, s, p, ok);
      case KeyReq(_, _) => sends := ProcessKeyReq(stream, s, p, ok);
      case ChatSend(_, _, _, _, _, _) => sends := ProcessChatSend(stream, s, p, ok, ok2);
      case Bye(_) =>
        ProcessBye(s);
        sends := [];
      case _ =>
        sends := [];
    }

    method OnStreamClosed(s: Session)
      requires Valid() && Owns(s)
      modifies s`authStream
      ensures Valid() && Owns(s)
      ensures Abs() == S.OnStreamClosed(old(Abs()), s.sid)
    {
      hide TableShape, QueueShape, Numbered, Sessions, Waiting, Entries, Session.View;
      Reads(s);
      s.CloseStream();
      OnlySession(s);
      assert Abs() == S.OnStreamClosed(old(Abs()), s.sid);
    }

    method OnDisconnected(s: Session)
      requires Valid() && SP.Inv(Abs()) && Owns(s)
      modifies this`owners, this`fault, this`freed, s`closed, s`life, table.slots
      ensures Valid()
      ensures Abs() == S.OnDisconnected(old(Abs()), s.sid) && SP.Inv(Abs())
    {
      hide TableShape, QueueShape, Numbered, Sessions, Waiting, Entries, Session.View,
           S.OnDisconnected, SP.QueueInv, SP.LifeInv, SP.RegistryInv, SP.IdInv;
      Reads(s);
      SP.DisconnectKeeps(Abs(), s.sid);
      if s.queued {
        s.MarkClosed();
      } else {
        if s.phase == StEstablished {
          Unlist(s.name);
        }
        Free(s);
      }
      OnlySession(s);
      DisconnectIs(old(Abs()), Abs(), s.sid);
    }

    // ---------- the worker ----------

    /** Checks the credentials, lists the user and marks the session as logged in. */
    method Admit(s: Session, users: seq<byte>, junk: seq<byte>, ok: bool) returns (admitted: bool)
      requires TableShape() && |junk| == HASH_LEN
      modifies this`owners, table.slots, s`name, s`phase, s`loginStream, s`respLost
      ensures TableShape()
      ensures admitted <==> && UsersFile.Verify(users, CString(s.authName), s.authHash, junk)
                            && s.authName !in old(Entries()) && |old(Entries())| < Registry.CAPACITY
      ensures Entries() == if admitted then old(Entries())[s.authName := S.Entry(s.authKey, s.authStream, s.sid)]
                           else old(Entries())
      ensures s.View() == if admitted
                          then old(s.View()).(name := s.authName, phase := StEstablished,
                                              loginStream := s.authStream, respLost := s.authStream.None? || !ok)
                          else old(s.View())
    {
      hide TableShape, Entries, UsersFile.Verify;
      admitted := UsersFile.VerifyCredentials(users, CString(s.authName), s.authHash, junk);
      if admitted {
        admitted := Enlist(s.authName, s.authKey, s.authStream, s.sid);
        if admitted {
          s.Establish(ok);
        }
      }
    }

    lemma WaitingHead()
      requires QueueShape() && queue.nodes != []
      ensures Waiting() != [] && Waiting()[0] == queue.nodes[0].sid && Has(queue.nodes[0])
    {
    }

    /** The connection closed while the session was queued. */
    ghost method Discard(s: Session)
      requires TableShape() && Numbered() && Has(s)
      modifies this`fault, this`freed, s`life
      ensures TableShape() && Abs() == S.Free(old(Abs()), s.sid)
    {
      hide TableShape, Numbered, Sessions, Waiting, Entries, Session.View;
      Reads(s);
      Free(s);
      OnlySession(s);
    }

    /** The login attempt itself, and its answer. */
    method Settle(s: Session, users: seq<byte>, junk: seq<byte>, ok: bool) returns (sends: seq<S.Send>)
      requires TableShape() && Numbered() && Has(s) && |junk| == HASH_LEN
      modifies this`owners, table.slots, s`name, s`phase, s`loginStream, s`respLost
      ensures TableShape() && s.sid in old(Abs()).sessions
      ensures S.Outcome(Abs(), sends) == Settled(old(Abs()), s.sid, users, junk, ok)
    {
      hide TableShape, Numbered, Sessions, Waiting, Entries, Session.View, UsersFile.Verify, CString;
      Reads(s);
      var admitted := Admit(s, users, junk, ok);
      Reads(s);
      var status: byte := if admitted then AUTH_OK else AUTH_INVALID;
      sends := if s.authStream.Some? then S.Try(ok, s.authStream.value, AuthResp(s.id, status)) else [];
      OnlySession(s);
    }

    /** The worker's dequeue: the head leaves the queue and its flag is cleared. */
    method NextPending() returns (s: Session)
      requires TableShape() && QueueShape() && Numbered() && queue.nodes != []
      modifies queue, queue.nodes
      ensures TableShape() && QueueShape() && Has(s) && s == old(queue.nodes)[0] && s.closed == old(s.closed)
      ensures var a := old(Abs()); a.queue != [] && a.queue[0] == s.sid && s.sid in a.sessions && Abs() == Popped(a)
    {
      hide TableShape, QueueShape, Numbered, Sessions, Waiting, Entries, Session.View;
      WaitingHead();
      Reads(queue.nodes[0]);
      s := TakeWaiting();
      assert old(Waiting())[1..] == Waiting();
      s.Unqueue();
      OnlySession(s);
    }

    /** One iteration of the worker loop, on the users file as it is now. */
    method WorkIteration(users: seq<byte>, junk: seq<byte>, ok: bool) returns (sends: seq<S.Send>)
      requires Valid() && SP.Inv(Abs()) && queue.nodes != [] && |junk| == HASH_LEN
      modifies this`owners, this`fault, this`freed, queue, queue.nodes, table.slots
      ensures Valid()
      ensures old(Abs()).queue != [] && S.Outcome(Abs(), sends) == S.Work(old(Abs()), users, junk, ok)
      ensures SP.Inv(Abs())
    {
      hide TableShape, QueueShape, Numbered, Sessions, Waiting, Entries, Session.View, UsersFile.Verify, S.Work, S.Free,
           Popped, Settled, SP.HeadOk, Queue.Valid, SP.QueueInv, SP.LifeInv, SP.RegistryInv, SP.IdInv;
      WaitingHead();
      Reads(queue.nodes[0]);
      SP.InvHead(Abs());
      SP.WorkKeeps(Abs(), users, junk, ok);
      WorkIs(Abs(), users, junk, ok);
      var pending := NextPending();
      if pending.closed {
        Discard(pending);
        sends := [];
      } else {
        sends := Settle(pending, users, junk, ok);
      }
    }
  }
}
