/** Sessions as the server allocates them, and the linked queue of those waiting for the auth worker. */
module AuthQueue {
  import opened Bytes
  import opened Phases
  import opened Wire
  import S = ServerSpec

  /** sqmp_session_t on the server; `next` links it into the queue. */
  class Session {
    ghost const sid: nat
    var phase: Phase
    var id: u32
    var name: seq<byte>
    var authStream: Option<nat>
    var queued: bool
    var closed: bool
    var authName: seq<byte>
    var authHash: seq<byte>
    var authKey: seq<byte>
    var next: Session?
    ghost var life: S.Life
    ghost var serial: nat
    ghost var loginStream: Option<nat>
    ghost var respLost: bool
    ghost var chatRefused: bool

    ghost function View(): S.Session
      reads this`phase, this`id, this`name, this`authStream, this`queued, this`closed
      reads this`authName, this`authHash, this`authKey
      reads this`life, this`serial, this`loginStream, this`respLost, this`chatRefused
    {
      S.Session(phase, id, name, authStream, queued, closed, authName, authHash, authKey,
                life, serial, loginStream, respLost, chatRefused)
    }

    /** calloc, then state = HELLO. */
    constructor (ghost sid: nat)
      ensures this.sid == sid && View() == S.FreshSession() && next == null
    {
      this.sid := sid;
      phase, id, name, authStream := StHello, 0, [], None;
      queued, closed := false, false;
      authName, authHash, authKey := [], Zeros(HASH_LEN), Zeros(KEY_LEN);
      next := null;
      life, serial, loginStream, respLost, chatRefused := S.Connected, 0, None, false, false;
    }

    /** HELLO accepted. */
    method Accept(newId: u32, ghost nth: nat)
      modifies this`id, this`phase, this`serial
      ensures View() == old(View()).(id := newId, phase := StAuth, serial := nth)
    {
      id := newId;
      phase := StAuth;
      serial := nth;
    }

    /** The credentials of an AUTH_REQ; a key of any other length leaves the old one. */
    method Request(stream: nat, p: Packet)
      requires p.AuthReq?
      modifies this`authName, this`authHash, this`authKey, this`authStream, this`queued
      ensures View() == old(View()).(authName := p.name, authHash := p.hash,
                                     authKey := if p.keyLen == 32 then p.key else old(authKey),
                                     authStream := Some(stream), queued := true)
    {
      authName := p.name;
      authHash := p.hash;
      if p.keyLen == 32 {
        authKey := p.key;
      }
      authStream := Some(stream);
      queued := true;
    }

    /** Logged in under the requested name; `ok` says whether the answer can be sent. */
    method Establish(ok: bool)
      modifies this`name, this`phase, this`loginStream, this`respLost
      ensures View() == old(View()).(name := old(authName), phase := StEstablished,
                                     loginStream := old(authStream), respLost := old(authStream).None? || !ok)
    {
      name := authName;
      phase := StEstablished;
      loginStream, respLost := authStream, authStream.None? || !ok;
    }

    method CloseStream()
      modifies this`authStream
      ensures View() == old(View()).(authStream := None)
    {
      authStream := None;
    }

    method CloseChat()
      modifies this`phase
      ensures View() == old(View()).(phase := StClosing)
    {
      phase := StClosing;
    }

    method MarkClosed()
      modifies this`closed, this`life
      ensures View() == old(View()).(closed := true, life := S.ClosedQueued)
    {
      closed := true;
      life := S.ClosedQueued;
    }

    method Unqueue()
      modifies this`queued
      ensures View() == old(View()).(queued := false)
    {
      queued := false;
    }

    ghost method Release()
      modifies this`life
      ensures View() == old(View()).(life := S.Freed)
    {
      life := S.Freed;
    }

    ghost method Refuse(ok: bool)
      modifies this`chatRefused
      ensures View() == old(View()).(chatRefused := old(chatRefused) || ok)
    {
      chatRefused := chatRefused || ok;
    }
  }

  /** Head and tail pointers over linked sessions; `nodes` is the sequence they represent. */
  class Queue {
    var head: Session?
    var tail: Session?
    ghost var nodes: seq<Session>

    ghost predicate Valid()
      reads this, nodes`next
    {
      && (nodes == [] ==> head == null && tail == null)
      && (nodes != [] ==> head == nodes[0] && tail == nodes[|nodes| - 1] && tail.next == null)
      && (forall i | 0 <= i < |nodes| - 1 :: nodes[i].next == nodes[i + 1])
      && (forall i, j | 0 <= i < j < |nodes| :: nodes[i] != nodes[j])
    }

    constructor ()
      ensures Valid() && nodes == []
    {
      head, tail, nodes := null, null, [];
    }

    /** Appends; the session must not be linked already. */
    method Enqueue(s: Session)
      requires Valid() && s !in nodes
      modifies this, s`next, nodes`next
      ensures Valid() && nodes == old(nodes) + [s]
    {
      s.next := null;
      if tail == null {
        head, tail := s, s;
      } else {
        tail.next := s;
        tail := s;
      }
      nodes := nodes + [s];
    }

    /** Removes the first, or returns null when there is none. */
    method Dequeue() returns (s: Session?)
      requires Valid()
      modifies this, nodes`next
      ensures Valid()
      ensures old(nodes) == [] ==> s == null && nodes == []
      ensures old(nodes) != [] ==> s == old(nodes)[0] && nodes == old(nodes)[1..] && s.next == null
    {
      s := head;
      if s != null {
        head := s.next;
        if head == null {
          tail := null;
        }
        s.next := null;
        nodes := nodes[1..];
      }
    }
  }
}
